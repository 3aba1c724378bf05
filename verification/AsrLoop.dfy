/** The endpoint, finalize and emit part of `_ASRLoop.run`. */
module AsrLoop {
  import opened Common
  import opened SessionManager
  import Text

  // Composed with the session manager: what reaches the client as a final and what reaches the
  // LLM bridge.  The loop is one task among those that call the manager.  Which endpoints fire,
  // whether an utterance is active then and whether the session is closing are arbitrary.

  datatype LoopPc = Polling | AwaitingFinal(task: nat) | Emitting(out: Option<Outcome>)

  datatype Spoken = Spoken(gen: nat, text: string)

  /** `bridge` is what `_on_asr_final` was called with, `finals` the ASR_FINAL texts sent. */
  datatype Loop = Loop(multi: bool, pc: LoopPc, lastStreamed: string, bridge: seq<Spoken>, finals: seq<string>, done: bool)

  /** `asked` keeps, for every endpoint that was served, its finalize task (if an utterance was
      active), and `closings` whether the session was closing at each emit. */
  datatype System = System(w: World, l: Loop, asked: seq<Option<nat>>, closings: seq<bool>)

  datatype LoopStep = Elsewhere(step: Step) | Endpoint(task: nat, active: bool) | TakeResult | Emit(closing: bool)

  function Initial(hasRestart: bool, multi: bool): System {
    System(SessionManager.Initial(hasRestart), Loop(multi, Polling, "", [], [], false), [], [])
  }

  /** `final_text`: the text of an accepted finalize, and nothing else. */
  function FinalText(out: Option<Outcome>): string {
    if out.Some? && out.value.Final? && out.value.accepted then out.value.text else ""
  }

  function GenOf(out: Option<Outcome>): nat { if out.Some? && out.value.Final? then out.value.gen else 0 }

  function EmitFinal(l: Loop, out: Option<Outcome>, closing: bool): Loop {
    EmitText(l, GenOf(out), FinalText(out), Blank(FinalText(out)), closing)
  }

  function EmitText(l: Loop, gen: nat, text: string, blank: bool, closing: bool): Loop {
    if l.multi then
      var shown := if closing && text == "" && l.lastStreamed != "" then l.lastStreamed else text;
      l.(pc := Polling, finals := l.finals + [shown],
         bridge := if blank then l.bridge else l.bridge + [Spoken(gen, text)],
         lastStreamed := if closing then l.lastStreamed else text, done := closing)
    else
      l.(pc := Polling, finals := l.finals + [text], bridge := l.bridge + [Spoken(gen, text)], done := true)
  }

  function NextLoop(s: System, step: LoopStep): System {
    match step
    case Elsewhere(st) => s.(w := Next(s.w, st))
    case Endpoint(t, active) =>
      if s.l.done || s.l.pc != Polling || Known(s.w, t) then s
      else if !active then s.(l := s.l.(pc := Emitting(None)), asked := s.asked + [None])
      else s.(w := Next(s.w, Arrive(t, Finalize)), l := s.l.(pc := AwaitingFinal(t)), asked := s.asked + [Some(t)])
    case TakeResult =>
      if s.l.pc.AwaitingFinal? && s.l.pc.task in s.w.results
      then s.(l := s.l.(pc := Emitting(Some(s.w.results[s.l.pc.task])))) else s
    case Emit(closing) =>
      if s.l.pc.Emitting? then s.(l := EmitFinal(s.l, s.l.pc.out, closing), closings := s.closings + [closing]) else s
  }

  function RunLoop(s: System, steps: seq<LoopStep>): System
    decreases |steps|
  {
    if steps == [] then s else RunLoop(NextLoop(s, steps[0]), steps[1..])
  }

  predicate Blank(text: string) { Text.Strip(text) == "" }

  function NotBlank(): Spoken -> bool { (x: Spoken) => !Blank(x.text) }

  /** Generation and text of an endpoint; the text is empty unless its finalize was accepted. */
  function HeardOf(out: Option<Outcome>): Spoken { Spoken(GenOf(out), FinalText(out)) }

  ghost predicate AcceptedIn(h: seq<Happening>, gen: nat, text: string) { Accepted(gen, text) in h }

  ghost predicate ShownIn(h: seq<Happening>, text: string) { text == "" || exists g :: AcceptedIn(h, g, text) }

  /** The outcome the loop holds or is about to take. */
  function Pending(s: System): Option<Outcome> {
    match s.l.pc
    case Polling => None
    case AwaitingFinal(t) => if t in s.w.results then Some(s.w.results[t]) else None
    case Emitting(out) => out
  }

  ghost predicate OutcomeOk(h: seq<Happening>, out: Outcome) {
    out.Final? && out.accepted ==> AcceptedIn(h, out.gen, out.text)
  }

  ghost predicate TasksOk(w: World) {
    && (w.holder.Some? ==> w.holder.value.task !in w.results && w.holder.value.task !in w.waiting)
    && (forall t :: t in w.waiting ==> t !in w.results)
    && (forall t :: t in w.results ==> OutcomeOk(w.hist, w.results[t]))
  }

  // What of the bridge counts is a parameter up to the main laws: text that is not blank.
  type Keep = Spoken -> bool

  ghost predicate BridgeBelow(bridge: seq<Spoken>, g: nat, keep: Keep) {
    forall i :: 0 <= i < |bridge| && keep(bridge[i]) ==> bridge[i].gen < g
  }

  /** Such text goes to the bridge at most once per generation, in the order of the generations,
      and only from an accepted finalize. */
  ghost predicate BridgeOk(h: seq<Happening>, bridge: seq<Spoken>, keep: Keep) {
    && (forall i :: 0 <= i < |bridge| && keep(bridge[i]) ==> AcceptedIn(h, bridge[i].gen, bridge[i].text))
    && (forall i, j :: 0 <= i < j < |bridge| && keep(bridge[i]) && keep(bridge[j]) ==> bridge[i].gen < bridge[j].gen)
  }

  /** The client is only shown accepted text. */
  ghost predicate FinalsOk(h: seq<Happening>, l: Loop) {
    (forall i :: 0 <= i < |l.finals| ==> ShownIn(h, l.finals[i])) && ShownIn(h, l.lastStreamed)
  }

  ghost predicate LoopOk(s: System, keep: Keep) {
    && StreamsOk(s.w) && GensOk(s.w) && TasksOk(s.w)
    && BridgeOk(s.w.hist, s.l.bridge, keep) && FinalsOk(s.w.hist, s.l)
    && (s.l.pc.AwaitingFinal? ==> Known(s.w, s.l.pc.task))
    && (Pending(s).Some? ==> OutcomeOk(s.w.hist, Pending(s).value))
    && (FinalText(Pending(s)) != "" ==> BridgeBelow(s.l.bridge, GenOf(Pending(s)), keep))
  }

  lemma ProgressGrows(w: World, e: Event, started: bool)
    ensures w.hist <= Next(w, Progress(e, started)).hist
    ensures forall t :: Known(w, t) ==> Known(Next(w, Progress(e, started)), t)
  {
  }

  lemma AcquireGrows(w: World, t: nat)
    ensures w.hist <= Next(w, Acquire(t)).hist
    ensures forall u :: Known(w, u) ==> Known(Next(w, Acquire(t)), u)
  {
  }

  lemma HistGrows(w: World, step: Step)
    ensures w.hist <= Next(w, step).hist
    ensures forall t :: Known(w, t) ==> Known(Next(w, step), t)
  {
    match step {
      case Progress(e, started) => ProgressGrows(w, e, started);
      case Acquire(t) => AcquireGrows(w, t);
      case _ =>
    }
  }

  lemma GrownHistory(h: seq<Happening>, h1: seq<Happening>, l: Loop, keep: Keep)
    requires h <= h1 && BridgeOk(h, l.bridge, keep) && FinalsOk(h, l)
    ensures BridgeOk(h1, l.bridge, keep) && FinalsOk(h1, l)
    ensures forall out :: OutcomeOk(h, out) ==> OutcomeOk(h1, out)
  {
    forall text | ShownIn(h, text) ensures ShownIn(h1, text) {
      if text != "" {
        var g :| AcceptedIn(h, g, text);
        assert AcceptedIn(h1, g, text);
      }
    }
  }

  lemma OnlyFinalizeAccepts(m: SessionManager.Manager, h: Holder, e: Event, hasRestart: bool)
    requires StateOk(m, Some(h)) && Possible(h.k, e)
    ensures var (_, pc) := Resume(m, h.k, e, hasRestart);
      pc.Return? && pc.out.Final? && pc.out.accepted ==> h.k.KFinalize? && e.Returned?
  {
    match h.k {
      case KCancel(_, _, _) =>
      case KRebuild(_, _) =>
      case KRebuildPost(_) =>
      case _ =>
    }
  }

  /** The step that gives task t its outcome records an accepted one last in the history. */
  lemma ResultAppears(w: World, step: Step, t: nat)
    requires StreamsOk(w) && t !in w.results && t in Next(w, step).results
    ensures var (w1, out) := (Next(w, step), Next(w, step).results[t]);
      out.Final? && out.accepted ==> w1.hist == w.hist + [Accepted(out.gen, out.text)]
  {
    if step.Progress? {
      OnlyFinalizeAccepts(w.m, w.holder.value, step.event, w.hasRestart);
    } else {
      assert step.Acquire?;
      var (_, pc) := Enter(w.m, w.waiting[step.task]);
      assert pc.Return? && pc.out.Final? ==> !pc.out.accepted;
    }
  }

  ghost predicate Apart(w: World) {
    && (w.holder.Some? ==> w.holder.value.task !in w.results && w.holder.value.task !in w.waiting)
    && (forall t :: t in w.waiting ==> t !in w.results)
  }

  ghost predicate Retained(w: World, w1: World) {
    forall t :: t in w.results ==> t in w1.results && w1.results[t] == w.results[t]
  }

  lemma ProgressApart(w: World, e: Event, started: bool)
    requires Apart(w)
    ensures Apart(Next(w, Progress(e, started))) && Retained(w, Next(w, Progress(e, started)))
  {
  }

  lemma AcquireApart(w: World, t: nat)
    requires Apart(w)
    ensures Apart(Next(w, Acquire(t))) && Retained(w, Next(w, Acquire(t)))
  {
  }

  lemma TasksStayApart(w: World, step: Step)
    requires Apart(w)
    ensures Apart(Next(w, step)) && Retained(w, Next(w, step))
  {
    match step {
      case Progress(e, started) => ProgressApart(w, e, started);
      case Acquire(t) => AcquireApart(w, t);
      case _ =>
    }
  }

  lemma TasksKept(w: World, step: Step)
    requires StreamsOk(w) && TasksOk(w)
    ensures TasksOk(Next(w, step))
    ensures forall t :: t in w.results ==> t in Next(w, step).results && Next(w, step).results[t] == w.results[t]
  {
    var w1 := Next(w, step);
    TasksStayApart(w, step);
    HistGrows(w, step);
    forall t | t in w1.results ensures OutcomeOk(w1.hist, w1.results[t]) {
      if t !in w.results {
        ResultAppears(w, step, t);
      }
    }
  }

  /** A final accepted now is of a later generation than everything bridged so far. */
  lemma NewFinalIsLater(h: seq<Happening>, bridge: seq<Spoken>, gen: nat, text: string, keep: Keep)
    requires BridgeOk(h, bridge, keep) && GensIncrease(h + [Accepted(gen, text)])
    ensures BridgeBelow(bridge, gen, keep)
  {
    var h1 := h + [Accepted(gen, text)];
    forall i | 0 <= i < |bridge| && keep(bridge[i]) ensures bridge[i].gen < gen {
      assert AcceptedIn(h, bridge[i].gen, bridge[i].text);
      var n :| 0 <= n < |h| && h[n] == Accepted(bridge[i].gen, bridge[i].text);
      assert h1[n].Accepted? && h1[|h|].Accepted?;
    }
  }

  lemma ManagerKeepsLoop(s: System, st: Step, keep: Keep)
    requires LoopOk(s, keep) && !Remarks(s.w, st)
    ensures LoopOk(NextLoop(s, Elsewhere(st)), keep)
  {
    var w1 := Next(s.w, st);
    StepKeepsStreams(s.w, st);
    StepKeepsGens(s.w, st);
    TasksKept(s.w, st);
    HistGrows(s.w, st);
    GrownHistory(s.w.hist, w1.hist, s.l, keep);
    if s.l.pc.AwaitingFinal? && s.l.pc.task !in s.w.results && s.l.pc.task in w1.results {
      var out := w1.results[s.l.pc.task];
      ResultAppears(s.w, st, s.l.pc.task);
      if out.Final? && out.accepted {
        NewFinalIsLater(s.w.hist, s.l.bridge, out.gen, out.text, keep);
      }
    }
  }

  lemma SpeakMore(h: seq<Happening>, bridge: seq<Spoken>, x: Spoken, keep: Keep)
    requires BridgeOk(h, bridge, keep) && (keep(x) ==> AcceptedIn(h, x.gen, x.text) && BridgeBelow(bridge, x.gen, keep))
    ensures BridgeOk(h, bridge + [x], keep)
  {
    var b1 := bridge + [x];
    forall i | 0 <= i < |b1| && keep(b1[i]) ensures AcceptedIn(h, b1[i].gen, b1[i].text) {
      assert i < |bridge| ==> b1[i] == bridge[i];
    }
    forall i, j | 0 <= i < j < |b1| && keep(b1[i]) && keep(b1[j]) ensures b1[i].gen < b1[j].gen {
      assert b1[i] == bridge[i];
    }
  }

  /** What one emit hands to the bridge is the outcome just taken. */
  lemma EmitKeepsBridge(h: seq<Happening>, l: Loop, x: Spoken, closing: bool, keep: Keep)
    requires BridgeOk(h, l.bridge, keep)
    requires keep(x) ==> AcceptedIn(h, x.gen, x.text) && BridgeBelow(l.bridge, x.gen, keep)
    ensures BridgeOk(h, EmitText(l, x.gen, x.text, !keep(x), closing).bridge, keep)
  {
    SpeakMore(h, l.bridge, x, keep);
  }

  lemma EmitKeepsFinals(h: seq<Happening>, l: Loop, x: Spoken, blank: bool, closing: bool)
    requires FinalsOk(h, l) && (x.text != "" ==> AcceptedIn(h, x.gen, x.text))
    ensures FinalsOk(h, EmitText(l, x.gen, x.text, blank, closing))
  {
    assert ShownIn(h, x.text);
  }

  lemma EmitKeepsLoop(s: System, closing: bool, keep: Keep)
    requires LoopOk(s, keep) && s.l.pc.Emitting? && (keep(HeardOf(s.l.pc.out)) ==> FinalText(s.l.pc.out) != "")
    ensures var x := HeardOf(s.l.pc.out);
      LoopOk(s.(l := EmitText(s.l, x.gen, x.text, !keep(x), closing), closings := s.closings + [closing]), keep)
  {
    var x := HeardOf(s.l.pc.out);
    EmitKeepsBridge(s.w.hist, s.l, x, closing, keep);
    EmitKeepsFinals(s.w.hist, s.l, x, !keep(x), closing);
  }

  lemma EndpointKeepsLoop(s: System, t: nat, active: bool, keep: Keep)
    requires LoopOk(s, keep)
    ensures LoopOk(NextLoop(s, Endpoint(t, active)), keep)
  {
    if !s.l.done && s.l.pc == Polling && !Known(s.w, t) && active {
      ManagerKeepsLoop(s, Arrive(t, Finalize), keep);
    }
  }

  lemma TakingKeepsLoop(s: System, keep: Keep)
    requires LoopOk(s, keep)
    ensures LoopOk(NextLoop(s, TakeResult), keep)
  {
  }

  lemma BlankEmpty()
    ensures Blank("")
  {
  }

  ghost predicate KeepsText(keep: Keep) { forall x: Spoken :: keep(x) == !Blank(x.text) }

  lemma StepKeepsLoop(s: System, step: LoopStep, keep: Keep)
    requires KeepsText(keep) && LoopOk(s, keep) && (step.Elsewhere? ==> !Remarks(s.w, step.step))
    ensures LoopOk(NextLoop(s, step), keep)
  {
    match step {
      case Elsewhere(st) => ManagerKeepsLoop(s, st, keep);
      case Endpoint(t, active) => EndpointKeepsLoop(s, t, active, keep);
      case TakeResult => TakingKeepsLoop(s, keep);
      case Emit(closing) =>
        if s.l.pc.Emitting? {
          BlankEmpty();
          EmitKeepsLoop(s, closing, keep);
        }
    }
  }

  ghost predicate NeverRemarking(s: System, steps: seq<LoopStep>)
    decreases |steps|
  {
    steps != [] ==>
      && (steps[0].Elsewhere? ==> !Remarks(s.w, steps[0].step))
      && NeverRemarking(NextLoop(s, steps[0]), steps[1..])
  }

  lemma {:induction false} RunKeepsLoop(s: System, steps: seq<LoopStep>, keep: Keep)
    requires KeepsText(keep) && LoopOk(s, keep) && NeverRemarking(s, steps)
    ensures LoopOk(RunLoop(s, steps), keep)
    decreases |steps|
  {
    if steps != [] {
      StepKeepsLoop(s, steps[0], keep);
      RunKeepsLoop(NextLoop(s, steps[0]), steps[1..], keep);
    }
  }

  /** Over every run of the loop with the manager (no `mark_error` served in IDLE for a
      generation that had its final), the bridge gets non-blank text at most once per
      generation, in order, and only text that a finalize of that generation accepted; a
      reaffirmed close-out text never reaches it. */
  lemma BridgeHearsEachGenerationOnce(hasRestart: bool, multi: bool, steps: seq<LoopStep>)
    requires NeverRemarking(Initial(hasRestart, multi), steps)
    ensures var s := RunLoop(Initial(hasRestart, multi), steps);
      BridgeOk(s.w.hist, s.l.bridge, NotBlank()) && FinalsOk(s.w.hist, s.l) && GensIncrease(s.w.hist)
  {
    InitialOk(hasRestart);
    RunKeepsLoop(Initial(hasRestart, multi), steps, NotBlank());
  }

  // ------------------------------------------------------------------
  // Every final is told
  // ------------------------------------------------------------------

  type Results = map<nat, Outcome>

  /** What an endpoint came to: what its finalize returned, or nothing. */
  function OutcomeOf(results: Results, task: Option<nat>): Option<Outcome> {
    if task.Some? && task.value in results then Some(results[task.value]) else None
  }

  predicate Answered(results: Results, task: Option<nat>) { task.Some? ==> task.value in results }

  function AllHeard(results: Results, asked: seq<Option<nat>>): seq<Spoken> {
    seq(|asked|, k requires 0 <= k < |asked| => HeardOf(OutcomeOf(results, asked[k])))
  }

  function Kept<T>(xs: seq<T>, keep: T -> bool): seq<T> {
    if xs == [] then []
    else
      var n := |xs| - 1;
      Kept(xs[..n], keep) + if keep(xs[n]) then [xs[n]] else []
  }

  function NonBlank(xs: seq<Spoken>): seq<Spoken> { Kept(xs, NotBlank()) }

  /** What an emit shows: its own text, or, when it closes the session with no text, the text of
      the emit before it. */
  function Shown(multi: bool, heard: seq<Spoken>, closings: seq<bool>, k: nat): string
    requires k < |heard| && |heard| == |closings|
  {
    if multi && closings[k] && heard[k].text == "" && k > 0 then heard[k - 1].text else heard[k].text
  }

  /** The loop's own state, by what was emitted so far. */
  ghost predicate Told(l: Loop, heard: seq<Spoken>, closings: seq<bool>, keep: Keep) {
    var n := |heard|;
    && |closings| == n && |l.finals| == n
    && (forall k: nat :: k < n ==> l.finals[k] == Shown(l.multi, heard, closings, k))
    && l.bridge == (if l.multi then Kept(heard, keep) else heard)
    && (l.done <==> n > 0 && (!l.multi || closings[n - 1]))
    && (!l.done ==> l.lastStreamed == if n == 0 then "" else heard[n - 1].text)
  }

  ghost predicate InHand(results: Results, l: Loop, task: Option<nat>) {
    !l.done && match l.pc
      case Polling => false
      case AwaitingFinal(t) => task == Some(t)
      case Emitting(out) => Answered(results, task) && out == OutcomeOf(results, task)
  }

  /** Endpoints are served one after the other: all but the one in hand are emitted. */
  ghost predicate EmitsOk(results: Results, l: Loop, asked: seq<Option<nat>>, closings: seq<bool>, keep: Keep) {
    var n := |closings|;
    && n <= |asked| && (forall k :: 0 <= k < n ==> Answered(results, asked[k]))
    && Told(l, AllHeard(results, asked[..n]), closings, keep)
    && if l.pc == Polling then |asked| == n else |asked| == n + 1 && InHand(results, l, asked[n])
  }

  lemma ResultsGrow(results: Results, more: Results, l: Loop, asked: seq<Option<nat>>, closings: seq<bool>, keep: Keep)
    requires EmitsOk(results, l, asked, closings, keep)
    requires forall t :: t in results ==> t in more && more[t] == results[t]
    ensures EmitsOk(more, l, asked, closings, keep)
  {
    forall k | 0 <= k < |closings|
      ensures Answered(more, asked[k]) && OutcomeOf(more, asked[k]) == OutcomeOf(results, asked[k])
    {
      assert Answered(results, asked[k]);
    }
    assert AllHeard(more, asked[..|closings|]) == AllHeard(results, asked[..|closings|]);
  }

  lemma ShownStays(multi: bool, heard: seq<Spoken>, x: Spoken, closings: seq<bool>, closing: bool, k: nat)
    requires k < |heard| == |closings|
    ensures Shown(multi, heard + [x], closings + [closing], k) == Shown(multi, heard, closings, k)
  {
  }

  lemma KeptSnoc<T>(xs: seq<T>, x: T, keep: T -> bool)
    ensures Kept(xs + [x], keep) == Kept(xs, keep) + if keep(x) then [x] else []
  {
    assert (xs + [x])[..|xs|] == xs;
  }

  lemma OneMoreTold(l: Loop, heard: seq<Spoken>, closings: seq<bool>, keep: Keep, x: Spoken, closing: bool)
    requires Told(l, heard, closings, keep) && !l.done
    ensures Told(EmitText(l, x.gen, x.text, !keep(x), closing), heard + [x], closings + [closing], keep)
  {
    var l1 := EmitText(l, x.gen, x.text, !keep(x), closing);
    var now, flags := heard + [x], closings + [closing];
    KeptSnoc(heard, x, keep);
    forall k: nat | k < |heard| ensures l1.finals[k] == Shown(l.multi, now, flags, k) {
      ShownStays(l.multi, heard, x, closings, closing, k);
      assert l.finals[k] == Shown(l.multi, heard, closings, k);
    }
    assert l1.finals[|heard|] == Shown(l.multi, now, flags, |heard|);
    if l.multi {
      assert Kept(heard, keep) + [] == Kept(heard, keep);
    } else {
      assert heard == [];
    }
  }

  lemma OneMoreEmit(results: Results, l: Loop, asked: seq<Option<nat>>, closings: seq<bool>, keep: Keep, closing: bool)
    requires EmitsOk(results, l, asked, closings, keep) && l.pc.Emitting?
    ensures var x := HeardOf(l.pc.out);
      EmitsOk(results, EmitText(l, x.gen, x.text, !keep(x), closing), asked, closings + [closing], keep)
  {
    var n, x := |closings|, HeardOf(l.pc.out);
    OneMoreTold(l, AllHeard(results, asked[..n]), closings, keep, x, closing);
    assert asked == asked[..n] + [asked[n]] && asked[..n + 1] == asked;
    assert AllHeard(results, asked) == AllHeard(results, asked[..n]) + [x];
  }

  lemma OneMoreAsked(results: Results, l: Loop, asked: seq<Option<nat>>, closings: seq<bool>, keep: Keep, pc: LoopPc,
                     task: Option<nat>)
    requires EmitsOk(results, l, asked, closings, keep) && l.pc == Polling && pc != Polling && InHand(results, l.(pc := pc), task)
    ensures EmitsOk(results, l.(pc := pc), asked + [task], closings, keep)
  {
    assert (asked + [task])[..|closings|] == asked[..|closings|];
  }

  lemma OutcomeTaken(results: Results, l: Loop, asked: seq<Option<nat>>, closings: seq<bool>, keep: Keep)
    requires EmitsOk(results, l, asked, closings, keep) && l.pc.AwaitingFinal? && l.pc.task in results
    ensures EmitsOk(results, l.(pc := Emitting(Some(results[l.pc.task]))), asked, closings, keep)
  {
  }

  ghost predicate SystemOk(s: System, keep: Keep) { Apart(s.w) && EmitsOk(s.w.results, s.l, s.asked, s.closings, keep) }

  lemma WorldKeepsEmits(s: System, step: Step, keep: Keep)
    requires SystemOk(s, keep)
    ensures SystemOk(s.(w := Next(s.w, step)), keep)
  {
    TasksStayApart(s.w, step);
    ResultsGrow(s.w.results, Next(s.w, step).results, s.l, s.asked, s.closings, keep);
  }

  lemma EndpointKeepsEmits(s: System, t: nat, active: bool, keep: Keep)
    requires SystemOk(s, keep)
    ensures SystemOk(NextLoop(s, Endpoint(t, active)), keep)
  {
    if !s.l.done && s.l.pc == Polling && !Known(s.w, t) {
      if active {
        WorldKeepsEmits(s, Arrive(t, Finalize), keep);
        OneMoreAsked(Next(s.w, Arrive(t, Finalize)).results, s.l, s.asked, s.closings, keep, AwaitingFinal(t), Some(t));
      } else {
        OneMoreAsked(s.w.results, s.l, s.asked, s.closings, keep, Emitting(None), None);
      }
    }
  }

  lemma StepKeepsEmits(s: System, step: LoopStep, keep: Keep)
    requires SystemOk(s, keep) && KeepsText(keep)
    ensures SystemOk(NextLoop(s, step), keep) && NextLoop(s, step).l.multi == s.l.multi
  {
    match step {
      case Elsewhere(st) => WorldKeepsEmits(s, st, keep);
      case Endpoint(t, active) => EndpointKeepsEmits(s, t, active, keep);
      case TakeResult =>
        if s.l.pc.AwaitingFinal? && s.l.pc.task in s.w.results {
          OutcomeTaken(s.w.results, s.l, s.asked, s.closings, keep);
        }
      case Emit(closing) =>
        if s.l.pc.Emitting? {
          OneMoreEmit(s.w.results, s.l, s.asked, s.closings, keep, closing);
          assert keep(HeardOf(s.l.pc.out)) == !Blank(FinalText(s.l.pc.out));
        }
    }
  }

  lemma {:induction false} RunKeepsEmits(s: System, steps: seq<LoopStep>, keep: Keep)
    requires SystemOk(s, keep) && KeepsText(keep)
    ensures SystemOk(RunLoop(s, steps), keep) && RunLoop(s, steps).l.multi == s.l.multi
    decreases |steps|
  {
    if steps != [] {
      StepKeepsEmits(s, steps[0], keep);
      RunKeepsEmits(NextLoop(s, steps[0]), steps[1..], keep);
    }
  }

  /** Over every run: the endpoints served so far (but for the one in hand) each sent one final,
      with the text of their accepted finalize or, for a close-out without one, that of the final
      before; and the LLM bridge got exactly their non-blank texts, in order, each once (the only
      text, blank or not, when the session is for one utterance). */
  lemma EveryFinalIsTold(hasRestart: bool, multi: bool, steps: seq<LoopStep>)
    ensures var s := RunLoop(Initial(hasRestart, multi), steps);
      var n := |s.closings|;
      && |s.asked| == n + (if s.l.pc == Polling then 0 else 1)
      && (forall k :: 0 <= k < n ==> Answered(s.w.results, s.asked[k]))
      && var heard := AllHeard(s.w.results, s.asked[..n]);
      && |s.l.finals| == n && (forall k: nat :: k < n ==> s.l.finals[k] == Shown(multi, heard, s.closings, k))
      && s.l.bridge == if multi then NonBlank(heard) else heard
  {
    RunKeepsEmits(Initial(hasRestart, multi), steps, NotBlank());
  }

  /** What goes to the bridge of a session for many utterances: it holds x exactly when some
      endpoint was heard as x, and x is not blank. */
  lemma {:induction false} NonBlankHolds(xs: seq<Spoken>, x: Spoken)
    ensures x in NonBlank(xs) <==> x in xs && !Blank(x.text)
  {
    if xs != [] {
      var n := |xs| - 1;
      assert xs == xs[..n] + [xs[n]];
      NonBlankHolds(xs[..n], x);
      KeptSnoc(xs[..n], xs[n], NotBlank());
    }
  }
}

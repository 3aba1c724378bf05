/** The per-utterance ASR session manager: `ASRSessionManager`. */
module SessionManager {
  import opened Common

  // A call holds the asyncio lock from `Enter` to `Return`, but awaits worker operations in
  // between; what it awaits is a `Kont`.  Code between two awaits runs without interruption, so
  // it is one function here (and one method of the class below).  While a call holds the lock
  // other calls may arrive, which bumps the abort epoch before they queue for the lock.

  datatype State = Idle | Active | Finalizing | Cancelling | ErrorRebuild

  /** Streams are numbered as the backend creates them.  `closes` counts the calls of
      `close` on each, `abandoned` the ones left to a worker restart. */
  datatype Manager = Manager(
    state: State, stream: Option<nat>, gen: nat, abortEpoch: nat, opEpoch: nat, opLock: nat,
    created: nat, closes: multiset<nat>, abandoned: set<nat>)

  datatype Call = SpeechStart | AcceptAudio | Finalize | PrepareFinalize(generation: Option<nat>) | GetPartial | Cancel | MarkError

  datatype Outcome =
    | Opened(gen: nat)
    | Unavailable
    | Final(gen: nat, text: string, accepted: bool, lang: Option<string>)
    | Plain

  datatype After = AfterSpeech | AfterCancel
  datatype Then = ThenSpeech | ThenReturn(out: Outcome)

  /** What the holder of the lock is waiting for. */
  datatype Kont =
    | KCancel(stream: nat, epoch: nat, after: After)
    | KCancelRestart(stream: nat, finished: bool, after: After)
    | KCreate
    | KAcceptCreate
    | KAccept
    | KFinalize(gen: nat, epoch: nat)
    | KPrepare
    | KPartial
    | KRebuild(attempt: nat, next: Then)
    | KRebuildRestart(next: Then)
    | KRebuildPost(next: Then)

  datatype Pc = Return(out: Outcome) | Await(k: Kont)

  /** How an awaited operation ends. */
  datatype Event =
    | Returned(text: string, lang: Option<string>)
    | Raised(protocol: bool)
    | TimedOut

  const REBUILD_ATTEMPTS: nat := 3

  function Rejected(m: Manager): Outcome { Final(m.gen, "", false, None) }

  function CloseStream(m: Manager, x: nat): Manager { m.(closes := m.closes + multiset{x}) }

  function DropCurrent(m: Manager): Manager {
    (if m.stream.Some? then CloseStream(m, m.stream.value) else m).(stream := None)
  }

  function WithNewStream(m: Manager): Manager { m.(stream := Some(m.created), created := m.created + 1) }

  function HandleError(m: Manager, next: Then): (Manager, Pc) {
    (DropCurrent(m).(state := ErrorRebuild), Await(KRebuild(0, next)))
  }

  function AfterRebuild(m: Manager, next: Then): (Manager, Pc) {
    match next
    case ThenReturn(out) => (m, Return(out))
    case ThenSpeech =>
      if m.stream.None? then (m.(state := Idle), Return(Unavailable)) else (m.(state := Active), Return(Opened(m.gen)))
  }

  /** `_maybe_restart_worker` up to its await: the epoch moves before the restart begins. */
  function StartRestart(m: Manager, hasRestart: bool, restarting: Kont, without: (Manager, Pc)): (Manager, Pc) {
    if hasRestart then (m.(opEpoch := m.opEpoch + 1), Await(restarting)) else without
  }

  /** The restart is over; only a successful one publishes a new mutex. */
  function EndRestart(m: Manager, e: Event): Manager { if e.Returned? then m.(opLock := m.opLock + 1) else m }

  function OpenStream(m: Manager): (Manager, Pc) { (m.(gen := m.gen + 1), Await(KCreate)) }

  function EndCancel(m: Manager, after: After): (Manager, Pc) {
    match after case AfterSpeech => OpenStream(m) case AfterCancel => (m, Return(Plain))
  }

  function InnerCancel(m: Manager, after: After): (Manager, Pc) {
    if m.state == Idle then EndCancel(m, after)
    else if m.stream.None? then EndCancel(m.(state := Idle), after)
    else (m.(state := Cancelling, stream := None), Await(KCancel(m.stream.value, m.opEpoch, after)))
  }

  /** The stream is closed only if the cancel call is known to have finished on it. */
  function FinishCancel(m: Manager, x: nat, finished: bool, after: After): (Manager, Pc) {
    var m1 := if finished then CloseStream(m, x) else m.(abandoned := m.abandoned + {x});
    EndCancel(m1.(state := Idle), after)
  }

  function CancelEnded(m: Manager, k: Kont, e: Event, hasRestart: bool): (Manager, Pc)
    requires k.KCancel?
  {
    match e
    case Returned(_, _) => FinishCancel(m, k.stream, k.epoch == m.opEpoch, k.after)
    case TimedOut =>
      StartRestart(m, hasRestart, KCancelRestart(k.stream, false, k.after), FinishCancel(m, k.stream, false, k.after))
    case Raised(protocol) =>
      if protocol
      then StartRestart(m, hasRestart, KCancelRestart(k.stream, true, k.after), FinishCancel(m, k.stream, true, k.after))
      else FinishCancel(m, k.stream, true, k.after)
  }

  function FinalizeEnded(m: Manager, gen: nat, epoch: nat, e: Event): (Manager, Pc) {
    if !e.Returned? then HandleError(m, ThenReturn(Final(gen, "", false, None)))
    else if m.abortEpoch != epoch || m.state != Finalizing || m.gen != gen then (m, Return(Final(gen, "", false, None)))
    else (DropCurrent(m).(state := Idle), Return(Final(gen, e.text, true, e.lang)))
  }

  function RebuildEnded(m: Manager, attempt: nat, next: Then, e: Event, hasRestart: bool): (Manager, Pc) {
    if e.Returned? then AfterRebuild(WithNewStream(m).(state := Active), next)
    else if attempt + 1 < REBUILD_ATTEMPTS then (m, Await(KRebuild(attempt + 1, next)))
    else StartRestart(m, hasRestart, KRebuildRestart(next), (m, Await(KRebuildPost(next))))
  }

  /** From obtaining the lock to the first await. */
  function Enter(m: Manager, call: Call): (Manager, Pc) {
    match call
    case SpeechStart => if m.state in {Active, Finalizing} then InnerCancel(m, AfterSpeech) else OpenStream(m)
    case AcceptAudio =>
      (m, if m.state != Active then Return(Plain) else if m.stream.None? then Await(KAcceptCreate) else Await(KAccept))
    case Finalize =>
      if m.state != Active then (m, Return(Rejected(m)))
      else if m.stream.None? then (m.(state := Idle), Return(Rejected(m)))
      else (m.(state := Finalizing), Await(KFinalize(m.gen, m.abortEpoch)))
    case PrepareFinalize(g) =>
      (m, if (g.Some? && g.value != m.gen) || m.state != Active || m.stream.None? then Return(Plain) else Await(KPrepare))
    case GetPartial => (m, if m.state != Active || m.stream.None? then Return(Plain) else Await(KPartial))
    case Cancel => InnerCancel(m, AfterCancel)
    case MarkError => HandleError(m, ThenReturn(Plain))
  }

  /** From the end of what was awaited to the next await or the return. */
  function Resume(m: Manager, k: Kont, e: Event, hasRestart: bool): (Manager, Pc) {
    match k
    case KCancel(_, _, _) => CancelEnded(m, k, e, hasRestart)
    case KCancelRestart(x, finished, after) => FinishCancel(EndRestart(m, e), x, finished, after)
    case KCreate =>
      if e.Returned? then (WithNewStream(m).(state := Active), Return(Opened(m.gen))) else HandleError(m, ThenSpeech)
    case KAcceptCreate =>
      if e.Returned? then (WithNewStream(m), Await(KAccept)) else HandleError(m, ThenReturn(Plain))
    case KAccept => if e.Returned? then (m, Return(Plain)) else HandleError(m, ThenReturn(Plain))
    case KFinalize(gen, epoch) => FinalizeEnded(m, gen, epoch, e)
    case KPrepare => if e.Returned? then (m, Return(Plain)) else HandleError(m, ThenReturn(Plain))
    case KPartial => (m, Return(Plain))
    case KRebuild(attempt, next) => RebuildEnded(m, attempt, next, e, hasRestart)
    case KRebuildRestart(next) => (EndRestart(m, e), Await(KRebuildPost(next)))
    case KRebuildPost(next) =>
      if e.Returned? then AfterRebuild(WithNewStream(m).(state := Active), next)
      else AfterRebuild(DropCurrent(m).(state := Idle), next)
  }

  /** Worker operations only time out where the source bounds the wait. */
  predicate Possible(k: Kont, e: Event) { e.TimedOut? ==> k.KCancel? }

  class ASRSessionManager {
    const hasRestart: bool
    var state: State
    var stream: Option<nat>
    var generation: nat
    var abortEpoch: nat
    var workerOpEpoch: nat
    var workerOpLock: nat
    var created: nat
    ghost var closes: multiset<nat>
    ghost var abandoned: set<nat>

    ghost function View(): Manager
      reads this
    {
      Manager(state, stream, generation, abortEpoch, workerOpEpoch, workerOpLock, created, closes, abandoned)
    }

    constructor (hasRestart: bool)
      ensures View() == NewManager() && this.hasRestart == hasRestart
    {
      this.hasRestart := hasRestart;
      state, stream, generation := Idle, None, 0;
      abortEpoch, workerOpEpoch, workerOpLock, created := 0, 0, 0, 0;
      closes, abandoned := multiset{}, {};
    }

    /** Before contending for the lock. */
    method Preempt()
      modifies this
      ensures View() == old(View()).(abortEpoch := old(abortEpoch) + 1)
    {
      abortEpoch := abortEpoch + 1;
    }

    method SafeCloseStream(x: Option<nat>)
      modifies this`closes
      ensures View() == if x.Some? then CloseStream(old(View()), x.value) else old(View())
    {
      if x.Some? {
        closes := closes + multiset{x.value};
      }
    }

    method CreateStream()
      modifies this
      ensures View() == WithNewStream(old(View()))
    {
      stream := Some(created);
      created := created + 1;
    }

    method BeginError(next: Then) returns (pc: Pc)
      modifies this
      ensures (View(), pc) == HandleError(old(View()), next)
    {
      SafeCloseStream(stream);
      stream := None;
      state := ErrorRebuild;
      pc := Await(KRebuild(0, next));
    }

    method ContinueRebuild(attempt: nat, next: Then, e: Event) returns (pc: Pc)
      modifies this
      ensures (View(), pc) == RebuildEnded(old(View()), attempt, next, e, hasRestart)
    {
      if e.Returned? {
        CreateStream();
        state := Active;
        pc := EndRebuild(next);
      } else if attempt + 1 < REBUILD_ATTEMPTS {
        pc := Await(KRebuild(attempt + 1, next));
      } else if hasRestart {
        workerOpEpoch := workerOpEpoch + 1;
        pc := Await(KRebuildRestart(next));
      } else {
        pc := Await(KRebuildPost(next));
      }
    }

    method EndRebuild(next: Then) returns (pc: Pc)
      modifies this
      ensures (View(), pc) == AfterRebuild(old(View()), next)
    {
      if next.ThenReturn? {
        return Return(next.out);
      }
      if stream.None? {
        state := Idle;
        return Return(Unavailable);
      }
      state := Active;
      pc := Return(Opened(generation));
    }

    method BeginCancel(after: After) returns (pc: Pc)
      modifies this
      ensures (View(), pc) == InnerCancel(old(View()), after)
    {
      if state == Idle {
        pc := CancelDone(after);
        return;
      }
      state := Cancelling;
      var cancelled := stream;
      stream := None;
      if cancelled.None? {
        state := Idle;
        pc := CancelDone(after);
        return;
      }
      pc := Await(KCancel(cancelled.value, workerOpEpoch, after));
    }

    method CancelDone(after: After) returns (pc: Pc)
      modifies this
      ensures (View(), pc) == EndCancel(old(View()), after)
    {
      if after.AfterCancel? {
        return Return(Plain);
      }
      generation := generation + 1;
      pc := Await(KCreate);
    }

    method LeaveCancel(x: nat, finished: bool, after: After) returns (pc: Pc)
      modifies this
      ensures (View(), pc) == FinishCancel(old(View()), x, finished, after)
    {
      if finished {
        SafeCloseStream(Some(x));
      } else {
        abandoned := abandoned + {x};
      }
      state := Idle;
      pc := CancelDone(after);
    }

    method ContinueCancel(x: nat, epoch: nat, after: After, e: Event) returns (pc: Pc)
      modifies this
      ensures (View(), pc) == CancelEnded(old(View()), KCancel(x, epoch, after), e, hasRestart)
    {
      if e.Returned? {
        pc := LeaveCancel(x, epoch == workerOpEpoch, after);
        return;
      }
      var finished := e.Raised?;
      if e.TimedOut? || e.protocol {
        if hasRestart {
          workerOpEpoch := workerOpEpoch + 1;
          return Await(KCancelRestart(x, finished, after));
        }
      }
      pc := LeaveCancel(x, finished, after);
    }

    method BeginFinalize() returns (pc: Pc)
      modifies this
      ensures (View(), pc) == Enter(old(View()), Finalize)
    {
      if state != Active {
        return Return(Final(generation, "", false, None));
      }
      var gen := generation;
      state := Finalizing;
      var epoch0 := abortEpoch;
      if stream.None? {
        state := Idle;
        return Return(Final(gen, "", false, None));
      }
      pc := Await(KFinalize(gen, epoch0));
    }

    method ContinueFinalize(gen: nat, epoch0: nat, e: Event) returns (pc: Pc)
      modifies this
      ensures (View(), pc) == FinalizeEnded(old(View()), gen, epoch0, e)
    {
      if !e.Returned? {
        pc := BeginError(ThenReturn(Final(gen, "", false, None)));
        return;
      }
      if abortEpoch != epoch0 || state != Finalizing || generation != gen {
        return Return(Final(gen, "", false, None));
      }
      SafeCloseStream(stream);
      stream := None;
      state := Idle;
      pc := Return(Final(gen, e.text, true, e.lang));
    }

    method BeginSpeech() returns (pc: Pc)
      modifies this
      ensures (View(), pc) == Enter(old(View()), SpeechStart)
    {
      if state in {Active, Finalizing} {
        pc := BeginCancel(AfterSpeech);
      } else {
        generation := generation + 1;
        pc := Await(KCreate);
      }
    }

    method ContinueSpeech(e: Event) returns (pc: Pc)
      modifies this
      ensures (View(), pc) == Resume(old(View()), KCreate, e, hasRestart)
    {
      if e.Returned? {
        CreateStream();
        state := Active;
        return Return(Opened(generation));
      }
      pc := BeginError(ThenSpeech);
    }

    method PublishLock(e: Event)
      modifies this
      ensures View() == EndRestart(old(View()), e)
    {
      if e.Returned? {
        workerOpLock := workerOpLock + 1;
      }
    }
  }

  function NewManager(): Manager { Manager(Idle, None, 0, 0, 0, 0, 0, multiset{}, {}) }

  // ------------------------------------------------------------------
  // Interleaving
  // ------------------------------------------------------------------

  datatype Happening = Preempted | Snapshot(gen: nat) | Accepted(gen: nat, text: string) | Discarded(gen: nat) | OpenedGen(gen: nat)

  datatype Holder = Holder(task: nat, k: Kont)

  /** A cancel call still queued for the worker mutex after its wait timed out. */
  datatype Orphan = Orphan(stream: nat, epoch: nat)

  /** `touched` counts cancels carried out by orphans; `snap` is where in `hist` the last
      finalize took its epoch snapshot. */
  datatype World = World(
    m: Manager, hasRestart: bool, holder: Option<Holder>, waiting: map<nat, Call>, results: map<nat, Outcome>,
    orphans: set<Orphan>, touched: multiset<nat>, hist: seq<Happening>, snap: nat)

  datatype Step =
    | Arrive(task: nat, call: Call)
    | Acquire(task: nat)
    | Progress(event: Event, started: bool)   // started: a timed-out cancel call was already running
    | OrphanRuns(orphan: Orphan)

  function Initial(hasRestart: bool): World {
    World(NewManager(), hasRestart, None, map[], map[], {}, multiset{}, [], 0)
  }

  predicate Known(w: World, t: nat) { t in w.waiting || t in w.results || (w.holder.Some? && w.holder.value.task == t) }

  function Settle(w: World, t: nat, r: (Manager, Pc), news: seq<Happening>): World {
    var w1 := w.(m := r.0, hist := w.hist + news);
    match r.1
    case Await(k) => w1.(holder := Some(Holder(t, k)))
    case Return(out) =>
      w1.(holder := None, results := w1.results[t := out], hist := w1.hist + if out.Opened? then [OpenedGen(out.gen)] else [])
  }

  /** What the history records when a finalize call takes its snapshot, commits or discards. */
  function NewsOf(k: Option<Kont>, e: Option<Event>, pc: Pc): seq<Happening> {
    if k.None? && pc.Await? && pc.k.KFinalize? then [Snapshot(pc.k.gen)]
    else if k.Some? && k.value.KFinalize? && e.Some? && e.value.Returned? && pc.Return? && pc.out.Final?
    then [if pc.out.accepted then Accepted(pc.out.gen, pc.out.text) else Discarded(pc.out.gen)]
    else []
  }

  function Next(w: World, step: Step): World {
    match step
    case Arrive(t, call) =>
      if Known(w, t) then w
      else
        var w1 := w.(waiting := w.waiting[t := call]);
        if call in {SpeechStart, Cancel}
        then w1.(m := w.m.(abortEpoch := w.m.abortEpoch + 1), hist := w.hist + [Preempted]) else w1
    case Acquire(t) =>
      if w.holder.Some? || t !in w.waiting then w
      else
        var r := Enter(w.m, w.waiting[t]);
        Settle(w.(waiting := w.waiting - {t}, snap := |w.hist|), t, r, NewsOf(None, None, r.1))
    case Progress(e, started) =>
      if w.holder.None? || !Possible(w.holder.value.k, e) then w
      else
        var k := w.holder.value.k;
        var r := Resume(w.m, k, e, w.hasRestart);
        var w1 := if e.TimedOut? && !started then w.(orphans := w.orphans + {Orphan(k.stream, k.epoch)}) else w;
        Settle(w1, w.holder.value.task, r, NewsOf(Some(k), Some(e), r.1))
    case OrphanRuns(o) =>
      if o !in w.orphans then w
      else
        w.(orphans := w.orphans - {o}, touched := if o.epoch == w.m.opEpoch then w.touched + multiset{o.stream} else w.touched)
  }

  function Run(w: World, steps: seq<Step>): World
    decreases |steps|
  {
    if steps == [] then w else Run(Next(w, steps[0]), steps[1..])
  }

  // ------------------------------------------------------------------
  // Where each stream is
  // ------------------------------------------------------------------

  predicate HeldBy(h: Option<Holder>, x: nat) {
    h.Some? && (h.value.k.KCancel? || h.value.k.KCancelRestart?) && h.value.k.stream == x
  }

  function Bit(b: bool): nat { if b then 1 else 0 }

  /** Current, in the hands of a running cancel, closed or abandoned: exactly one, and
      closed at most once. */
  ghost predicate FateOk(m: Manager, h: Option<Holder>, x: nat) {
    && m.closes[x] <= 1
    && Bit(m.stream == Some(x)) + Bit(HeldBy(h, x)) + m.closes[x] + Bit(x in m.abandoned) == Bit(x < m.created)
  }

  predicate ThenOk(next: Then) { next.ThenReturn? ==> !next.out.Opened? && (next.out.Final? ==> !next.out.accepted) }

  /** The state agrees with what the holder of the lock is doing. */
  ghost predicate StateOk(m: Manager, h: Option<Holder>) {
    match h
    case None => m.state in {Idle, Active, Finalizing} && (m.state == Idle <==> m.stream.None?)
    case Some(Holder(_, k)) =>
      match k
      case KCancel(_, epoch, _) => m.state == Cancelling && m.stream.None? && epoch == m.opEpoch
      case KCancelRestart(_, _, _) => m.state == Cancelling && m.stream.None?
      case KCreate => m.state == Idle && m.stream.None?
      case KAcceptCreate => m.state == Active && m.stream.None?
      case KFinalize(gen, _) => m.state == Finalizing && m.stream.Some? && gen == m.gen
      case KRebuild(_, next) => m.state == ErrorRebuild && m.stream.None? && ThenOk(next)
      case KRebuildRestart(next) => m.state == ErrorRebuild && m.stream.None? && ThenOk(next)
      case KRebuildPost(next) => m.state == ErrorRebuild && m.stream.None? && ThenOk(next)
      case _ => m.state == Active && m.stream.Some?
  }

  ghost predicate StreamsOk(w: World) {
    StateOk(w.m, w.holder) && forall x :: FateOk(w.m, w.holder, x)
  }

  ghost function HolderOf(t: nat, pc: Pc): Option<Holder> { if pc.Await? then Some(Holder(t, pc.k)) else None }

  lemma EnterKeepsStreams(m: Manager, call: Call, t: nat)
    requires StateOk(m, None) && forall x :: FateOk(m, None, x)
    ensures var (m1, pc) := Enter(m, call); StateOk(m1, HolderOf(t, pc)) && forall x :: FateOk(m1, HolderOf(t, pc), x)
  {
    var (m1, pc) := Enter(m, call);
    forall x ensures FateOk(m1, HolderOf(t, pc), x) {
      assert FateOk(m, None, x);
    }
  }

  lemma CancelKeepsState(m: Manager, x: nat, finished: bool, after: After, t: nat)
    requires m.stream.None?
    ensures var (m1, pc) := FinishCancel(m, x, finished, after); StateOk(m1, HolderOf(t, pc))
  {
  }

  lemma CancelKeepsFate(m: Manager, h: Holder, x: nat, finished: bool, after: After, t: nat, y: nat)
    requires m.stream.None? && FateOk(m, Some(h), y) && HeldBy(Some(h), y) == (x == y)
    ensures var (m1, pc) := FinishCancel(m, x, finished, after); FateOk(m1, HolderOf(t, pc), y)
  {
  }

  lemma ResumeKeepsState(m: Manager, h: Holder, e: Event, hasRestart: bool)
    requires StateOk(m, Some(h)) && Possible(h.k, e)
    ensures var (m1, pc) := Resume(m, h.k, e, hasRestart); StateOk(m1, HolderOf(h.task, pc))
  {
    match h.k {
      case KCancel(x, epoch, after) => forall b { CancelKeepsState(m, x, b, after, h.task); }
      case KCancelRestart(x, finished, after) => CancelKeepsState(EndRestart(m, e), x, finished, after, h.task);
      case KRebuild(attempt, next) =>
      case KRebuildPost(next) =>
      case KFinalize(gen, epoch) =>
      case _ =>
    }
  }

  lemma ResumeKeepsFate(m: Manager, h: Holder, e: Event, hasRestart: bool, y: nat)
    requires StateOk(m, Some(h)) && Possible(h.k, e) && FateOk(m, Some(h), y)
    ensures var (m1, pc) := Resume(m, h.k, e, hasRestart); FateOk(m1, HolderOf(h.task, pc), y)
  {
    match h.k {
      case KCancel(x, epoch, after) => forall b { CancelKeepsFate(m, h, x, b, after, h.task, y); }
      case KCancelRestart(x, finished, after) =>
        CancelKeepsFate(EndRestart(m, e), h, x, finished, after, h.task, y);
      case KRebuild(attempt, next) =>
      case KRebuildPost(next) =>
      case KFinalize(gen, epoch) =>
      case _ =>
    }
  }

  lemma StepKeepsStreams(w: World, step: Step)
    requires StreamsOk(w)
    ensures StreamsOk(Next(w, step))
  {
    match step {
      case Acquire(t) =>
        if w.holder.None? && t in w.waiting { EnterKeepsStreams(w.m, w.waiting[t], t); }
      case Progress(e, _) =>
        if w.holder.Some? && Possible(w.holder.value.k, e) {
          ResumeKeepsState(w.m, w.holder.value, e, w.hasRestart);
          forall x ensures FateOk(Next(w, step).m, Next(w, step).holder, x) {
            assert FateOk(w.m, w.holder, x);
            ResumeKeepsFate(w.m, w.holder.value, e, w.hasRestart, x);
          }
        }
      case Arrive(_, _) => assert forall x :: FateOk(w.m, w.holder, x) ==> FateOk(Next(w, step).m, w.holder, x);
      case OrphanRuns(_) =>
    }
  }

  // ------------------------------------------------------------------
  // Cancel calls that outlive their wait
  // ------------------------------------------------------------------

  ghost predicate OrphanOk(m: Manager, h: Option<Holder>, hasRestart: bool, o: Orphan) {
    && (hasRestart ==> o.epoch < m.opEpoch)
    && (o.stream in m.abandoned || (hasRestart && Abandoning(h, o.stream)))
  }

  predicate Abandoning(h: Option<Holder>, x: nat) {
    h.Some? && h.value.k.KCancelRestart? && h.value.k.stream == x && !h.value.k.finished
  }

  ghost predicate OrphansOk(w: World) {
    && (forall o :: o in w.orphans ==> OrphanOk(w.m, w.holder, w.hasRestart, o))
    && (w.hasRestart ==> w.touched == multiset{})
    && (forall x :: x in w.touched ==> x in w.m.abandoned)
    && (!w.hasRestart && w.holder.Some? ==> !w.holder.value.k.KCancelRestart?)
  }

  lemma EnterEffect(m: Manager, call: Call)
    ensures var (m1, pc) := Enter(m, call);
      m1.abandoned == m.abandoned && m1.opEpoch == m.opEpoch && (pc.Await? ==> !pc.k.KCancelRestart?)
  {
  }

  /** What a resumption does to the abandoned streams and the worker-op epoch. */
  lemma ResumeEffect(m: Manager, k: Kont, e: Event, hasRestart: bool)
    requires Possible(k, e)
    ensures var (m1, pc) := Resume(m, k, e, hasRestart);
      && m.abandoned <= m1.abandoned && m.opEpoch <= m1.opEpoch
      && (k.KCancelRestart? && !k.finished ==> k.stream in m1.abandoned)
      && (pc.Await? && pc.k.KCancelRestart? ==> hasRestart)
      && (e.TimedOut? ==> if hasRestart then m.opEpoch < m1.opEpoch && pc == Await(KCancelRestart(k.stream, false, k.after))
                          else k.stream in m1.abandoned)
  {
    match k {
      case KCancel(_, _, _) =>
      case KRebuild(_, _) =>
      case _ =>
    }
  }

  lemma ResumeKeepsOrphans(w: World, e: Event, started: bool)
    requires StreamsOk(w) && OrphansOk(w) && w.holder.Some? && Possible(w.holder.value.k, e)
    ensures OrphansOk(Next(w, Progress(e, started)))
  {
    var k := w.holder.value.k;
    ResumeEffect(w.m, k, e, w.hasRestart);
    var (m1, pc) := Resume(w.m, k, e, w.hasRestart);
    forall o | o in w.orphans ensures OrphanOk(m1, HolderOf(w.holder.value.task, pc), w.hasRestart, o) {
      assert OrphanOk(w.m, w.holder, w.hasRestart, o);
    }
  }

  lemma AcquireKeepsOrphans(w: World, t: nat)
    requires OrphansOk(w)
    ensures OrphansOk(Next(w, Acquire(t)))
  {
    if w.holder.None? && t in w.waiting {
      EnterEffect(w.m, w.waiting[t]);
      var w1 := Next(w, Acquire(t));
      assert w1.orphans == w.orphans && w1.touched == w.touched && w1.m.abandoned == w.m.abandoned && w1.m.opEpoch == w.m.opEpoch;
      forall o | o in w1.orphans ensures OrphanOk(w1.m, w1.holder, w.hasRestart, o) {
        assert OrphanOk(w.m, w.holder, w.hasRestart, o);
      }
    }
  }

  lemma OtherStepsKeepOrphans(w: World, step: Step)
    requires OrphansOk(w) && (step.Arrive? || step.OrphanRuns?)
    ensures OrphansOk(Next(w, step))
  {
    var w1 := Next(w, step);
    forall o | o in w1.orphans ensures OrphanOk(w1.m, w1.holder, w.hasRestart, o) {
      assert OrphanOk(w.m, w.holder, w.hasRestart, o);
    }
    if step.OrphanRuns? && step.orphan in w.orphans {
      assert OrphanOk(w.m, w.holder, w.hasRestart, step.orphan);
    }
  }

  lemma StepKeepsOrphans(w: World, step: Step)
    requires StreamsOk(w) && OrphansOk(w)
    ensures OrphansOk(Next(w, step)) && Next(w, step).hasRestart == w.hasRestart
  {
    match step {
      case Acquire(t) => AcquireKeepsOrphans(w, t);
      case Progress(e, started) =>
        if w.holder.Some? && Possible(w.holder.value.k, e) { ResumeKeepsOrphans(w, e, started); }
      case _ => OtherStepsKeepOrphans(w, step);
    }
  }

  lemma InitialOk(hasRestart: bool)
    ensures StreamsOk(Initial(hasRestart)) && OrphansOk(Initial(hasRestart))
  {
    assert forall x :: FateOk(NewManager(), None, x);
  }

  lemma {:induction false} RunKeepsStreams(w: World, steps: seq<Step>)
    requires StreamsOk(w) && OrphansOk(w)
    ensures StreamsOk(Run(w, steps)) && OrphansOk(Run(w, steps)) && Run(w, steps).hasRestart == w.hasRestart
    decreases |steps|
  {
    if steps != [] {
      StepKeepsStreams(w, steps[0]);
      StepKeepsOrphans(w, steps[0]);
      RunKeepsStreams(Next(w, steps[0]), steps[1..]);
    }
  }

  /** Whenever the lock is free, every stream ever created is exactly one of current, closed
      exactly once, or abandoned; and no stream is current exactly in IDLE. */
  lemma EveryStreamHasOneFate(hasRestart: bool, steps: seq<Step>)
    ensures var w := Run(Initial(hasRestart), steps);
      w.holder.None? ==>
        && (w.m.state == Idle <==> w.m.stream.None?)
        && forall x :: 0 <= x < w.m.created ==>
             && w.m.closes[x] <= 1
             && Bit(w.m.stream == Some(x)) + w.m.closes[x] + Bit(x in w.m.abandoned) == 1
  {
    InitialOk(hasRestart);
    RunKeepsStreams(Initial(hasRestart), steps);
    var w := Run(Initial(hasRestart), steps);
    if w.holder.None? {
      forall x: nat | x < w.m.created
        ensures w.m.closes[x] <= 1 && Bit(w.m.stream == Some(x)) + w.m.closes[x] + Bit(x in w.m.abandoned) == 1
      {
        assert FateOk(w.m, w.holder, x);
      }
    }
  }

  /** A cancel call that gets the worker mutex after its wait timed out does nothing when the
      backend can be restarted, and in any case never touches the current stream. */
  lemma LateCancelIsHarmless(hasRestart: bool, steps: seq<Step>)
    ensures var w := Run(Initial(hasRestart), steps);
      && (hasRestart ==> w.touched == multiset{})
      && forall x :: x in w.touched ==> x in w.m.abandoned && w.m.stream != Some(x)
  {
    InitialOk(hasRestart);
    RunKeepsStreams(Initial(hasRestart), steps);
    var w := Run(Initial(hasRestart), steps);
    forall x | x in w.touched ensures x in w.m.abandoned && w.m.stream != Some(x) {
      assert FateOk(w.m, w.holder, x);
    }
  }

  // ------------------------------------------------------------------
  // Generations and accepted finals
  // ------------------------------------------------------------------

  ghost predicate Clean(h: seq<Happening>, i: nat, j: nat) {
    forall n :: i < n < j <= |h| ==> h[n] != Preempted
  }

  ghost predicate SnapshotFor(h: seq<Happening>, i: nat, j: nat)
    requires j < |h| && (h[j].Accepted? || h[j].Discarded?)
  {
    i < j && h[i] == Snapshot(h[j].gen) && (h[j].Accepted? <==> Clean(h, i, j))
  }

  /** A finished finalize is accepted if and only if no cancel and no speech start came
      between its epoch snapshot and its commit. */
  ghost predicate CommitsOk(h: seq<Happening>) {
    forall j :: 0 <= j < |h| && (h[j].Accepted? || h[j].Discarded?) ==> exists i :: 0 <= i < j && SnapshotFor(h, i, j)
  }

  ghost predicate EpochOk(w: World) {
    w.holder.Some? && w.holder.value.k.KFinalize? ==>
      && w.holder.value.k.epoch <= w.m.abortEpoch
      && w.snap < |w.hist| && w.hist[w.snap] == Snapshot(w.holder.value.k.gen)
      && (w.holder.value.k.epoch == w.m.abortEpoch <==> Clean(w.hist, w.snap, |w.hist|))
  }

  lemma CleanPrefix(h: seq<Happening>, x: Happening, i: nat, j: nat)
    requires j <= |h|
    ensures Clean(h + [x], i, j) == Clean(h, i, j)
  {
    assert forall n :: 0 <= n < |h| ==> (h + [x])[n] == h[n];
    if Clean(h + [x], i, j) {
      forall n | i < n < j <= |h| ensures h[n] != Preempted { assert (h + [x])[n] != Preempted; }
    }
  }

  lemma AppendQuiet(h: seq<Happening>, x: Happening)
    requires CommitsOk(h) && !x.Accepted? && !x.Discarded?
    ensures CommitsOk(h + [x])
  {
    var h1 := h + [x];
    forall j | 0 <= j < |h1| && (h1[j].Accepted? || h1[j].Discarded?) ensures exists i :: 0 <= i < j && SnapshotFor(h1, i, j) {
      var i :| 0 <= i < j && SnapshotFor(h, i, j);
      CleanPrefix(h, x, i, j);
      assert SnapshotFor(h1, i, j);
    }
  }

  lemma AppendCommit(h: seq<Happening>, x: Happening, i: nat)
    requires CommitsOk(h) && (x.Accepted? || x.Discarded?)
    requires i < |h| && h[i] == Snapshot(x.gen) && (x.Accepted? <==> Clean(h, i, |h|))
    ensures CommitsOk(h + [x])
  {
    var h1 := h + [x];
    CleanPrefix(h, x, i, |h|);
    forall j | 0 <= j < |h1| && (h1[j].Accepted? || h1[j].Discarded?) ensures exists i :: 0 <= i < j && SnapshotFor(h1, i, j) {
      if j < |h| {
        var i0 :| 0 <= i0 < j && SnapshotFor(h, i0, j);
        CleanPrefix(h, x, i0, j);
        assert SnapshotFor(h1, i0, j);
      } else {
        assert SnapshotFor(h1, i, j);
      }
    }
  }

  /** What a resumption can report, and when. */
  lemma ResumeNews(m: Manager, h: Holder, e: Event, hasRestart: bool)
    requires StateOk(m, Some(h)) && Possible(h.k, e)
    ensures var (m1, pc) := Resume(m, h.k, e, hasRestart);
      && (pc.Await? ==> !pc.k.KFinalize?) && m1.abortEpoch == m.abortEpoch
      && (h.k.KFinalize? && e.Returned? ==>
            pc.Return? && pc.out.Final? && pc.out.gen == h.k.gen && (pc.out.accepted <==> h.k.epoch == m.abortEpoch))
  {
    match h.k {
      case KCancel(_, _, _) =>
      case KRebuild(_, _) =>
      case KFinalize(_, _) =>
      case _ =>
    }
  }

  lemma ArriveKeepsCommits(w: World, t: nat, call: Call)
    requires StreamsOk(w) && EpochOk(w) && CommitsOk(w.hist)
    ensures EpochOk(Next(w, Arrive(t, call))) && CommitsOk(Next(w, Arrive(t, call)).hist)
  {
    var w1 := Next(w, Arrive(t, call));
    if !Known(w, t) && call in {SpeechStart, Cancel} {
      AppendQuiet(w.hist, Preempted);
      if w.holder.Some? && w.holder.value.k.KFinalize? {
        assert w1.hist[|w.hist|] == Preempted && !Clean(w1.hist, w.snap, |w1.hist|);
      }
    }
  }

  lemma AcquireKeepsCommits(w: World, t: nat)
    requires StreamsOk(w) && EpochOk(w) && CommitsOk(w.hist)
    ensures EpochOk(Next(w, Acquire(t))) && CommitsOk(Next(w, Acquire(t)).hist)
  {
    var w1 := Next(w, Acquire(t));
    if w.holder.None? && t in w.waiting {
      var (m1, pc) := Enter(w.m, w.waiting[t]);
      assert !(pc.Return? && pc.out.Opened?);
      if pc.Await? && pc.k.KFinalize? {
        AppendQuiet(w.hist, Snapshot(pc.k.gen));
      } else {
        assert w1.hist == w.hist;
      }
    }
  }

  lemma ProgressKeepsCommits(w: World, e: Event, started: bool)
    requires StreamsOk(w) && EpochOk(w) && CommitsOk(w.hist)
    ensures EpochOk(Next(w, Progress(e, started))) && CommitsOk(Next(w, Progress(e, started)).hist)
  {
    var w1 := Next(w, Progress(e, started));
    if w.holder.Some? && Possible(w.holder.value.k, e) {
      var k := w.holder.value.k;
      ResumeNews(w.m, w.holder.value, e, w.hasRestart);
      var (m1, pc) := Resume(w.m, k, e, w.hasRestart);
      if k.KFinalize? && e.Returned? {
        AppendCommit(w.hist, NewsOf(Some(k), Some(e), pc)[0], w.snap);
        assert w1.hist == w.hist + NewsOf(Some(k), Some(e), pc);
      } else if pc.Return? && pc.out.Opened? {
        AppendQuiet(w.hist, OpenedGen(pc.out.gen));
        assert w1.hist == w.hist + [OpenedGen(pc.out.gen)];
      } else {
        assert w1.hist == w.hist;
      }
    }
  }

  lemma StepKeepsCommits(w: World, step: Step)
    requires StreamsOk(w) && EpochOk(w) && CommitsOk(w.hist)
    ensures EpochOk(Next(w, step)) && CommitsOk(Next(w, step).hist)
  {
    match step {
      case Arrive(t, call) => ArriveKeepsCommits(w, t, call);
      case Acquire(t) => AcquireKeepsCommits(w, t);
      case Progress(e, started) => ProgressKeepsCommits(w, e, started);
      case OrphanRuns(_) =>
    }
  }

  /** Over every run, whatever arrives: a finalize whose worker call returned is accepted
      exactly when nothing preempted it since its snapshot. */
  lemma {:induction false} RunKeepsCommits(w: World, steps: seq<Step>)
    requires StreamsOk(w) && EpochOk(w) && CommitsOk(w.hist)
    ensures EpochOk(Run(w, steps)) && CommitsOk(Run(w, steps).hist)
    decreases |steps|
  {
    if steps != [] {
      StepKeepsStreams(w, steps[0]);
      StepKeepsCommits(w, steps[0]);
      RunKeepsCommits(Next(w, steps[0]), steps[1..]);
    }
  }

  lemma AcceptedMeansNotPreempted(hasRestart: bool, steps: seq<Step>)
    ensures CommitsOk(Run(Initial(hasRestart), steps).hist)
  {
    InitialOk(hasRestart);
    RunKeepsCommits(Initial(hasRestart), steps);
  }

  // ------------------------------------------------------------------
  // Generations
  // ------------------------------------------------------------------

  ghost predicate AcceptedBelow(h: seq<Happening>, g: int) {
    forall i :: 0 <= i < |h| && h[i].Accepted? ==> h[i].gen < g
  }

  ghost predicate OpenedBelow(h: seq<Happening>, g: int) {
    forall i :: 0 <= i < |h| && h[i].OpenedGen? ==> h[i].gen < g
  }

  /** Generations returned by speech starts increase, and so do those of accepted finals. */
  ghost predicate GensIncrease(h: seq<Happening>) {
    && (forall i, j :: 0 <= i < j < |h| && h[i].OpenedGen? && h[j].OpenedGen? ==> h[i].gen < h[j].gen)
    && (forall i, j :: 0 <= i < j < |h| && h[i].Accepted? && h[j].Accepted? ==> h[i].gen < h[j].gen)
  }

  /** A generation is in use: nothing of it has been accepted yet. */
  predicate InUse(m: Manager, h: Option<Holder>) { m.state != Idle || (h.Some? && h.value.k.KCreate?) }

  predicate Opening(h: Option<Holder>) {
    h.Some? && match h.value.k
      case KCreate => true
      case KRebuild(_, next) => next.ThenSpeech?
      case KRebuildRestart(next) => next.ThenSpeech?
      case KRebuildPost(next) => next.ThenSpeech?
      case _ => false
  }

  ghost predicate BoundsOk(m: Manager, h: Option<Holder>, hist: seq<Happening>) {
    && AcceptedBelow(hist, if InUse(m, h) then m.gen else m.gen + 1)
    && OpenedBelow(hist, if Opening(h) then m.gen else m.gen + 1)
  }

  ghost predicate GensOk(w: World) {
    GensIncrease(w.hist) && BoundsOk(w.m, w.holder, w.hist)
  }

  ghost predicate AcceptedGen(h: seq<Happening>, g: nat) { exists i :: 0 <= i < |h| && h[i].Accepted? && h[i].gen == g }

  /** A `mark_error` obtains the lock in IDLE, after the current generation had its final. */
  ghost predicate Remarks(w: World, step: Step) {
    && step.Acquire? && w.holder.None? && step.task in w.waiting && w.waiting[step.task] == MarkError
    && w.m.state == Idle && AcceptedGen(w.hist, w.m.gen)
  }

  lemma EnterKeepsBounds(m: Manager, call: Call, t: nat, hist: seq<Happening>)
    requires StateOk(m, None) && BoundsOk(m, None, hist)
    requires call == MarkError && m.state == Idle ==> !AcceptedGen(hist, m.gen)
    ensures var (m1, pc) := Enter(m, call);
      BoundsOk(m1, HolderOf(t, pc), hist) && !(pc.Return? && pc.out.Opened?)
  {
  }

  /** Before and after a resumption, with what it reports. */
  lemma ResumeKeepsBounds(m: Manager, h: Holder, e: Event, hasRestart: bool, hist: seq<Happening>)
    requires StateOk(m, Some(h)) && Possible(h.k, e) && BoundsOk(m, Some(h), hist)
    ensures var (m1, pc) := Resume(m, h.k, e, hasRestart);
      && m.gen <= m1.gen
      && BoundsOk(m1, HolderOf(h.task, pc), hist)
      && (pc.Return? && pc.out.Opened? ==> pc.out.gen == m1.gen && OpenedBelow(hist, m1.gen))
      && (h.k.KFinalize? && pc.Return? && pc.out.Final? && pc.out.accepted ==>
            pc.out.gen == m1.gen == m.gen && AcceptedBelow(hist, m.gen) && m1.state == Idle)
  {
    match h.k {
      case KCancel(_, _, _) =>
      case KCancelRestart(_, _, _) =>
      case KRebuild(_, _) =>
      case KRebuildPost(_) =>
      case KFinalize(_, _) =>
      case _ =>
    }
  }

  lemma AppendGen(h: seq<Happening>, x: Happening)
    requires GensIncrease(h) && (x.OpenedGen? ==> OpenedBelow(h, x.gen)) && (x.Accepted? ==> AcceptedBelow(h, x.gen))
    ensures GensIncrease(h + [x])
  {
  }

  lemma AcquireKeepsGens(w: World, t: nat)
    requires StreamsOk(w) && GensOk(w) && w.holder.None? && t in w.waiting && !Remarks(w, Acquire(t))
    ensures GensOk(Next(w, Acquire(t))) && w.m.gen <= Next(w, Acquire(t)).m.gen
  {
    EnterKeepsBounds(w.m, w.waiting[t], t, w.hist);
    var (m1, pc) := Enter(w.m, w.waiting[t]);
    var w1 := Next(w, Acquire(t));
    if pc.Await? && pc.k.KFinalize? {
      AppendGen(w.hist, Snapshot(pc.k.gen));
      assert w1.hist == w.hist + [Snapshot(pc.k.gen)];
    } else {
      assert w1.hist == w.hist;
    }
  }

  lemma ProgressHist(w: World, e: Event, started: bool)
    requires w.holder.Some? && Possible(w.holder.value.k, e)
    ensures var (k, w1) := (w.holder.value.k, Next(w, Progress(e, started)));
      var (m1, pc) := Resume(w.m, k, e, w.hasRestart);
      && w1.m == m1
      && w1.holder == HolderOf(w.holder.value.task, pc)
      && w1.hist == w.hist + NewsOf(Some(k), Some(e), pc) + (if pc.Return? && pc.out.Opened? then [OpenedGen(pc.out.gen)] else [])
  {
    var pc := Resume(w.m, w.holder.value.k, e, w.hasRestart).1;
    if pc.Await? { assert w.hist + NewsOf(Some(w.holder.value.k), Some(e), pc) + [] == w.hist + NewsOf(Some(w.holder.value.k), Some(e), pc); }
  }

  lemma ProgressGensIncrease(w: World, e: Event, h1: seq<Happening>)
    requires StreamsOk(w) && GensOk(w) && w.holder.Some? && Possible(w.holder.value.k, e)
    requires var (k, pc) := (w.holder.value.k, Resume(w.m, w.holder.value.k, e, w.hasRestart).1);
      h1 == w.hist + NewsOf(Some(k), Some(e), pc) + (if pc.Return? && pc.out.Opened? then [OpenedGen(pc.out.gen)] else [])
    ensures GensIncrease(h1)
    ensures var (m1, pc) := Resume(w.m, w.holder.value.k, e, w.hasRestart);
      w.m.gen <= m1.gen && BoundsOk(m1, HolderOf(w.holder.value.task, pc), h1)
  {
    var k := w.holder.value.k;
    var pc := Resume(w.m, k, e, w.hasRestart).1;
    ResumeKeepsBounds(w.m, w.holder.value, e, w.hasRestart, w.hist);
    ResumeNews(w.m, w.holder.value, e, w.hasRestart);
    var news := NewsOf(Some(k), Some(e), pc);
    if news != [] {
      AppendGen(w.hist, news[0]);
      assert h1 == w.hist + [news[0]];
    } else if pc.Return? && pc.out.Opened? {
      AppendGen(w.hist, OpenedGen(pc.out.gen));
      assert h1 == w.hist + [OpenedGen(pc.out.gen)];
    } else {
      assert h1 == w.hist;
    }
  }

  lemma ProgressKeepsGens(w: World, e: Event, started: bool)
    requires StreamsOk(w) && GensOk(w) && w.holder.Some? && Possible(w.holder.value.k, e)
    ensures GensOk(Next(w, Progress(e, started))) && w.m.gen <= Next(w, Progress(e, started)).m.gen
  {
    ProgressHist(w, e, started);
    ProgressGensIncrease(w, e, Next(w, Progress(e, started)).hist);
  }

  lemma StepKeepsGens(w: World, step: Step)
    requires StreamsOk(w) && GensOk(w) && !Remarks(w, step)
    ensures GensOk(Next(w, step)) && w.m.gen <= Next(w, step).m.gen
  {
    match step {
      case Acquire(t) => if w.holder.None? && t in w.waiting { AcquireKeepsGens(w, t); }
      case Progress(e, started) =>
        if w.holder.Some? && Possible(w.holder.value.k, e) { ProgressKeepsGens(w, e, started); }
      case Arrive(t, call) =>
        if !Known(w, t) && call in {SpeechStart, Cancel} { AppendGen(w.hist, Preempted); }
      case OrphanRuns(_) =>
    }
  }

  ghost predicate NeverRemarks(w: World, steps: seq<Step>)
    decreases |steps|
  {
    steps != [] ==> !Remarks(w, steps[0]) && NeverRemarks(Next(w, steps[0]), steps[1..])
  }

  lemma {:induction false} RunKeepsGens(w: World, steps: seq<Step>)
    requires StreamsOk(w) && GensOk(w) && NeverRemarks(w, steps)
    ensures GensOk(Run(w, steps))
    decreases |steps|
  {
    if steps != [] {
      StepKeepsStreams(w, steps[0]);
      StepKeepsGens(w, steps[0]);
      RunKeepsGens(Next(w, steps[0]), steps[1..]);
    }
  }

  /** Over every run in which no `mark_error` is served in IDLE for a generation that had its
      final, the generations handed out strictly increase and each has at most one accepted
      finalize. */
  lemma OneAcceptedFinalPerGeneration(hasRestart: bool, steps: seq<Step>)
    requires NeverRemarks(Initial(hasRestart), steps)
    ensures GensIncrease(Run(Initial(hasRestart), steps).hist)
  {
    InitialOk(hasRestart);
    RunKeepsGens(Initial(hasRestart), steps);
  }

  lemma RunOneMore(w: World, steps: seq<Step>, step: Step)
    ensures Run(w, steps + [step]) == Next(Run(w, steps), step)
    decreases |steps|
  {
    if steps == [] {
      assert [step][1..] == [];
    } else {
      assert (steps + [step])[1..] == steps[1..] + [step];
      RunOneMore(Next(w, steps[0]), steps[1..], step);
    }
  }

  lemma {:induction false} StillNeverRemarks(w: World, steps: seq<Step>, step: Step)
    requires NeverRemarks(w, steps) && !Remarks(Run(w, steps), step)
    ensures NeverRemarks(w, steps + [step])
    decreases |steps|
  {
    if steps == [] {
      assert [step][1..] == [];
    } else {
      assert (steps + [step])[1..] == steps[1..] + [step];
      StillNeverRemarks(Next(w, steps[0]), steps[1..], step);
    }
  }

  /** One more step of a run, with where it leads. */
  lemma Extend(w0: World, steps: seq<Step>, step: Step) returns (steps1: seq<Step>, w: World)
    ensures steps1 == steps + [step] && w == Run(w0, steps1) == Next(Run(w0, steps), step)
    ensures NeverRemarks(w0, steps) && !Remarks(Run(w0, steps), step) ==> NeverRemarks(w0, steps1)
  {
    RunOneMore(w0, steps, step);
    if NeverRemarks(w0, steps) && !Remarks(Run(w0, steps), step) { StillNeverRemarks(w0, steps, step); }
    steps1, w := steps + [step], Run(w0, steps + [step]);
  }

  lemma FinalizeOnce(w0: World, steps: seq<Step>, t: nat, text: string) returns (steps1: seq<Step>)
    requires var w := Run(w0, steps);
      w.m.state == Active && w.m.stream.Some? && w.holder.None? && !Known(w, t)
    ensures var (w, w1) := (Run(w0, steps), Run(w0, steps1));
      && w1.hist == w.hist + [Snapshot(w.m.gen), Accepted(w.m.gen, text)] && w1.m.gen == w.m.gen
      && w1.m.stream.None? && w1.holder.None? && w1.waiting == w.waiting && w1.results.Keys == w.results.Keys + {t}
      && w1.hasRestart == w.hasRestart
    ensures NeverRemarks(w0, steps) ==> NeverRemarks(w0, steps1)
  {
    var w := Run(w0, steps);
    var s1, a := Extend(w0, steps, Arrive(t, Finalize));
    var s2, b := Extend(w0, s1, Acquire(t));
    assert b.holder == Some(Holder(t, KFinalize(w.m.gen, w.m.abortEpoch))) && b.hist == w.hist + [Snapshot(w.m.gen)];
    var s3, c := Extend(w0, s2, Progress(Returned(text, None), false));
    assert c.hist == w.hist + [Snapshot(w.m.gen), Accepted(w.m.gen, text)];
    steps1 := s3;
  }

  lemma FreshTask(w: World) returns (u: nat)
    ensures !Known(w, u)
  {
    var known := w.waiting.Keys + w.results.Keys + if w.holder.Some? then {w.holder.value.task} else {};
    u := Above(known);
  }

  lemma {:induction false} Above(s: set<nat>) returns (u: nat)
    ensures forall x :: x in s ==> x < u
    decreases |s|
  {
    u := 0;
    if s != {} {
      var x :| x in s;
      var v := Above(s - {x});
      u := v + x + 1;
      assert forall y :: y in s ==> y == x || y in s - {x};
    }
  }

  /** The condition cannot be dropped: after such a `mark_error` the same generation can be
      accepted again, with no further one. */
  lemma RemarkBreaksIt(w: World, t: nat) returns (steps: seq<Step>)
    requires StreamsOk(w) && Remarks(w, Acquire(t))
    ensures NeverRemarks(Next(w, Acquire(t)), steps) && !GensIncrease(Run(Next(w, Acquire(t)), steps).hist)
  {
    var a := Next(w, Acquire(t));
    assert a.holder == Some(Holder(t, KRebuild(0, ThenReturn(Plain)))) && a.hist == w.hist;
    var s1, b := Extend(a, [], Progress(Returned("", None), false));
    assert b.m.state == Active && b.m.gen == w.m.gen && b.holder.None? && b.hist == w.hist;
    var u := FreshTask(b);
    steps := FinalizeOnce(a, s1, u, "");
    var i :| 0 <= i < |w.hist| && w.hist[i].Accepted? && w.hist[i].gen == w.m.gen;
    var h := Run(a, steps).hist;
    assert h[i].gen == h[|w.hist| + 1].gen;
  }

  /** In any state that a run without such steps reaches: a step is one exactly when it opens
      the way to a generation accepted twice. */
  lemma BreaksExactlyWhenRemarks(w: World, step: Step)
    requires StreamsOk(w) && GensOk(w)
    ensures (exists steps :: NeverRemarks(Next(w, step), steps) && !GensIncrease(Run(Next(w, step), steps).hist)) <==> Remarks(w, step)
  {
    if Remarks(w, step) {
      var steps := RemarkBreaksIt(w, step.task);
    } else {
      StepKeepsStreams(w, step);
      StepKeepsGens(w, step);
      forall steps | NeverRemarks(Next(w, step), steps) ensures GensIncrease(Run(Next(w, step), steps).hist) {
        RunKeepsGens(Next(w, step), steps);
      }
    }
  }

  lemma AcceptedThenMarked() returns (steps: seq<Step>)
    ensures var w := Run(Initial(true), steps);
      && w.hist == [Preempted, OpenedGen(1), Snapshot(1), Accepted(1, "a")] && w.m.gen == 1 && w.m.stream.None?
      && w.holder.None? && w.waiting == map[2 := MarkError] && w.results.Keys == {0, 1}
  {
    var w0 := Initial(true);
    var s1, a := Extend(w0, [], Arrive(0, SpeechStart));
    var s2, b := Extend(w0, s1, Acquire(0));
    assert b.holder == Some(Holder(0, KCreate));
    var s3, c := Extend(w0, s2, Progress(Returned("", None), false));
    assert c.hist == [Preempted, OpenedGen(1)] && c.results.Keys == {0} && c.waiting == map[];
    var s4 := FinalizeOnce(w0, s3, 1, "a");
    var s5, d := Extend(w0, s4, Arrive(2, MarkError));
    steps := s5;
  }

  lemma RunSplits(w: World, a: seq<Step>, b: seq<Step>)
    ensures Run(w, a + b) == Run(Run(w, a), b)
    decreases |a|
  {
    if a == [] {
      assert a + b == b;
    } else {
      assert (a + b)[1..] == a[1..] + b;
      RunSplits(Next(w, a[0]), a[1..], b);
    }
  }

  /** A run with `mark_error` in which generation 1 is accepted twice. */
  lemma MarkErrorAcceptsTwice() returns (steps: seq<Step>)
    ensures !GensIncrease(Run(Initial(true), steps).hist)
  {
    var s1 := AcceptedThenMarked();
    InitialOk(true);
    RunKeepsStreams(Initial(true), s1);
    var w := Run(Initial(true), s1);
    assert w.hist[3].Accepted? && Remarks(w, Acquire(2));
    var s2 := RemarkBreaksIt(w, 2);
    RunOneMore(Initial(true), s1, Acquire(2));
    RunSplits(Initial(true), s1 + [Acquire(2)], s2);
    steps := s1 + [Acquire(2)] + s2;
  }

  // ------------------------------------------------------------------
  // The rebuild ladder
  // ------------------------------------------------------------------

  /** What must have been awaited, and failed, just before: three creates one after the other,
      then the restart if the backend has one (however it ends), then one more create. */
  predicate Precedes(k: Kont, k1: Kont, hasRestart: bool) {
    match k1
    case KRebuild(attempt, next) => attempt == 0 || k == KRebuild(attempt - 1, next)
    case KRebuildRestart(next) => hasRestart && k == KRebuild(2, next)
    case KRebuildPost(next) => k == if hasRestart then KRebuildRestart(next) else KRebuild(2, next)
    case _ => true
  }

  predicate Upper(k: Kont) { (k.KRebuild? && k.attempt > 0) || k.KRebuildRestart? || k.KRebuildPost? }

  predicate RungOk(k: Kont, hasRestart: bool) {
    (k.KRebuild? ==> k.attempt < REBUILD_ATTEMPTS) && (k.KRebuildRestart? ==> hasRestart)
  }

  predicate RungsOk(w: World) { w.holder.Some? ==> RungOk(w.holder.value.k, w.hasRestart) }

  lemma LadderNotEntered(m: Manager, call: Call, hasRestart: bool)
    ensures var pc := Enter(m, call).1; pc.Await? ==> !Upper(pc.k) && RungOk(pc.k, hasRestart)
  {
  }

  lemma LadderResumes(m: Manager, k: Kont, e: Event, hasRestart: bool)
    requires Possible(k, e) && RungOk(k, hasRestart)
    ensures var pc := Resume(m, k, e, hasRestart).1; pc.Await? ==> RungOk(pc.k, hasRestart) && (Upper(pc.k) ==> Precedes(k, pc.k, hasRestart))
    ensures var pc := Resume(m, k, e, hasRestart).1; pc.Await? && Upper(pc.k) && k.KRebuild? ==> !e.Returned?
  {
    match k {
      case KCancel(_, _, _) =>
      case KRebuild(_, _) =>
      case _ =>
    }
  }

  lemma StepClimbs(w: World, step: Step)
    requires RungsOk(w)
    ensures RungsOk(Next(w, step))
    ensures var h1 := Next(w, step).holder;
      h1.Some? && h1 != w.holder && Upper(h1.value.k) ==>
        w.holder.Some? && w.holder.value.task == h1.value.task && Precedes(w.holder.value.k, h1.value.k, w.hasRestart)
  {
    match step {
      case Acquire(t) => if w.holder.None? && t in w.waiting { LadderNotEntered(w.m, w.waiting[t], w.hasRestart); }
      case Progress(e, started) =>
        if w.holder.Some? && Possible(w.holder.value.k, e) { LadderResumes(w.m, w.holder.value.k, e, w.hasRestart); }
      case _ =>
    }
  }

  lemma {:induction false} RunClimbs(w: World, steps: seq<Step>)
    requires RungsOk(w)
    ensures RungsOk(Run(w, steps))
    decreases |steps|
  {
    if steps != [] {
      StepClimbs(w, steps[0]);
      RunClimbs(Next(w, steps[0]), steps[1..]);
    }
  }

  /** Over every run the ladder is climbed rung by rung by one caller: whatever step brings it to
      a further create or to the restart comes right after what must precede it. */
  lemma LadderInOrder(hasRestart: bool, steps: seq<Step>, step: Step)
    ensures var w := Run(Initial(hasRestart), steps);
      var h1 := Next(w, step).holder;
      h1.Some? && h1 != w.holder && Upper(h1.value.k) ==>
        w.holder.Some? && w.holder.value.task == h1.value.task && Precedes(w.holder.value.k, h1.value.k, w.hasRestart)
  {
    RunClimbs(Initial(hasRestart), steps);
    StepClimbs(Run(Initial(hasRestart), steps), step);
  }

  /** A ladder on which everything fails: three creates, the restart if there is one, one create,
      and IDLE without a stream; a caller that wanted an utterance is told. */
  lemma LadderExhausted(m: Manager, hasRestart: bool, next: Then)
    requires m.state == ErrorRebuild && m.stream.None?
    ensures var fail := Raised(false);
      && Resume(m, KRebuild(0, next), fail, hasRestart) == (m, Await(KRebuild(1, next)))
      && Resume(m, KRebuild(1, next), fail, hasRestart) == (m, Await(KRebuild(2, next)))
      && var m1 := if hasRestart then m.(opEpoch := m.opEpoch + 1) else m;
      && Resume(m, KRebuild(2, next), fail, hasRestart)
         == (m1, Await(if hasRestart then KRebuildRestart(next) else KRebuildPost(next)))
      && (hasRestart ==> Resume(m1, KRebuildRestart(next), fail, hasRestart) == (m1, Await(KRebuildPost(next))))
      && Resume(m1, KRebuildPost(next), fail, hasRestart)
         == (m1.(state := Idle), Return(if next.ThenSpeech? then Unavailable else next.out))
  {
  }

  // ------------------------------------------------------------------
  // What the outcome of a call means
  // ------------------------------------------------------------------

  /** An opened utterance is active with a stream, of the generation it is told; an unavailable
      one left nothing behind; an accepted final left the manager idle, and one that was not
      accepted has no text. */
  ghost predicate OutcomeMeans(m: Manager, out: Outcome) {
    match out
    case Opened(gen) => m.state == Active && m.stream.Some? && gen == m.gen
    case Unavailable => m.state == Idle && m.stream.None?
    case Final(gen, text, accepted, lang) =>
      if accepted then m.state == Idle && m.stream.None? && gen == m.gen else text == "" && lang.None?
    case Plain => true
  }

  predicate Rejection(out: Outcome) { out.Plain? || (out.Final? && !out.accepted && out.text == "" && out.lang.None?) }

  /** What a rebuild is to return later rejects with no text. */
  predicate NextOk(k: Kont) {
    match k
    case KRebuild(_, next) => next.ThenReturn? ==> Rejection(next.out)
    case KRebuildRestart(next) => next.ThenReturn? ==> Rejection(next.out)
    case KRebuildPost(next) => next.ThenReturn? ==> Rejection(next.out)
    case _ => true
  }

  lemma EnterMeans(m: Manager, call: Call)
    requires StateOk(m, None)
    ensures var (m1, pc) := Enter(m, call); if pc.Return? then OutcomeMeans(m1, pc.out) else NextOk(pc.k)
    ensures var (m1, pc) := Enter(m, call); call == Cancel && pc.Return? ==> m1.state == Idle && m1.stream.None?
  {
  }

  lemma ResumeMeans(m: Manager, h: Holder, e: Event, hasRestart: bool)
    requires StateOk(m, Some(h)) && Possible(h.k, e) && NextOk(h.k)
    ensures var (m1, pc) := Resume(m, h.k, e, hasRestart); if pc.Return? then OutcomeMeans(m1, pc.out) else NextOk(pc.k)
    ensures var (m1, pc) := Resume(m, h.k, e, hasRestart);
      (h.k.KCancel? || h.k.KCancelRestart?) && h.k.after == AfterCancel && pc.Return? ==> m1.state == Idle && m1.stream.None?
  {
    match h.k {
      case KCancel(_, _, _) =>
      case KCancelRestart(_, _, _) =>
      case KRebuild(_, _) =>
      case KRebuildPost(_) =>
      case KFinalize(_, _) =>
      case _ =>
    }
  }

  ghost predicate HolderMeans(w: World) { StreamsOk(w) && (w.holder.Some? ==> NextOk(w.holder.value.k)) }

  /** The call that step is about: it gets the lock, or resumes with it. */
  predicate IsCancel(w: World, step: Step, t: nat) {
    || (step == Acquire(t) && t in w.waiting && w.waiting[t] == Cancel)
    || (step.Progress? && w.holder.Some? && (w.holder.value.k.KCancel? || w.holder.value.k.KCancelRestart?)
        && w.holder.value.k.after == AfterCancel)
  }

  lemma StepMeans(w: World, step: Step, t: nat)
    requires HolderMeans(w)
    ensures HolderMeans(Next(w, step))
    ensures t !in w.results && t in Next(w, step).results ==>
      && OutcomeMeans(Next(w, step).m, Next(w, step).results[t])
      && (IsCancel(w, step, t) ==> Next(w, step).m.state == Idle && Next(w, step).m.stream.None?)
  {
    StepKeepsStreams(w, step);
    match step {
      case Acquire(u) => if w.holder.None? && u in w.waiting { EnterMeans(w.m, w.waiting[u]); }
      case Progress(e, started) =>
        if w.holder.Some? && Possible(w.holder.value.k, e) { ResumeMeans(w.m, w.holder.value, e, w.hasRestart); }
      case _ =>
    }
  }

  lemma {:induction false} RunMeans(w: World, steps: seq<Step>)
    requires HolderMeans(w)
    ensures HolderMeans(Run(w, steps))
    decreases |steps|
  {
    if steps != [] {
      StepMeans(w, steps[0], 0);
      RunMeans(Next(w, steps[0]), steps[1..]);
    }
  }

  /** Over every run, when a call gets its outcome the manager is as the outcome says; after a
      cancel it is idle. */
  lemma OutcomesAreTrue(hasRestart: bool, steps: seq<Step>, step: Step, t: nat)
    ensures var w := Run(Initial(hasRestart), steps);
      var w1 := Next(w, step);
      t !in w.results && t in w1.results ==>
        OutcomeMeans(w1.m, w1.results[t]) && (IsCancel(w, step, t) ==> w1.m.state == Idle && w1.m.stream.None?)
  {
    InitialOk(hasRestart);
    RunMeans(Initial(hasRestart), steps);
    StepMeans(Run(Initial(hasRestart), steps), step, t);
  }

  /** A finalize whose worker returned: its own text and language if nothing happened since the
      snapshot, and a rejection otherwise. */
  lemma FinalizeTells(w: World, text: string, lang: Option<string>, started: bool)
    requires w.holder.Some? && w.holder.value.k.KFinalize?
    ensures var k := w.holder.value.k;
      var w1 := Next(w, Progress(Returned(text, lang), started));
      && w1.holder.None?
      && w1.results == w.results[w.holder.value.task :=
           if w.m.abortEpoch == k.epoch && w.m.state == Finalizing && w.m.gen == k.gen
           then Final(k.gen, text, true, lang) else Final(k.gen, "", false, None)]
  {
  }
}

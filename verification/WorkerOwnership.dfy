/** Ownership of the ASR worker process by `TRTEdgeLLMASRBackend`. */
module WorkerOwnership {
  import opened Common

  // Which process is owned, through which WorkerIO it is used, and when a new one may be launched.
  // Everything here happens under the worker lock, so each operation is one atomic step.  Exits of
  // processes, results of launches and teardowns, and which requests fail are arbitrary.
  // Processes and WorkerIO objects are numbered in the order of their creation.

  type Proc = nat

  /** A WorkerIO reads the pipes of the process it was made for. */
  datatype Wio = Wio(owner: Proc)

  datatype Owner = Owner(worker: Option<Proc>, wio: Option<Wio>, failed: bool)

  /** How a launch can go: no process; an exception before its ready line is accepted, or in
      making its WorkerIO (which starts a thread); success; a refusal, where `exited` is what the
      bounded teardown observed. */
  datatype Launch = PopenRaises | ReadyLineRaises | WioRaises | Ready | NotReady(exited: bool)

  predicate IsLive(o: Owner, alive: set<Proc>) { o.worker.Some? && o.worker.value in alive }

  function EnsureWorker(o: Owner, alive: set<Proc>, p: Proc, how: Launch): Owner {
    if IsLive(o, alive) then o
    else match how
      case PopenRaises => o
      case ReadyLineRaises => o.(worker := Some(p))
      case WioRaises => o.(worker := Some(p), failed := false)
      case Ready => Owner(Some(p), Some(Wio(p)), false)
      case NotReady(true) => Owner(None, None, false)
      case NotReady(false) => Owner(Some(p), None, true)
  }

  predicate Usable(o: Owner) { o.worker.Some? && o.wio.Some? && !o.failed }

  datatype Pair = Pair(worker: Proc, wio: Wio)

  function ClearWorkerIfCurrent(o: Owner, alive: set<Proc>, pair: Pair): Owner {
    if o.worker != Some(pair.worker) || o.wio != Some(pair.wio) then o
    else if pair.worker in alive then o.(failed := true)
    else Owner(None, None, false)
  }

  /** `exited` is what the teardown of a live worker observed. */
  function RestartWorker(o: Owner, alive: set<Proc>, exited: bool): Owner {
    if o.worker.None? then o
    else if o.worker.value in alive && !exited then o.(failed := true)
    else Owner(None, None, false)
  }

  class TRTEdgeLLMASRBackend {
    var worker: Option<Proc>
    var wio: Option<Wio>
    var failed: bool

    ghost function View(): Owner
      reads this
    {
      Owner(worker, wio, failed)
    }

    constructor ()
      ensures View() == Owner(None, None, false)
    {
      worker, wio, failed := None, None, false;
    }

    method Ensure(alive: set<Proc>, p: Proc, how: Launch) returns (ok: bool)
      modifies this
      ensures View() == EnsureWorker(old(View()), alive, p, how)
      ensures ok <==> IsLive(old(View()), alive) || how.Ready?
    {
      if worker.Some? && worker.value in alive {
        return true;
      }
      if how.PopenRaises? {
        return false;
      }
      worker := Some(p);
      if how.ReadyLineRaises? {
        return false;
      }
      if how.NotReady? {
        if how.exited {
          worker, wio, failed := None, None, false;
        } else {
          wio, failed := None, true;
        }
        return false;
      }
      failed := false;
      if how.WioRaises? {
        return false;
      }
      wio := Some(Wio(p));
      ok := true;
    }

    method ClearIfCurrent(alive: set<Proc>, pair: Pair)
      modifies this
      ensures View() == ClearWorkerIfCurrent(old(View()), alive, pair)
    {
      if worker == Some(pair.worker) && wio == Some(pair.wio) {
        if pair.worker in alive {
          failed := true;
        } else {
          worker, wio, failed := None, None, false;
        }
      }
    }

    method Restart(alive: set<Proc>, exited: bool) returns (ok: bool)
      modifies this
      ensures View() == RestartWorker(old(View()), alive, exited)
      ensures !ok <==> IsLive(old(View()), alive) && !exited
    {
      if worker.None? {
        return true;
      }
      if worker.value in alive {
        if !exited {
          failed := true;
          return false;
        }
      }
      worker, wio, failed := None, None, false;
      ok := true;
    }
  }

  // ------------------------------------------------------------------
  // Runs
  // ------------------------------------------------------------------

  /** `requests` holds the pairs captured by requests that have not returned. */
  datatype World = World(o: Owner, alive: set<Proc>, launched: nat, requests: map<nat, Pair>)

  datatype Step =
    | Exit(p: Proc)
    | Request(t: nat, how: Launch)
    | CancelRequest(t: nat)
    | RequestFails(t: nat)
    | RequestReturns(t: nat)
    | Restart(exited: bool)

  function Initial(): World { World(Owner(None, None, false), {}, 0, map[]) }

  function Capture(w: World, t: nat): World {
    if t in w.requests || !Usable(w.o) then w
    else w.(requests := w.requests[t := Pair(w.o.worker.value, w.o.wio.value)])
  }

  predicate Launches(w: World, step: Step) {
    step.Request? && !IsLive(w.o, w.alive) && !step.how.PopenRaises?
  }

  function Next(w: World, step: Step): World {
    match step
    case Exit(p) => w.(alive := w.alive - {p})
    case Request(t, how) =>
      var w1 := w.(o := EnsureWorker(w.o, w.alive, w.launched, how));
      var w2 := if !Launches(w, step) then w1
                else w1.(launched := w.launched + 1,
                         alive := if how == NotReady(true) then w.alive else w.alive + {w.launched});
      if IsLive(w.o, w.alive) || how.Ready? then Capture(w2, t) else w2
    case CancelRequest(t) => Capture(w, t)
    case RequestFails(t) =>
      if t !in w.requests then w
      else w.(o := ClearWorkerIfCurrent(w.o, w.alive, w.requests[t]), requests := w.requests - {t})
    case RequestReturns(t) => w.(requests := w.requests - {t})
    case Restart(exited) =>
      w.(o := RestartWorker(w.o, w.alive, exited),
         alive := if w.o.worker.Some? && exited then w.alive - {w.o.worker.value} else w.alive)
  }

  function Run(w: World, steps: seq<Step>): World
    decreases |steps|
  {
    if steps == [] then w else Run(Next(w, steps[0]), steps[1..])
  }

  /** Only the owned process can be alive, and numbers are only given out once. */
  ghost predicate Inv(w: World) {
    && (forall p :: p in w.alive ==> w.o.worker == Some(p))
    && (w.o.worker.Some? ==> w.o.worker.value < w.launched)
    && (forall t :: t in w.requests ==> w.requests[t].worker < w.launched)
  }

  lemma StepKeepsInv(w: World, step: Step)
    requires Inv(w)
    ensures Inv(Next(w, step))
    ensures w.launched <= Next(w, step).launched
  {
  }

  lemma {:induction false} RunKeepsInv(w: World, steps: seq<Step>)
    requires Inv(w)
    ensures Inv(Run(w, steps))
    ensures w.launched <= Run(w, steps).launched
    decreases |steps|
  {
    if steps != [] {
      StepKeepsInv(w, steps[0]);
      RunKeepsInv(Next(w, steps[0]), steps[1..]);
    }
  }

  /** Over every run at most one worker process is alive, and it is the owned one. */
  lemma AtMostOneWorkerAlive(steps: seq<Step>)
    ensures |Run(Initial(), steps).alive| <= 1
    ensures forall p :: p in Run(Initial(), steps).alive ==> Run(Initial(), steps).o.worker == Some(p)
  {
    RunKeepsInv(Initial(), steps);
    var w := Run(Initial(), steps);
    if w.o.worker.Some? {
      assert w.alive <= {w.o.worker.value};
      SubsetOfOne(w.alive, w.o.worker.value);
    } else {
      assert w.alive == {};
    }
  }

  lemma SubsetOfOne(s: set<nat>, x: nat)
    requires s <= {x}
    ensures |s| <= 1
  {
    if x in s { assert s == {x}; } else { assert s == {}; }
  }

  /** A process is launched only when every earlier one has exited. */
  lemma LaunchOnlyAfterAllExited(steps: seq<Step>, step: Step)
    requires Next(Run(Initial(), steps), step).launched != Run(Initial(), steps).launched
    ensures Run(Initial(), steps).alive == {}
  {
    RunKeepsInv(Initial(), steps);
  }

  /** A process that is no longer owned never becomes owned again. */
  lemma {:induction false} NeverOwnedAgain(w: World, steps: seq<Step>, p: Proc)
    requires Inv(w) && p < w.launched && w.o.worker != Some(p)
    ensures Run(w, steps).o.worker != Some(p)
    decreases |steps|
  {
    if steps != [] {
      StepKeepsInv(w, steps[0]);
      NeverOwnedAgain(Next(w, steps[0]), steps[1..], p);
    }
  }

  /** A request captured its pair, then its worker was replaced or dropped: however much
      later it fails, it neither clears nor marks whatever is owned then. */
  lemma OldFailureTouchesNothing(w: World, steps: seq<Step>, t: nat)
    requires Inv(w) && t in w.requests && w.o.worker != Some(w.requests[t].worker)
    ensures var z := Run(w, steps); ClearWorkerIfCurrent(z.o, z.alive, w.requests[t]) == z.o
  {
    NeverOwnedAgain(w, steps, w.requests[t].worker);
  }

  /** A request that fails on the owned pair: an exited worker is forgotten, a live one stays
      owned but is marked; and no other request is concerned. */
  lemma CurrentFailureIsHandled(w: World, t: nat)
    requires t in w.requests && w.o.worker == Some(w.requests[t].worker) && w.o.wio == Some(w.requests[t].wio)
    ensures var w1 := Next(w, RequestFails(t));
      && (if w.requests[t].worker in w.alive then w1.o == Owner(w.o.worker, w.o.wio, true) else w1.o == Owner(None, None, false))
      && w1.alive == w.alive && w1.requests == w.requests - {t}
  {
  }

  /** While a failed worker lives it stays owned and marked: nothing is launched over it and
      no request obtains it. */
  lemma {:induction false} FailedWorkerIsNotReused(w: World, steps: seq<Step>, p: Proc)
    requires Inv(w) && w.o.worker == Some(p) && w.o.failed
    requires p in Run(w, steps).alive
    ensures var z := Run(w, steps);
      z.o.worker == Some(p) && z.o.failed && z.launched == w.launched && z.requests.Keys <= w.requests.Keys
    decreases |steps|
  {
    if steps != [] {
      var w1 := Next(w, steps[0]);
      StepKeepsInv(w, steps[0]);
      if p !in w1.alive { DeadStaysDead(w1, steps[1..], p); }
      FailedWorkerIsNotReused(w1, steps[1..], p);
    }
  }

  lemma {:induction false} DeadStaysDead(w: World, steps: seq<Step>, p: Proc)
    requires Inv(w) && p < w.launched && p !in w.alive
    ensures p !in Run(w, steps).alive
    decreases |steps|
  {
    if steps != [] {
      StepKeepsInv(w, steps[0]);
      DeadStaysDead(Next(w, steps[0]), steps[1..], p);
    }
  }

  /** Every pair, owned or captured, is a process with its own pipes. */
  ghost predicate PairsMatch(w: World) {
    && (w.o.wio.Some? ==> w.o.worker == Some(w.o.wio.value.owner))
    && (forall t :: t in w.requests ==> w.requests[t].wio.owner == w.requests[t].worker)
  }

  /** A launch over an exited worker whose WorkerIO is still there raises after its process was
      made. */
  predicate MixesPair(w: World, step: Step) {
    && step.Request? && (step.how.ReadyLineRaises? || step.how.WioRaises?)
    && !IsLive(w.o, w.alive) && w.o.wio.Some?
  }

  lemma StepMatchesUnlessMixed(w: World, step: Step)
    requires Inv(w) && PairsMatch(w)
    ensures PairsMatch(Next(w, step)) <==> !MixesPair(w, step)
  {
  }

  ghost predicate AlwaysMatch(w: World, steps: seq<Step>)
    decreases |steps|
  {
    PairsMatch(w) && (steps != [] ==> AlwaysMatch(Next(w, steps[0]), steps[1..]))
  }

  predicate NeverMixes(w: World, steps: seq<Step>)
    decreases |steps|
  {
    steps != [] ==> !MixesPair(w, steps[0]) && NeverMixes(Next(w, steps[0]), steps[1..])
  }

  /** Through a whole run every request talks to the pipes of the process it captured, exactly
      when no launch of the run raises over a WorkerIO that was left behind. */
  lemma {:induction false} RequestsUseTheirOwnPipes(w: World, steps: seq<Step>)
    requires Inv(w) && PairsMatch(w)
    ensures AlwaysMatch(w, steps) <==> NeverMixes(w, steps)
    decreases |steps|
  {
    if steps != [] {
      var w1 := Next(w, steps[0]);
      StepKeepsInv(w, steps[0]);
      StepMatchesUnlessMixed(w, steps[0]);
      if PairsMatch(w1) {
        RequestsUseTheirOwnPipes(w1, steps[1..]);
      }
    }
  }

  /** When one does, the exited worker's WorkerIO stays beside the new process, unmarked, and the
      next request is sent to the old pipes. */
  lemma RaisingLaunchMixesPair(how: Launch) returns (steps: seq<Step>)
    requires how.ReadyLineRaises? || how.WioRaises?
    ensures var w := Run(Initial(), steps);
      w.requests[2 := Pair(1, Wio(0))] == w.requests && 1 in w.alive && !PairsMatch(w)
  {
    steps := [Request(0, Ready), Exit(0), Request(1, how), CancelRequest(2)];
    var w1 := Next(Initial(), steps[0]);
    var w2 := Next(w1, steps[1]);
    var w3 := Next(w2, steps[2]);
    assert steps[1..][1..] == steps[2..] && steps[2..][1..] == steps[3..] && steps[3..][1..] == [];
    assert Run(Initial(), steps) == Run(w1, steps[1..]) == Run(w2, steps[2..]) == Run(w3, steps[3..]) == Next(w3, steps[3]);
    var w4 := Next(w3, steps[3]);
    assert 2 in w4.requests && w4.requests[2] == Pair(1, Wio(0));
  }
}

/** The native stream-cancel protocol of `_TRTEdgeLLMStreamingASRStream`. */
module StreamCancel {
  import opened Common
  import Text

  // `StreamingAsrStream` has one method per critical section of the short state lock; each is
  // proved equal to a function on the value `Stream`.  `Next` interleaves those sections, for any
  // number of consumer and control threads, with the worker IO that happens outside the lock:
  // lines being written, and replies, timeouts and exits chosen by an adversary.

  /** Session ids.  A fresh uuid is the next number not used before. */
  type Sid = nat

  datatype Kind = BeginAck | Partial | Final | SegmentRotation | Cancelled | OtherEvent

  /** A worker reply; `text` (stripped) and `lang` are what post-processing made of it. */
  datatype Reply = Reply(kind: Kind, okFalse: bool, id: Sid, text: string, lang: Option<string>, carry: int)

  datatype Confirm = Confirm(sid: Sid, receipt: Reply)

  datatype Stream = Stream(
    sid: Sid, audio: nat,
    partialText: string, finalText: string, committed: string, lang: Option<string>, closed: bool,
    begun: set<Sid>, requested: set<Sid>,
    intent: Option<Sid>, confirm: Option<Confirm>, cancelExit: bool, controlInflight: bool,
    inflight: map<Sid, nat>)

  datatype Error = ProtocolError | UnexpectedEvent

  // ------------------------------------------------------------------
  // The critical sections as functions
  // ------------------------------------------------------------------

  function ArmCancel(s: Stream): Stream {
    s.(requested := s.requested + {s.sid}, intent := if s.intent.None? then Some(s.sid) else s.intent)
  }

  datatype Entry = AlreadyConfirmed(receipt: Reply) | Duplicate | Taken(sid: Sid)

  function EnterRequestCancel(s: Stream): (Stream, Entry) {
    var s1 := if s.intent.None? then ArmCancel(s) else s;
    var sid := s1.intent.value;
    if s1.confirm.Some? && s1.confirm.value.sid == sid then (s1, AlreadyConfirmed(s1.confirm.value.receipt))
    else if s1.controlInflight then (s1, Duplicate)
    else (s1.(controlInflight := true), Taken(sid))
  }

  function ReleaseControl(s: Stream, exit: bool): Stream {
    s.(controlInflight := false, cancelExit := s.cancelExit || exit)
  }

  predicate Matches(r: Reply, sid: Sid) { r.kind == Cancelled && r.okFalse && r.id == sid }

  function RecordCancelReceipt(s: Stream, sid: Sid, r: Reply): Result<Stream, Error> {
    if !Matches(r, sid) || sid !in s.requested then Failure(ProtocolError)
    else
      var s1 := if s.intent.None? then s.(intent := Some(sid)) else s;
      if s1.confirm.None? || s1.confirm.value.sid != sid
      then Success(s1.(confirm := Some(Confirm(sid, r))))
      else Success(s1)
  }

  function WithLang(s: Stream, lang: Option<string>): Stream {
    if lang.Some? && lang.value != "" then s.(lang := lang) else s
  }

  function CommitChunk(s: Stream, sid: Sid, r: Reply): Result<Stream, Error> {
    if r.kind == Cancelled then RecordCancelReceipt(s, sid, r)
    else if r.kind !in {Partial, Final, SegmentRotation} then Failure(UnexpectedEvent)
    else if s.sid != sid || sid in s.requested then Success(s)
    else match r.kind
      case SegmentRotation => Success(if 0 < r.carry < s.audio then s.(audio := r.carry) else s)
      case Partial => Success(WithLang(s.(partialText := r.text), r.lang))
      case Final => Success(WithLang(s.(finalText := r.text), r.lang).(closed := true))
  }

  function JoinCommitted(committed: string, seg: string): string {
    if seg == "" then committed
    else if committed == "" then seg
    else Text.Strip(committed + " " + seg)
  }

  predicate RotationAllowed(s: Stream, old_sid: Sid) { s.sid == old_sid && old_sid !in s.requested }

  function CommitRotation(s: Stream, old_sid: Sid, seg: string): Stream {
    if !RotationAllowed(s, old_sid) then s
    else s.(committed := JoinCommitted(s.committed, seg), audio := 0, partialText := "", finalText := "",
            closed := false, sid := s.sid + 1)
  }

  datatype CloseDecision = AlreadyClosed | Released(sid: Sid) | LeaveToControl | SendEnd(sid: Sid)

  function DecideClose(s: Stream): CloseDecision {
    if s.closed then AlreadyClosed
    else if s.confirm.Some? && s.confirm.value.sid == s.sid then Released(s.sid)
    else if s.intent == Some(s.sid) && !s.cancelExit then LeaveToControl
    else SendEnd(s.sid)
  }

  function MarkClosed(s: Stream, sid: Sid): Stream { if s.sid == sid then s.(closed := true) else s }

  function Inflight(s: Stream, sid: Sid): nat { if sid in s.inflight then s.inflight[sid] else 0 }

  function InflightInc(s: Stream, sid: Sid): Stream { s.(inflight := s.inflight[sid := Inflight(s, sid) + 1]) }

  function InflightDec(s: Stream, sid: Sid): Stream {
    var n: int := Inflight(s, sid) - 1;
    s.(inflight := if n <= 0 then s.inflight - {sid} else s.inflight[sid := n])
  }

  // ------------------------------------------------------------------
  // The critical sections as the source has them
  // ------------------------------------------------------------------

  class StreamingAsrStream {
    var sid: Sid
    var audio: nat
    var partialText: string
    var finalText: string
    var committed: string
    var lang: Option<string>
    var closed: bool
    var begun: set<Sid>
    var requested: set<Sid>
    var intent: Option<Sid>
    var confirm: Option<Confirm>
    var cancelExit: bool
    var controlInflight: bool
    var inflight: map<Sid, nat>

    ghost function View(): Stream
      reads this
    {
      Stream(sid, audio, partialText, finalText, committed, lang, closed, begun, requested,
             intent, confirm, cancelExit, controlInflight, inflight)
    }

    constructor (first: Sid)
      ensures View() == InitialStream(first)
    {
      sid, audio, closed := first, 0, false;
      partialText, finalText, committed, lang := "", "", "", None;
      begun, requested, intent, confirm := {}, {}, None, None;
      cancelExit, controlInflight, inflight := false, false, map[];
    }

    method Arm() returns (captured: Sid)
      modifies this
      ensures View() == ArmCancel(old(View())) && captured == sid
    {
      requested := requested + {sid};
      if intent.None? {
        intent := Some(sid);
      }
      captured := sid;
    }

    method EnterRequest() returns (entry: Entry)
      modifies this
      ensures (View(), entry) == EnterRequestCancel(old(View()))
    {
      if intent.None? {
        requested := requested + {sid};
        intent := Some(sid);
      }
      var captured := intent.value;
      if confirm.Some? && confirm.value.sid == captured {
        return AlreadyConfirmed(confirm.value.receipt);
      }
      if controlInflight {
        return Duplicate;
      }
      controlInflight := true;
      entry := Taken(captured);
    }

    method Release(exit: bool)
      modifies this
      ensures View() == ReleaseControl(old(View()), exit)
    {
      controlInflight := false;
      if exit {
        cancelExit := true;
      }
    }

    method Record(s: Sid, r: Reply) returns (ok: bool)
      modifies this
      ensures ok == RecordCancelReceipt(old(View()), s, r).Success?
      ensures View() == if ok then RecordCancelReceipt(old(View()), s, r).value else old(View())
    {
      if !Matches(r, s) || s !in requested {
        return false;
      }
      if intent.None? {
        intent := Some(s);
      }
      if confirm.None? || confirm.value.sid != s {
        confirm := Some(Confirm(s, r));
      }
      ok := true;
    }

    method Commit(s: Sid, r: Reply) returns (ok: bool)
      modifies this
      ensures ok == CommitChunk(old(View()), s, r).Success?
      ensures View() == if ok then CommitChunk(old(View()), s, r).value else old(View())
    {
      if r.kind == Cancelled {
        ok := Record(s, r);
        return;
      }
      if r.kind !in {Partial, Final, SegmentRotation} {
        return false;
      }
      ok := true;
      if sid != s || s in requested {
        return;
      }
      match r.kind {
        case SegmentRotation =>
          if 0 < r.carry < audio {
            audio := r.carry;
          }
        case Partial =>
          partialText := r.text;
          if r.lang.Some? && r.lang.value != "" {
            lang := r.lang;
          }
        case Final =>
          finalText := r.text;
          if r.lang.Some? && r.lang.value != "" {
            lang := r.lang;
          }
          closed := true;
      }
    }

    method Rotate(old_sid: Sid, seg: string) returns (switched: bool)
      modifies this
      ensures View() == CommitRotation(old(View()), old_sid, seg)
      ensures switched == RotationAllowed(old(View()), old_sid)
    {
      if sid != old_sid || old_sid in requested {
        return false;
      }
      committed := JoinCommitted(committed, seg);
      audio, partialText, finalText, closed := 0, "", "", false;
      sid := sid + 1;
      switched := true;
    }

    method Close(s: Sid)
      modifies this
      ensures View() == MarkClosed(old(View()), s)
    {
      if sid == s {
        closed := true;
      }
    }

    method BeginInflight(s: Sid)
      modifies this
      ensures View() == InflightInc(old(View()), s)
    {
      inflight := inflight[s := (if s in inflight then inflight[s] else 0) + 1];
    }

    method EndInflight(s: Sid)
      modifies this
      ensures View() == InflightDec(old(View()), s)
    {
      var n: int := if s in inflight then inflight[s] else 0;
      n := n - 1;
      if n <= 0 {
        inflight := inflight - {s};
      } else {
        inflight := inflight[s := n];
      }
    }
  }

  // ------------------------------------------------------------------
  // Threads, worker lines and the interleaving
  // ------------------------------------------------------------------

  datatype Line = BeginLine(sid: Sid) | ChunkLine(sid: Sid) | EndLine(sid: Sid) | CancelLine(sid: Sid)

  datatype Op = Begin | Chunk(rotate: bool) | End

  /** Where a consumer thread is inside begin, chunk, rotation, finalize or close. */
  datatype Consumer =
    | NeedBegin
    | Captured(op: Op, sid: Sid)
    | InFlight(op: Op, sid: Sid)
    | Written(op: Op, sid: Sid)
    | BarrierSet(sid: Sid)
    | Replied(op: Op, sid: Sid, reply: Reply)
    | SegmentDone(sid: Sid, final: bool)
    | RotateReady(sid: Sid, seg: string)
    | CloseReady(sid: Sid)

  /** Where a control thread is inside `request_cancel`. */
  datatype Control = Waiting(sid: Sid) | InHelper(sid: Sid, wrote: bool) | HasReceipt(sid: Sid, receipt: Reply) | Recorded(sid: Sid)

  /** `segments` keeps the text of every rotation that was allowed. */
  datatype System = System(s: Stream, consumers: map<nat, Consumer>, controls: map<nat, Control>, log: seq<Line>,
                           segments: seq<string>)

  datatype Call = Accept(samples: nat, rotate: bool) | FinalizeEmpty | CloseCall

  /** What the environment does to a thread that is outside the lock: let it go on, make the
      IO (or the barrier wait) fail, or hand it a reply.  `promoted` is the partial text
      after the degenerate-output guard. */
  datatype Env = GoOn(promoted: string) | Fails(exit: bool) | Gives(reply: Reply)

  datatype Step = Arm | ControlEnter(c: nat) | ControlGo(c: nat, e: Env) | Start(t: nat, call: Call) | Go(t: nat, e: Env)

  function InitialStream(first: Sid): Stream {
    Stream(first, 0, "", "", "", None, false, {}, {}, None, None, false, false, map[])
  }

  function Initial(first: Sid): System { System(InitialStream(first), map[0 := NeedBegin], map[], [], []) }

  function LineOf(op: Op, sid: Sid): Line {
    match op case Begin => BeginLine(sid) case Chunk(_) => ChunkLine(sid) case End => EndLine(sid)
  }

  /** `_worker_request` lets an ok=false reply through only as the cancelled receipt of this
      very request while a cancel is requested for it; anything else it raises. */
  predicate PassesRequest(s: Stream, sid: Sid, r: Reply) {
    r.okFalse ==> Matches(r, sid) && sid in s.requested
  }

  function StartConsumer(s: Stream, call: Call): (Stream, Option<Consumer>) {
    match call
    case Accept(samples, rotate) => (s.(audio := s.audio + samples), Some(Captured(Chunk(rotate), s.sid)))
    case FinalizeEmpty =>
      (s, if s.closed || s.sid in s.requested || s.audio > 0 then None else Some(Captured(End, s.sid)))
    case CloseCall =>
      match DecideClose(s)
      case Released(sid) => (s, Some(CloseReady(sid)))
      case SendEnd(sid) => (s, Some(Captured(End, sid)))
      case AlreadyClosed => (s, None)
      case LeaveToControl => (s, None)
  }

  /** The locked section with which a consumer handles its reply, and where it goes next. */
  function Handle(s: Stream, op: Op, sid: Sid, r: Reply): (Stream, Option<Consumer>) {
    match op
    case Chunk(rotate) =>
      (match CommitChunk(s, sid, r)
       case Failure(_) => (s, None)
       case Success(s1) => (s1, if rotate then Some(SegmentDone(sid, r.kind == Final)) else None))
    case Begin => (RecordIfCancelled(s, sid, r), None)
    case End => (if r.kind == Cancelled then RecordIfCancelled(s, sid, r) else MarkClosed(s, sid), None)
  }

  function RecordIfCancelled(s: Stream, sid: Sid, r: Reply): Stream {
    if r.kind != Cancelled then s
    else match RecordCancelReceipt(s, sid, r) case Success(s1) => s1 case Failure(_) => s
  }

  /** One move of a consumer thread: new stream, new position (None: returned or raised),
      and the line it wrote, if any. */
  function GoConsumer(s: Stream, f: Consumer, e: Env): (Stream, Option<Consumer>, seq<Line>) {
    match f
    case NeedBegin => (s, Some(Captured(Begin, s.sid)), [])
    case Captured(op, sid) => (InflightInc(s, sid), Some(InFlight(op, sid)), [])
    case InFlight(op, sid) =>
      if e.Fails? then (InflightDec(s, sid), None, []) else (s, Some(Written(op, sid)), [LineOf(op, sid)])
    case Written(op, sid) =>
      if op == Begin && !e.Fails? then (s.(begun := s.begun + {sid}), Some(BarrierSet(sid)), [])
      else Receive(s, f, op, sid, e)
    case BarrierSet(sid) => Receive(s, f, Begin, sid, e)
    case Replied(op, sid, r) => var (s1, f1) := Handle(s, op, sid, r); (s1, f1, [])
    case SegmentDone(sid, final) =>
      (s, Some(RotateReady(sid, if final then s.finalText else if e.GoOn? then e.promoted else "")), [])
    case RotateReady(sid, seg) =>
      (CommitRotation(s, sid, seg), if RotationAllowed(s, sid) then Some(NeedBegin) else None, [])
    case CloseReady(sid) => (MarkClosed(s, sid), None, [])
  }

  /** Waiting for the worker's reply: nothing yet, a failure, or a reply. */
  function Receive(s: Stream, f: Consumer, op: Op, sid: Sid, e: Env): (Stream, Option<Consumer>, seq<Line>) {
    match e
    case GoOn(_) => (s, Some(f), [])
    case Fails(_) => (InflightDec(s, sid), None, [])
    case Gives(r) => (InflightDec(s, sid), if PassesRequest(s, sid, r) then Some(Replied(op, sid, r)) else None, [])
  }

  /** One move of a control thread inside `request_cancel`. */
  function GoControl(s: Stream, f: Control, e: Env): (Stream, Option<Control>, seq<Line>) {
    match f
    case Waiting(sid) =>
      if e.Fails? then (ReleaseControl(s, false), None, [])
      else (s, Some(if sid in s.begun then InHelper(sid, false) else f), [])
    case InHelper(sid, wrote) =>
      (match e
       case GoOn(_) => (s, Some(InHelper(sid, true)), if wrote then [] else [CancelLine(sid)])
       case Fails(exit) => (ReleaseControl(s, exit), None, [])
       case Gives(r) =>
         if Matches(r, sid) then (s, Some(HasReceipt(sid, r)), []) else (ReleaseControl(s, false), None, []))
    case HasReceipt(sid, r) =>
      (match RecordCancelReceipt(s, sid, r)
       case Failure(_) => (s, None, [])   // the error would leave the ownership flag set
       case Success(s1) => (s1, Some(Recorded(sid)), []))
    case Recorded(sid) => (ReleaseControl(s, false), None, [])
  }

  function SegmentOf(s: Stream, f: Consumer): seq<string> {
    if f.RotateReady? && RotationAllowed(s, f.sid) then [f.seg] else []
  }

  function Put<F>(m: map<nat, F>, t: nat, f: Option<F>): map<nat, F> {
    if f.Some? then m[t := f.value] else m - {t}
  }

  /** One atomic step of the whole system; a disabled step changes nothing. */
  function Next(y: System, step: Step): System {
    match step
    case Arm => y.(s := ArmCancel(y.s))
    case ControlEnter(c) =>
      if c in y.controls then y
      else
        var (s1, entry) := EnterRequestCancel(y.s);
        y.(s := s1, controls := if entry.Taken? then y.controls[c := Waiting(entry.sid)] else y.controls)
    case ControlGo(c, e) =>
      if c !in y.controls then y
      else
        var (s1, f, lines) := GoControl(y.s, y.controls[c], e);
        y.(s := s1, controls := Put(y.controls, c, f), log := y.log + lines)
    case Start(t, call) =>
      if t in y.consumers then y
      else
        var (s1, f) := StartConsumer(y.s, call);
        y.(s := s1, consumers := Put(y.consumers, t, f))
    case Go(t, e) =>
      if t !in y.consumers then y
      else
        var (s1, f, lines) := GoConsumer(y.s, y.consumers[t], e);
        y.(s := s1, consumers := Put(y.consumers, t, f), log := y.log + lines,
           segments := y.segments + SegmentOf(y.s, y.consumers[t]))
  }

  function Run(y: System, steps: seq<Step>): System
    decreases |steps|
  {
    if steps == [] then y else Run(Next(y, steps[0]), steps[1..])
  }

  // ------------------------------------------------------------------
  // What every step keeps
  // ------------------------------------------------------------------

  /** At most the current session is armed, the intent names it, and a receipt confirms it. */
  ghost predicate StreamOk(s: Stream) {
    && s.requested == (if s.intent.None? then {} else {s.sid})
    && (s.intent.Some? ==> s.intent.value == s.sid)
    && (s.confirm.Some? ==> s.intent == Some(s.confirm.value.sid) && Matches(s.confirm.value.receipt, s.sid))
  }

  /** The ownership flag is up exactly while one control is between entry and release. */
  ghost predicate ControlsOk(y: System) {
    && (y.s.controlInflight <==> exists c :: c in y.controls)
    && (forall c, d :: c in y.controls && d in y.controls ==> c == d)
    && (forall c :: c in y.controls ==> ControlOk(y.s, y.controls[c]))
  }

  ghost predicate ControlOk(s: Stream, f: Control) {
    && s.intent == Some(f.sid)
    && (f.InHelper? ==> f.sid in s.begun)
    && (f.HasReceipt? ==> Matches(f.receipt, f.sid))
  }

  ghost predicate CancelAfterBegin(log: seq<Line>) {
    forall i :: 0 <= i < |log| && log[i].CancelLine? ==> BeginLine(log[i].sid) in log[..i]
  }

  ghost predicate LogOk(y: System) {
    && CancelAfterBegin(y.log)
    && (forall s :: s in y.s.begun ==> BeginLine(s) in y.log)
    && (forall t :: t in y.consumers ==> ConsumerLogOk(y.log, y.consumers[t]))
  }

  ghost predicate ConsumerLogOk(log: seq<Line>, f: Consumer) {
    f.Written? && f.op == Begin ==> BeginLine(f.sid) in log
  }

  ghost predicate Enlisted(f: Consumer, sid: Sid) { (f.InFlight? || f.Written? || f.BarrierSet?) && f.sid == sid }

  ghost function EnlistedFor(consumers: map<nat, Consumer>, sid: Sid): set<nat> {
    set t | t in consumers && Enlisted(consumers[t], sid)
  }

  /** The in-flight table counts exactly the threads inside an ordinary request. */
  ghost predicate InflightOk(y: System) {
    forall sid :: Inflight(y.s, sid) == |EnlistedFor(y.consumers, sid)|
  }

  ghost predicate Inv(y: System) { StreamOk(y.s) && ControlsOk(y) && LogOk(y) && InflightOk(y) }

  lemma RotationKeepsStream(s: Stream, sid: Sid, seg: string)
    requires StreamOk(s)
    ensures var s1 := CommitRotation(s, sid, seg);
      StreamOk(s1) && s1.controlInflight == s.controlInflight && s1.begun == s.begun && (s.intent.Some? ==> s1 == s)
  {
  }

  lemma RecordKeepsStream(s: Stream, sid: Sid, r: Reply)
    requires StreamOk(s)
    ensures var s1 := RecordIfCancelled(s, sid, r);
      StreamOk(s1) && s1.controlInflight == s.controlInflight && s.begun == s1.begun && s1.intent == s.intent
  {
  }

  lemma ChunkKeepsStream(s: Stream, sid: Sid, r: Reply)
    requires StreamOk(s) && CommitChunk(s, sid, r).Success?
    ensures var s1 := CommitChunk(s, sid, r).value;
      StreamOk(s1) && s1.controlInflight == s.controlInflight && s.begun == s1.begun && s1.intent == s.intent
  {
    if r.kind == Cancelled { RecordKeepsStream(s, sid, r); }
  }

  lemma HandleKeepsStream(s: Stream, op: Op, sid: Sid, r: Reply)
    requires StreamOk(s)
    ensures var s1 := Handle(s, op, sid, r).0;
      StreamOk(s1) && s1.controlInflight == s.controlInflight && s.begun == s1.begun && s1.intent == s.intent
  {
    RecordKeepsStream(s, sid, r);
    if op.Chunk? && CommitChunk(s, sid, r).Success? { ChunkKeepsStream(s, sid, r); }
  }

  lemma ConsumerKeepsStream(s: Stream, f: Consumer, e: Env)
    requires StreamOk(s)
    ensures var s1 := GoConsumer(s, f, e).0;
      StreamOk(s1) && s1.controlInflight == s.controlInflight && s.begun <= s1.begun && (s.intent.Some? ==> s1.intent == s.intent)
  {
    match f {
      case RotateReady(sid, seg) => RotationKeepsStream(s, sid, seg);
      case Replied(op, sid, r) => HandleKeepsStream(s, op, sid, r);
      case _ =>
    }
  }

  lemma ControlKeepsStream(s: Stream, f: Control, e: Env)
    requires StreamOk(s) && ControlOk(s, f) && s.controlInflight
    ensures var (s1, f1, _) := GoControl(s, f, e);
      && StreamOk(s1) && s1.begun == s.begun && s1.intent == s.intent && s1.controlInflight == f1.Some?
      && (f1.Some? ==> ControlOk(s1, f1.value))
  {
  }

  lemma ControlsKept(y: System, step: Step)
    requires StreamOk(y.s) && ControlsOk(y)
    ensures StreamOk(Next(y, step).s) && ControlsOk(Next(y, step))
  {
    match step {
      case Go(t, e) => if t in y.consumers { ConsumerKeepsStream(y.s, y.consumers[t], e); }
      case ControlGo(c, e) =>
        if c in y.controls {
          ControlKeepsStream(y.s, y.controls[c], e);
          var y1 := Next(y, step);
          assert c in y1.controls <==> y1.s.controlInflight;
        }
      case _ =>
    }
  }

  lemma AppendLine(log: seq<Line>, line: Line)
    requires CancelAfterBegin(log) && (line.CancelLine? ==> BeginLine(line.sid) in log)
    ensures CancelAfterBegin(log + [line])
  {
    var log1 := log + [line];
    forall i | 0 <= i < |log1| && log1[i].CancelLine? ensures BeginLine(log1[i].sid) in log1[..i] {
      if i < |log| {
        assert log1[..i] == log[..i];
      } else {
        assert log1[..i] == log;
      }
    }
  }

  lemma ConsumerLog(log: seq<Line>, s: Stream, f: Consumer, e: Env)
    requires ConsumerLogOk(log, f) && CancelAfterBegin(log) && forall x :: x in s.begun ==> BeginLine(x) in log
    ensures var (s1, f1, lines) := GoConsumer(s, f, e);
      && CancelAfterBegin(log + lines) && (f1.Some? ==> ConsumerLogOk(log + lines, f1.value))
      && forall x :: x in s1.begun ==> BeginLine(x) in log + lines
  {
    if f.InFlight? && !e.Fails? {
      AppendLine(log, LineOf(f.op, f.sid));
    } else {
      assert log + [] == log;
    }
  }

  lemma ControlLog(log: seq<Line>, s: Stream, f: Control, e: Env)
    requires ControlOk(s, f) && CancelAfterBegin(log) && forall x :: x in s.begun ==> BeginLine(x) in log
    ensures CancelAfterBegin(log + GoControl(s, f, e).2)
  {
    if f.InHelper? && !f.wrote && e.GoOn? {
      AppendLine(log, CancelLine(f.sid));
    } else {
      assert log + [] == log;
    }
  }

  lemma LogKept(y: System, step: Step)
    requires StreamOk(y.s) && ControlsOk(y) && LogOk(y)
    ensures LogOk(Next(y, step))
  {
    match step {
      case Go(t, e) =>
        if t in y.consumers {
          ConsumerLog(y.log, y.s, y.consumers[t], e);
        }
      case ControlGo(c, e) =>
        if c in y.controls {
          ControlLog(y.log, y.s, y.controls[c], e);
          ControlKeepsStream(y.s, y.controls[c], e);
        }
      case _ =>
    }
  }

  ghost function One(f: Option<Consumer>, sid: Sid): nat { if f.Some? && Enlisted(f.value, sid) then 1 else 0 }

  ghost function At(consumers: map<nat, Consumer>, t: nat): Option<Consumer> {
    if t in consumers then Some(consumers[t]) else None
  }

  lemma PutEnlisted(consumers: map<nat, Consumer>, t: nat, f: Option<Consumer>, sid: Sid)
    ensures |EnlistedFor(Put(consumers, t, f), sid)| + One(At(consumers, t), sid) == |EnlistedFor(consumers, sid)| + One(f, sid)
  {
    var before, after := EnlistedFor(consumers, sid), EnlistedFor(Put(consumers, t, f), sid);
    assert before - {t} == after - {t};
    assert t in before ==> |before| == |before - {t}| + 1;
    assert t in after ==> |after| == |after - {t}| + 1;
  }

  /** A move that enters or leaves an ordinary request changes its session's count by one. */
  lemma HandleCounts(s: Stream, op: Op, sid: Sid, r: Reply, other: Sid)
    ensures var (s1, f1) := Handle(s, op, sid, r);
      s1.inflight == s.inflight && One(f1, other) == 0
  {
  }

  lemma ConsumerCounts(s: Stream, f: Consumer, e: Env, sid: Sid)
    requires Enlisted(f, sid) ==> Inflight(s, sid) >= 1
    ensures var (s1, f1, _) := GoConsumer(s, f, e);
      Inflight(s1, sid) + One(Some(f), sid) == Inflight(s, sid) + One(f1, sid)
  {
    match f {
      case RotateReady(old_sid, seg) => assert CommitRotation(s, old_sid, seg).inflight == s.inflight;
      case Replied(op, own, r) => HandleCounts(s, op, own, r, sid);
      case _ =>
    }
  }

  lemma InflightKept(y: System, step: Step)
    requires InflightOk(y)
    ensures InflightOk(Next(y, step))
  {
    var y1 := Next(y, step);
    forall sid ensures Inflight(y1.s, sid) == |EnlistedFor(y1.consumers, sid)| {
      assert Inflight(y.s, sid) == |EnlistedFor(y.consumers, sid)|;
      match step {
        case Start(t, call) =>
          if t !in y.consumers { PutEnlisted(y.consumers, t, StartConsumer(y.s, call).1, sid); }
        case Go(t, e) =>
          if t in y.consumers {
            PutEnlisted(y.consumers, t, GoConsumer(y.s, y.consumers[t], e).1, sid);
            if Enlisted(y.consumers[t], sid) { assert t in EnlistedFor(y.consumers, sid); }
            ConsumerCounts(y.s, y.consumers[t], e, sid);
          }
        case ControlGo(c, e) =>
        case _ =>
      }
    }
  }

  lemma InitialOk(first: Sid)
    ensures Inv(Initial(first))
  {
    var y := Initial(first);
    forall sid ensures Inflight(y.s, sid) == |EnlistedFor(y.consumers, sid)| {
      assert EnlistedFor(y.consumers, sid) == {};
    }
  }

  lemma StepKeepsInv(y: System, step: Step)
    requires Inv(y)
    ensures Inv(Next(y, step))
  {
    ControlsKept(y, step);
    LogKept(y, step);
    InflightKept(y, step);
  }

  // ------------------------------------------------------------------
  // Properties of every run
  // ------------------------------------------------------------------

  /** Every run keeps the whole invariant: one armed session, one control in the native
      helper, no cancel line before its begin line, an exact in-flight table. */
  lemma {:induction false} RunKeepsInv(y: System, steps: seq<Step>)
    requires Inv(y)
    ensures Inv(Run(y, steps))
    decreases |steps|
  {
    if steps != [] {
      StepKeepsInv(y, steps[0]);
      RunKeepsInv(Next(y, steps[0]), steps[1..]);
    }
  }

  lemma EveryRunOk(first: Sid, steps: seq<Step>)
    ensures Inv(Run(Initial(first), steps))
  {
    InitialOk(first);
    RunKeepsInv(Initial(first), steps);
  }

  ghost predicate SameOutcome(a: Stream, b: Stream) {
    && a.sid == b.sid && a.requested == b.requested && a.intent == b.intent
    && a.partialText == b.partialText && a.finalText == b.finalText && a.committed == b.committed && a.lang == b.lang
  }

  lemma HandleFreezes(s: Stream, op: Op, sid: Sid, r: Reply)
    requires StreamOk(s) && s.intent.Some?
    ensures var s1 := Handle(s, op, sid, r).0;
      SameOutcome(s, s1) && (s.confirm.Some? ==> s1.confirm == s.confirm)
  {
  }

  lemma ConsumerFreezes(s: Stream, f: Consumer, e: Env)
    requires StreamOk(s) && s.intent.Some?
    ensures var s1 := GoConsumer(s, f, e).0;
      SameOutcome(s, s1) && (s.confirm.Some? ==> s1.confirm == s.confirm)
  {
    match f {
      case RotateReady(sid, seg) => RotationKeepsStream(s, sid, seg);
      case Replied(op, sid, r) => HandleFreezes(s, op, sid, r);
      case _ =>
    }
  }

  lemma ControlFreezes(s: Stream, f: Control, e: Env)
    requires StreamOk(s) && ControlOk(s, f)
    ensures var s1 := GoControl(s, f, e).0;
      SameOutcome(s, s1) && (s.confirm.Some? ==> s1.confirm == s.confirm)
  {
  }

  lemma StepFreezes(y: System, step: Step)
    requires Inv(y) && y.s.intent.Some?
    ensures SameOutcome(y.s, Next(y, step).s)
    ensures y.s.confirm.Some? ==> Next(y, step).s.confirm == y.s.confirm
  {
    match step {
      case Go(t, e) => if t in y.consumers { ConsumerFreezes(y.s, y.consumers[t], e); }
      case ControlGo(c, e) => if c in y.controls { ControlFreezes(y.s, y.controls[c], e); }
      case _ =>
    }
  }

  /** Once a cancel is armed, nothing any thread or late reply does changes the session id,
      the partial, final and committed text, the detected language or what is armed. */
  lemma {:induction false} ArmedSessionIsFrozen(y: System, steps: seq<Step>)
    requires Inv(y) && y.s.intent.Some?
    ensures SameOutcome(y.s, Run(y, steps).s)
    decreases |steps|
  {
    if steps != [] {
      StepFreezes(y, steps[0]);
      StepKeepsInv(y, steps[0]);
      ArmedSessionIsFrozen(Next(y, steps[0]), steps[1..]);
    }
  }

  lemma {:induction false} RunSplits(y: System, a: seq<Step>, b: seq<Step>)
    ensures Run(y, a + b) == Run(Run(y, a), b)
    decreases |a|
  {
    if a == [] {
      assert a + b == b;
    } else {
      assert (a + b)[1..] == a[1..] + b;
      RunSplits(Next(y, a[0]), a[1..], b);
    }
  }

  /** Over a whole run, whenever it is looked at, the same single session is armed. */
  lemma AtMostOneSessionEverArmed(first: Sid, steps: seq<Step>, i: nat, j: nat, a: Sid, b: Sid)
    requires i <= j <= |steps|
    requires a in Run(Initial(first), steps[..i]).s.requested && b in Run(Initial(first), steps[..j]).s.requested
    ensures a == b == Run(Initial(first), steps).s.sid
  {
    var yi := Run(Initial(first), steps[..i]);
    EveryRunOk(first, steps[..i]);
    assert steps[..j] == steps[..i] + steps[i..j] && steps == steps[..i] + steps[i..];
    RunSplits(Initial(first), steps[..i], steps[i..j]);
    RunSplits(Initial(first), steps[..i], steps[i..]);
    ArmedSessionIsFrozen(yi, steps[i..j]);
    ArmedSessionIsFrozen(yi, steps[i..]);
  }

  function CancelLines(log: seq<Line>): nat {
    if log == [] then 0 else CancelLines(log[..|log| - 1]) + if log[|log| - 1].CancelLine? then 1 else 0
  }

  lemma CountOne(log: seq<Line>, line: Line)
    ensures CancelLines(log + [line]) == CancelLines(log) + if line.CancelLine? then 1 else 0
  {
    assert (log + [line])[..|log|] == log;
  }

  ghost predicate MayWrite(f: Control) { f.Waiting? || (f.InHelper? && !f.wrote) }

  /** 1 if the control in flight may still write its cancel line. */
  ghost function Unwritten(y: System): nat {
    if exists c :: c in y.controls && MayWrite(y.controls[c]) then 1 else 0
  }

  lemma CountLines(log: seq<Line>, lines: seq<Line>)
    requires |lines| <= 1
    ensures CancelLines(log + lines) == CancelLines(log) + if lines != [] && lines[0].CancelLine? then 1 else 0
  {
    if lines == [] {
      assert log + lines == log;
    } else {
      CountOne(log, lines[0]);
      assert lines == [lines[0]];
    }
  }

  lemma ControlBudget(y: System, c: nat, e: Env)
    requires ControlsOk(y) && c in y.controls
    ensures var y1 := Next(y, ControlGo(c, e));
      CancelLines(y1.log) + Unwritten(y1) <= CancelLines(y.log) + Unwritten(y)
  {
    var f := y.controls[c];
    var (_, f1, lines) := GoControl(y.s, f, e);
    CountLines(y.log, lines);
    assert f1.Some? && MayWrite(f1.value) ==> MayWrite(f);
  }

  lemma ConsumerWrites(s: Stream, f: Consumer, e: Env)
    ensures var lines := GoConsumer(s, f, e).2; |lines| <= 1 && (lines != [] ==> !lines[0].CancelLine?)
  {
  }

  lemma ConsumerBudget(y: System, t: nat, e: Env)
    requires t in y.consumers
    ensures var y1 := Next(y, Go(t, e)); CancelLines(y1.log) == CancelLines(y.log) && y1.controls == y.controls
  {
    ConsumerWrites(y.s, y.consumers[t], e);
    CountLines(y.log, GoConsumer(y.s, y.consumers[t], e).2);
  }

  lemma StepAfterConfirm(y: System, step: Step)
    requires Inv(y) && y.s.confirm.Some?
    ensures var y1 := Next(y, step);
      CancelLines(y1.log) + Unwritten(y1) <= CancelLines(y.log) + Unwritten(y)
  {
    match step {
      case Go(t, e) => if t in y.consumers { ConsumerBudget(y, t, e); }
      case ControlGo(c, e) => if c in y.controls { ControlBudget(y, c, e); }
      case _ =>
    }
  }

  /** After a receipt is confirmed it is never replaced, and the only cancel line still
      possible is that of a control which had entered before. */
  lemma {:induction false} ConfirmedCancelIsNotRewritten(y: System, steps: seq<Step>)
    requires Inv(y) && y.s.confirm.Some?
    ensures Run(y, steps).s.confirm == y.s.confirm
    ensures CancelLines(Run(y, steps).log) <= CancelLines(y.log) + Unwritten(y)
    decreases |steps|
  {
    if steps != [] {
      StepKeepsInv(y, steps[0]);
      StepFreezes(y, steps[0]);
      StepAfterConfirm(y, steps[0]);
      ConfirmedCancelIsNotRewritten(Next(y, steps[0]), steps[1..]);
    }
  }

  /** A `request_cancel` that finds the receipt returns it and leaves no trace. */
  lemma ConfirmedEntryWritesNothing(y: System, c: nat)
    requires Inv(y) && y.s.confirm.Some? && c !in y.controls
    ensures EnterRequestCancel(y.s) == (y.s, AlreadyConfirmed(y.s.confirm.value.receipt))
    ensures Next(y, ControlEnter(c)) == y
  {
  }

  ghost predicate EndPending(f: Consumer, sid: Sid) { (f.Captured? || f.InFlight?) && f.op == End && f.sid == sid }

  ghost predicate NoEndPending(y: System) {
    forall t :: t in y.consumers ==> !EndPending(y.consumers[t], y.s.sid)
  }

  /** How many end lines were written for a session. */
  function EndLines(log: seq<Line>, sid: Sid): nat { multiset(log)[EndLine(sid)] }

  lemma EndLinesAppend(log: seq<Line>, more: seq<Line>, sid: Sid)
    ensures EndLines(log + more, sid) == EndLines(log, sid) + EndLines(more, sid)
  {
  }

  lemma ConsumerSendsNoEnd(s: Stream, f: Consumer, e: Env)
    requires s.intent == Some(s.sid) && s.sid in s.requested && !EndPending(f, s.sid)
    ensures var (s1, f1, lines) := GoConsumer(s, f, e);
      EndLines(lines, s.sid) == 0 && (f1.Some? ==> !EndPending(f1.value, s.sid))
  {
    assert EndLine(s.sid) !in GoConsumer(s, f, e).2;
  }

  lemma ControlSendsNoEnd(s: Stream, f: Control, e: Env)
    ensures EndLines(GoControl(s, f, e).2, s.sid) == 0
  {
    assert EndLine(s.sid) !in GoControl(s, f, e).2;
  }

  lemma StepSendsNoEnd(y: System, step: Step)
    requires Inv(y) && y.s.confirm.Some? && NoEndPending(y)
    ensures var y1 := Next(y, step);
      NoEndPending(y1) && EndLines(y1.log, y.s.sid) == EndLines(y.log, y.s.sid)
  {
    StepFreezes(y, step);
    match step {
      case Go(t, e) =>
        if t in y.consumers {
          ConsumerSendsNoEnd(y.s, y.consumers[t], e);
          EndLinesAppend(y.log, GoConsumer(y.s, y.consumers[t], e).2, y.s.sid);
        }
      case ControlGo(c, e) =>
        if c in y.controls {
          ControlSendsNoEnd(y.s, y.controls[c], e);
          EndLinesAppend(y.log, GoControl(y.s, y.controls[c], e).2, y.s.sid);
        }
      case _ =>
    }
  }

  /** No end line is written any more for a session whose cancel is confirmed, unless a close
      or a finalize had taken its decision before the confirmation. */
  lemma {:induction false} NoEndAfterConfirm(y: System, steps: seq<Step>)
    requires Inv(y) && y.s.confirm.Some? && NoEndPending(y)
    ensures EndLines(Run(y, steps).log, y.s.sid) == EndLines(y.log, y.s.sid)
    decreases |steps|
  {
    if steps != [] {
      StepSendsNoEnd(y, steps[0]);
      StepFreezes(y, steps[0]);
      StepKeepsInv(y, steps[0]);
      NoEndAfterConfirm(Next(y, steps[0]), steps[1..]);
    }
  }

  /** Such a close or finalize can still write its line, whatever has happened since. */
  lemma {:induction false} PendingEndIsSent(y: System, t: nat) returns (steps: seq<Step>)
    requires t in y.consumers && EndPending(y.consumers[t], y.s.sid)
    ensures EndLines(Run(y, steps).log, y.s.sid) == EndLines(y.log, y.s.sid) + 1
    decreases y.consumers[t].Captured?
  {
    var step := Go(t, GoOn(""));
    var y1 := Next(y, step);
    steps := [step];
    if y.consumers[t].Captured? {
      assert y1.consumers[t] == InFlight(End, y.s.sid) && y1.s.sid == y.s.sid && y1.log == y.log + [];
      EndLinesAppend(y.log, [], y.s.sid);
      var rest := PendingEndIsSent(y1, t);
      steps := [step] + rest;
      assert steps[1..] == rest;
    } else {
      EndLinesAppend(y.log, [EndLine(y.s.sid)], y.s.sid);
      assert steps[1..] == [];
    }
  }

  /** An end line can still be written for a confirmed session exactly when some close or
      finalize is between its decision and its write. */
  lemma LateEndExactlyWhenPending(y: System)
    requires Inv(y) && y.s.confirm.Some?
    ensures (exists steps :: EndLines(Run(y, steps).log, y.s.sid) != EndLines(y.log, y.s.sid)) <==> !NoEndPending(y)
  {
    if NoEndPending(y) {
      forall steps ensures EndLines(Run(y, steps).log, y.s.sid) == EndLines(y.log, y.s.sid) {
        NoEndAfterConfirm(y, steps);
      }
    } else {
      var t :| t in y.consumers && EndPending(y.consumers[t], y.s.sid);
      var steps := PendingEndIsSent(y, t);
    }
  }

  lemma RunOneMore(y: System, steps: seq<Step>, step: Step)
    ensures Run(y, steps + [step]) == Next(Run(y, steps), step)
  {
    RunSplits(y, steps, [step]);
    assert [step][1..] == [];
  }

  /** The system of `LateEndExists` at rest: begun, with the given confirmation. */
  ghost function Begun(first: Sid): System {
    System(InitialStream(first).(begun := {first}), map[], map[], [BeginLine(first)], [])
  }

  lemma Extend(y0: System, steps: seq<Step>, step: Step) returns (steps1: seq<Step>, y: System)
    ensures steps1 == steps + [step] && y == Run(y0, steps1) == Next(Run(y0, steps), step)
  {
    RunOneMore(y0, steps, step);
    steps1, y := steps + [step], Next(Run(y0, steps), step);
  }

  lemma BeginWritten(first: Sid) returns (steps: seq<Step>)
    ensures |steps| == 3
    ensures Run(Initial(first), steps)
         == System(InitialStream(first).(inflight := map[first := 1]), map[0 := Written(Begin, first)], map[], [BeginLine(first)], [])
  {
    var y, s, ok := Initial(first), InitialStream(first), GoOn("");
    var s1, a := Extend(y, [], Go(0, ok));
    assert a == System(s, map[0 := Captured(Begin, first)], map[], [], []);
    var s2, b := Extend(y, s1, Go(0, ok));
    assert b == System(s.(inflight := map[first := 1]), map[0 := InFlight(Begin, first)], map[], [], []);
    var s3, c := Extend(y, s2, Go(0, ok));
    steps := s3;
  }

  lemma BeginAcked(y: System, first: Sid) returns (steps: seq<Step>)
    requires y == System(InitialStream(first).(inflight := map[first := 1]), map[0 := Written(Begin, first)], map[], [BeginLine(first)], [])
    ensures |steps| == 3 && Run(y, steps) == Begun(first)
  {
    var ok, ack := GoOn(""), Reply(BeginAck, false, first, "", None, 0);
    var s1, a := Extend(y, [], Go(0, ok));
    assert a == y.(s := y.s.(begun := {first}), consumers := map[0 := BarrierSet(first)]);
    var s2, b := Extend(y, s1, Go(0, Gives(ack)));
    assert b == a.(s := a.s.(inflight := map[]), consumers := map[0 := Replied(Begin, first, ack)]);
    var s3, c := Extend(y, s2, Go(0, ok));
    steps := s3;
  }

  lemma BeginRun(first: Sid) returns (steps: seq<Step>)
    ensures |steps| == 6 && Run(Initial(first), steps) == Begun(first)
  {
    var written := BeginWritten(first);
    var acked := BeginAcked(Run(Initial(first), written), first);
    RunSplits(Initial(first), written, acked);
    steps := written + acked;
  }

  lemma CancelRun(first: Sid, receipt: Reply) returns (steps: seq<Step>, y: System)
    requires Matches(receipt, first)
    ensures |steps| == 6 && y == Run(Begun(first), steps) && y.s.confirm.Some?
    ensures y.consumers == map[1 := Captured(End, first)] && y.log == [BeginLine(first), CancelLine(first)]
  {
    var y0, ok := Begun(first), GoOn("");
    var s1, a := Extend(y0, [], Start(1, CloseCall));
    assert a == y0.(consumers := map[1 := Captured(End, first)]);
    var s2, b := Extend(y0, s1, ControlEnter(0));
    assert b == a.(s := b.s, controls := map[0 := Waiting(first)]) && first in b.s.requested && b.s.intent == Some(first);
    var s3, c := Extend(y0, s2, ControlGo(0, ok));
    assert c == b.(controls := map[0 := InHelper(first, false)]);
    var s4, d := Extend(y0, s3, ControlGo(0, ok));
    assert d == c.(controls := map[0 := InHelper(first, true)], log := [BeginLine(first), CancelLine(first)]);
    var s5, f := Extend(y0, s4, ControlGo(0, Gives(receipt)));
    assert f == d.(controls := map[0 := HasReceipt(first, receipt)]);
    steps, y := Extend(y0, s5, ControlGo(0, ok));
  }

  /** The exception is real: a close that looked before the cancel was armed sends its end
      after the receipt has been confirmed. */
  lemma LateEndExists(first: Sid) returns (steps: seq<Step>, k: nat)
    ensures k <= |steps| && Run(Initial(first), steps[..k]).s.confirm.Some?
    ensures EndLine(first) !in Run(Initial(first), steps[..k]).log && EndLine(first) in Run(Initial(first), steps).log
  {
    var begin := BeginRun(first);
    var cancel, y := CancelRun(first, Reply(Cancelled, true, first, "", None, 0));
    RunSplits(Initial(first), begin, cancel);
    RunOneMore(Initial(first), begin + cancel, Go(1, GoOn("")));
    RunOneMore(Initial(first), begin + cancel + [Go(1, GoOn(""))], Go(1, GoOn("")));
    steps, k := begin + cancel + [Go(1, GoOn(""))] + [Go(1, GoOn(""))], 12;
    assert steps[..k] == begin + cancel;
  }

  // ------------------------------------------------------------------
  // What becomes of the text
  // ------------------------------------------------------------------

  /** A partial or final reply for the current session, no cancel armed, becomes its text. */
  lemma ReplyBecomesText(y: System, t: nat, e: Env)
    requires t in y.consumers && y.consumers[t].Replied? && y.consumers[t].op.Chunk?
    requires y.consumers[t].sid == y.s.sid && y.s.sid !in y.s.requested
    ensures var (r, s1) := (y.consumers[t].reply, Next(y, Go(t, e)).s);
      && (r.kind == Partial ==> s1.partialText == r.text && s1.finalText == y.s.finalText && s1.closed == y.s.closed)
      && (r.kind == Final ==> s1.finalText == r.text && s1.partialText == y.s.partialText && s1.closed)
      && (r.kind in {Partial, Final} ==>
            s1.lang == if r.lang.Some? && r.lang.value != "" then r.lang else y.s.lang)
  {
  }

  /** A rotation by the worker keeps the carried-over audio, if that is less than there is, and
      all text. */
  lemma CarryKeepsText(y: System, t: nat, e: Env)
    requires t in y.consumers && y.consumers[t].Replied? && y.consumers[t].op.Chunk?
    requires y.consumers[t].sid == y.s.sid && y.s.sid !in y.s.requested && y.consumers[t].reply.kind == SegmentRotation
    ensures var (carry, s1) := (y.consumers[t].reply.carry, Next(y, Go(t, e)).s);
      s1 == y.s.(audio := if 0 < carry < y.s.audio then carry else y.s.audio)
  {
  }

  /** A segment that was finalized rotates with its final text, any other with what became of
      its partial text. */
  lemma SegmentHasItsText(y: System, t: nat, e: Env)
    requires t in y.consumers && y.consumers[t].SegmentDone?
    ensures var y1 := Next(y, Go(t, e));
      && t in y1.consumers && y1.consumers[t].RotateReady? && y1.consumers[t].sid == y.consumers[t].sid
      && y1.consumers[t].seg == if y.consumers[t].final then y.s.finalText else if e.GoOn? then e.promoted else ""
  {
  }

  /** All segments, joined as the rotations join them. */
  function Joined(segments: seq<string>): string {
    if segments == [] then "" else JoinCommitted(Joined(segments[..|segments| - 1]), segments[|segments| - 1])
  }

  /** The segments one after the other, the non-empty ones with one space between them. */
  function Spaced(segments: seq<string>): string {
    if segments == [] then ""
    else
      var front, last := Spaced(segments[..|segments| - 1]), segments[|segments| - 1];
      front + (if front != "" && last != "" then " " else "") + last
  }

  function SpokenIn(segments: seq<string>): string {
    if segments == [] then "" else SpokenIn(segments[..|segments| - 1]) + Text.Spoken(segments[|segments| - 1])
  }

  lemma JoinIs(c: string, g: string)
    requires Text.Stripped(c) && Text.Stripped(g)
    ensures JoinCommitted(c, g) == c + (if c != "" && g != "" then " " else "") + g && Text.Stripped(JoinCommitted(c, g))
  {
    var all := c + " " + g;
    if c != "" && g != "" {
      assert all[0] == c[0] && all[|all| - 1] == g[|g| - 1];
      Text.StripIsStripped(all);
    }
  }

  lemma JoinSpeaks(c: string, g: string)
    ensures Text.Spoken(JoinCommitted(c, g)) == Text.Spoken(c) + Text.Spoken(g)
  {
    if c != "" && g != "" {
      Text.StripSpoken(c + " " + g);
      Text.SpacedSpoken(c, g);
    } else if g == "" {
      assert Text.Spoken(c) + "" == Text.Spoken(c);
    } else {
      assert "" + Text.Spoken(g) == Text.Spoken(g);
    }
  }

  lemma {:induction false} JoinedIsSpaced(segments: seq<string>)
    requires forall k :: 0 <= k < |segments| ==> Text.Stripped(segments[k])
    ensures Joined(segments) == Spaced(segments) && Text.Stripped(Joined(segments))
  {
    if segments != [] {
      var n := |segments| - 1;
      JoinedIsSpaced(segments[..n]);
      JoinIs(Joined(segments[..n]), segments[n]);
    }
  }

  lemma {:induction false} JoinedSpeaks(segments: seq<string>)
    ensures Text.Spoken(Joined(segments)) == SpokenIn(segments)
  {
    if segments != [] {
      var n := |segments| - 1;
      JoinedSpeaks(segments[..n]);
      JoinSpeaks(Joined(segments[..n]), segments[n]);
    }
  }

  lemma HandleCommitsNothing(s: Stream, op: Op, sid: Sid, r: Reply)
    ensures Handle(s, op, sid, r).0.committed == s.committed
  {
  }

  lemma ConsumerCommits(s: Stream, f: Consumer, e: Env)
    ensures SegmentOf(s, f) == [] ==> GoConsumer(s, f, e).0.committed == s.committed
    ensures SegmentOf(s, f) != [] ==>
      SegmentOf(s, f) == [f.seg] && GoConsumer(s, f, e).0.committed == JoinCommitted(s.committed, f.seg)
  {
    match f {
      case Replied(op, sid, r) => HandleCommitsNothing(s, op, sid, r);
      case RotateReady(sid, seg) => assert GoConsumer(s, f, e).0 == CommitRotation(s, sid, seg);
      case _ =>
    }
  }

  lemma JoinedSnoc(segments: seq<string>, g: string)
    ensures Joined(segments + [g]) == JoinCommitted(Joined(segments), g)
  {
    assert (segments + [g])[..|segments|] == segments;
  }

  lemma ControlCommitsNothing(s: Stream, f: Control, e: Env)
    ensures GoControl(s, f, e).0.committed == s.committed
  {
  }

  lemma StepCommits(y: System, step: Step)
    requires y.s.committed == Joined(y.segments)
    ensures Next(y, step).s.committed == Joined(Next(y, step).segments)
  {
    if step.Go? && step.t in y.consumers {
      var f := y.consumers[step.t];
      ConsumerCommits(y.s, f, step.e);
      if SegmentOf(y.s, f) == [] {
        assert y.segments + [] == y.segments;
      } else {
        JoinedSnoc(y.segments, f.seg);
      }
    } else {
      OthersCommitNothing(y, step);
    }
  }

  lemma OthersCommitNothing(y: System, step: Step)
    requires !(step.Go? && step.t in y.consumers)
    ensures Next(y, step).s.committed == y.s.committed && Next(y, step).segments == y.segments
  {
    match step {
      case ControlGo(c, e) => if c in y.controls { ControlCommitsNothing(y.s, y.controls[c], e); }
      case _ =>
    }
  }

  lemma {:induction false} RunCommits(y: System, steps: seq<Step>)
    requires y.s.committed == Joined(y.segments)
    ensures Run(y, steps).s.committed == Joined(Run(y, steps).segments)
    decreases |steps|
  {
    if steps != [] {
      StepCommits(y, steps[0]);
      RunCommits(Next(y, steps[0]), steps[1..]);
    }
  }

  /** Over every run nothing that was committed is lost: up to spaces the committed text is the
      text of all segments rotated so far, in order; and when they are stripped, it is these
      segments with single spaces between the non-empty ones. */
  lemma CommittedTextIsKept(first: Sid, steps: seq<Step>)
    ensures var y := Run(Initial(first), steps);
      && Text.Spoken(y.s.committed) == SpokenIn(y.segments)
      && ((forall k :: 0 <= k < |y.segments| ==> Text.Stripped(y.segments[k])) ==> y.s.committed == Spaced(y.segments))
  {
    var y := Run(Initial(first), steps);
    RunCommits(Initial(first), steps);
    JoinedSpeaks(y.segments);
    if forall k :: 0 <= k < |y.segments| ==> Text.Stripped(y.segments[k]) { JoinedIsSpaced(y.segments); }
  }
}

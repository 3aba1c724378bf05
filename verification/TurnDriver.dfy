/**
 The LLM/tool pump: `run_turn` of turn_driver.py, with `ToolRegistry.dispatch`.

 What the model sends, when the host wants to abort, which tools are registered, what JSON
 arguments are and what tools answer are parameters.  The sinks are logs; they and the hooks
 do not raise.  Rounds with tool calls add exchanges: the assistant's message and one result
 for each of its calls.
 */
module TurnDriver {
  import opened Common

  // ------------------------------------------------------------------
  // What comes from outside
  // ------------------------------------------------------------------

  datatype Event =
    | Text(text: string)
    | ToolDelta(index: Option<int>, id: string, name: string, arguments: string)
    | Finish(reason: string)
    | Other

  /** The events of one round; afterwards the stream ends or raises (a timeout included). */
  datatype Stream = Stream(events: seq<Event>, raises: bool)

  /** A registered tool, and a tool's answer: whether it says `success: False`, and as JSON. */
  datatype Tool = Tool(preamble: string, template: bool, completion: string, remote: bool)
  datatype Answer = Answer(failed: bool, json: string)

  type Registry = string -> Option<Tool>

  /** What `json.loads` makes of the arguments: an object (or something falsy, which counts as
      an empty one), any other value, a `JSONDecodeError`, or some other exception. */
  datatype Parsed = Object | OtherValue | Malformed | Refused

  /** The tools of a turn.  `run(n)` is the answer of the n-th tool that is run, whichever it is:
      none when it is no JSON value. */
  datatype Tools = Tools(registry: Registry, parse: string -> Parsed, run: nat -> Option<Answer>)

  // ------------------------------------------------------------------
  // What the sinks get
  // ------------------------------------------------------------------

  datatype Call = Call(id: string, name: string, arguments: string)

  datatype Message =
    | ToolCalls(said: Option<string>, calls: seq<Call>)
    | AssistantText(text: string)
    | ToolResult(id: string, content: string)

  datatype Say =
    | Spoke(text: string)
    | Announced(round: nat, name: string, text: string)
    | Completion(text: string)
    | Flushed

  // ------------------------------------------------------------------
  // The tool calls of a round
  // ------------------------------------------------------------------

  datatype Acc = Acc(id: string, name: string, arguments: string)

  const BLANK: Acc := Acc("", "", "")

  function IndexOf(e: Event): int
    requires e.ToolDelta?
  {
    if e.index.None? then 0 else e.index.value
  }

  /** Every index that some delta names. */
  function Indices(events: seq<Event>): set<int> {
    if events == [] then {}
    else
      var n := |events| - 1;
      Indices(events[..n]) + if events[n].ToolDelta? then {IndexOf(events[n])} else {}
  }

  predicate IsDelta(e: Event, index: int) { e.ToolDelta? && IndexOf(e) == index }

  /** All argument deltas of an index, in order. */
  function ArgumentsOf(events: seq<Event>, index: int): string {
    if events == [] then ""
    else
      var n := |events| - 1;
      ArgumentsOf(events[..n], index) + if IsDelta(events[n], index) then events[n].arguments else ""
  }

  /** The last id that is not empty, and the last name. */
  function IdOf(events: seq<Event>, index: int): string {
    if events == [] then ""
    else
      var n := |events| - 1;
      if IsDelta(events[n], index) && events[n].id != "" then events[n].id else IdOf(events[..n], index)
  }

  function NameOf(events: seq<Event>, index: int): string {
    if events == [] then ""
    else
      var n := |events| - 1;
      if IsDelta(events[n], index) && events[n].name != "" then events[n].name else NameOf(events[..n], index)
  }

  function TextOf(events: seq<Event>): string {
    if events == [] then ""
    else
      var n := |events| - 1;
      TextOf(events[..n]) + if events[n].Text? then events[n].text else ""
  }

  function ReasonOf(events: seq<Event>): Option<string> {
    if events == [] then None
    else
      var n := |events| - 1;
      if events[n].Finish? then Some(events[n].reason) else ReasonOf(events[..n])
  }

  /** The slots after the events: one for every index, each with what its own deltas say. */
  ghost predicate Accumulated(events: seq<Event>, accs: map<int, Acc>) {
    && accs.Keys == Indices(events)
    && forall i :: i in accs ==> accs[i] == Acc(IdOf(events, i), NameOf(events, i), ArgumentsOf(events, i))
  }

  lemma IndicesSnoc(events: seq<Event>, e: Event)
    ensures Indices(events + [e]) == Indices(events) + if e.ToolDelta? then {IndexOf(e)} else {}
  {
    assert (events + [e])[..|events|] == events;
  }

  lemma OfSnoc(events: seq<Event>, e: Event, i: int)
    ensures ArgumentsOf(events + [e], i) == ArgumentsOf(events, i) + if IsDelta(e, i) then e.arguments else ""
    ensures IdOf(events + [e], i) == if IsDelta(e, i) && e.id != "" then e.id else IdOf(events, i)
    ensures NameOf(events + [e], i) == if IsDelta(e, i) && e.name != "" then e.name else NameOf(events, i)
  {
    assert (events + [e])[..|events|] == events;
  }

  lemma {:induction false} NothingOf(events: seq<Event>, i: int)
    requires i !in Indices(events)
    ensures ArgumentsOf(events, i) == IdOf(events, i) == NameOf(events, i) == ""
  {
    if events != [] {
      var n := |events| - 1;
      assert events == events[..n] + [events[n]];
      IndicesSnoc(events[..n], events[n]);
      NothingOf(events[..n], i);
    }
  }

  /** A delta goes into the slot of its index and nowhere else. */
  lemma DeltaAccumulates(events: seq<Event>, e: Event, accs: map<int, Acc>, slot: Acc)
    requires Accumulated(events, accs) && e.ToolDelta?
    requires var was := if IndexOf(e) in accs then accs[IndexOf(e)] else BLANK;
      slot == Acc(if e.id != "" then e.id else was.id, if e.name != "" then e.name else was.name,
                  was.arguments + e.arguments)
    ensures Accumulated(events + [e], accs[IndexOf(e) := slot])
  {
    var now, i := accs[IndexOf(e) := slot], IndexOf(e);
    IndicesSnoc(events, e);
    if i !in accs { NothingOf(events, i); }
    forall j | j in now
      ensures now[j] == Acc(IdOf(events + [e], j), NameOf(events + [e], j), ArgumentsOf(events + [e], j))
    {
      OfSnoc(events, e, j);
      assert j != i ==> ArgumentsOf(events, j) + "" == ArgumentsOf(events, j);
    }
  }

  lemma OtherAccumulates(events: seq<Event>, e: Event, accs: map<int, Acc>)
    requires Accumulated(events, accs) && !e.ToolDelta?
    ensures Accumulated(events + [e], accs)
  {
    IndicesSnoc(events, e);
    forall j | j in accs
      ensures accs[j] == Acc(IdOf(events + [e], j), NameOf(events + [e], j), ArgumentsOf(events + [e], j))
    {
      OfSnoc(events, e, j);
      assert ArgumentsOf(events, j) + "" == ArgumentsOf(events, j);
    }
  }

  // ------------------------------------------------------------------
  // In ascending order
  // ------------------------------------------------------------------

  ghost predicate IsLeast(m: int, s: set<int>) { m in s && forall x :: x in s ==> m <= x }

  lemma Member<T>(s: set<T>) returns (a: T)
    requires s != {}
    ensures a in s
  {
    a :| a in s;
  }

  lemma {:induction false} LeastExists(s: set<int>) returns (m: int)
    requires s != {}
    ensures IsLeast(m, s)
    decreases |s|
  {
    var a := Member(s);
    var rest := s - {a};
    if rest == {} {
      m := a;
      assert forall x :: x in s ==> x == a || x in rest;
    } else {
      m := LeastExists(rest);
      assert forall x :: x in s ==> x == a || x in rest;
      if a < m { m := a; }
    }
  }

  /** The elements of a set in ascending order. */
  ghost predicate IsAscending(r: seq<int>, s: set<int>) {
    && |r| == |s|
    && (forall i, j :: 0 <= i < j < |r| ==> r[i] < r[j])
    && forall x :: x in r <==> x in s
  }

  lemma AscendingFirst(r: seq<int>, s: set<int>, m: int)
    requires IsAscending(r, s) && IsLeast(m, s)
    ensures r != [] && r[0] == m && IsAscending(r[1..], s - {m})
  {
    assert m in r;
    var k :| 0 <= k < |r| && r[k] == m;
    assert r[0] in s && m <= r[0];
    assert forall x :: x in r[1..] <==> x in r && x != m;
  }

  /** There is only one such order. */
  lemma {:induction false} AscendingUnique(r: seq<int>, q: seq<int>, s: set<int>)
    requires IsAscending(r, s) && IsAscending(q, s)
    ensures r == q
    decreases |r|
  {
    if s != {} {
      var m := LeastExists(s);
      AscendingFirst(r, s, m);
      AscendingFirst(q, s, m);
      AscendingUnique(r[1..], q[1..], s - {m});
      assert r == [m] + r[1..] && q == [m] + q[1..];
    }
  }

  /** `sorted(accs)`: the least that is left, again and again. */
  method Sorted(keys: set<int>) returns (r: seq<int>)
    ensures IsAscending(r, keys)
  {
    r := [];
    var rest := keys;
    while rest != {}
      invariant |r| + |rest| == |keys| && forall x :: x in keys <==> x in r || x in rest
      invariant forall x, y :: x in r && y in rest ==> x < y
      invariant forall i, j :: 0 <= i < j < |r| ==> r[i] < r[j]
      decreases |rest|
    {
      ghost var least := LeastExists(rest);
      assert IsLeast(least, rest);
      var m :| m in rest && forall x :: x in rest ==> m <= x;
      assert forall i :: 0 <= i < |r| ==> r[i] in r;
      r := r + [m];
      rest := rest - {m};
    }
  }

  function Decimal(n: int): string
    decreases if n < 0 then 1 - n else n
  {
    if n < 0 then "-" + Decimal(-n)
    else if n < 10 then ["0123456789"[n]]
    else Decimal(n / 10) + ["0123456789"[n % 10]]
  }

  function Payload(acc: Acc, index: int): Call {
    Call(if acc.id != "" then acc.id else "call_" + Decimal(index), acc.name,
         if acc.arguments != "" then acc.arguments else "{}")
  }

  function CallOf(events: seq<Event>, i: int): Call {
    Payload(Acc(IdOf(events, i), NameOf(events, i), ArgumentsOf(events, i)), i)
  }

  /** The calls of a round: one per index in ascending order, each with the id and name last
      given and all of its argument deltas. */
  ghost predicate AreCalls(events: seq<Event>, calls: seq<Call>, indices: seq<int>) {
    && IsAscending(indices, Indices(events)) && |calls| == |indices|
    && forall k :: 0 <= k < |calls| ==> calls[k] == CallOf(events, indices[k])
  }

  ghost predicate CallsOf(events: seq<Event>, calls: seq<Call>) {
    exists indices :: AreCalls(events, calls, indices)
  }

  /** The events say what is called. */
  lemma CallsUnique(events: seq<Event>, a: seq<Call>, b: seq<Call>)
    requires CallsOf(events, a) && CallsOf(events, b)
    ensures a == b
  {
    var i :| AreCalls(events, a, i);
    var j :| AreCalls(events, b, j);
    AscendingUnique(i, j, Indices(events));
  }

  lemma SomeIndex(indices: seq<int>, s: set<int>)
    requires IsAscending(indices, s) && s != {}
    ensures indices != []
  {
    var i := Member(s);
    assert i in indices;
  }

  /** What the slots come to, in the order of the indices. */
  ghost predicate ArePayloads(accs: map<int, Acc>, indices: seq<int>, calls: seq<Call>) {
    && |calls| == |indices|
    && forall k :: 0 <= k < |calls| ==> indices[k] in accs && calls[k] == Payload(accs[indices[k]], indices[k])
  }

  lemma PayloadsAreCalls(events: seq<Event>, accs: map<int, Acc>, indices: seq<int>, calls: seq<Call>)
    requires Accumulated(events, accs) && IsAscending(indices, accs.Keys) && ArePayloads(accs, indices, calls)
    ensures CallsOf(events, calls)
  {
    forall k | 0 <= k < |calls|
      ensures calls[k] == CallOf(events, indices[k])
    {
      var i := indices[k];
      assert i in accs && accs[i] == Acc(IdOf(events, i), NameOf(events, i), ArgumentsOf(events, i));
    }
    assert AreCalls(events, calls, indices);
  }

  /** The slots, by their indices in ascending order. */
  method ListCalls(accs: map<int, Acc>) returns (calls: seq<Call>, ghost indices: seq<int>)
    requires accs != map[]
    ensures IsAscending(indices, accs.Keys) && ArePayloads(accs, indices, calls) && calls != []
  {
    var order := Sorted(accs.Keys);
    SomeIndex(order, accs.Keys);
    calls := [];
    for k := 0 to |order|
      invariant |calls| == k
      invariant forall j :: 0 <= j < k ==> order[j] in accs && calls[j] == Payload(accs[order[j]], order[j])
    {
      var i := order[k];
      assert i in order;
      calls := calls + [Payload(accs[i], i)];
    }
    indices := order;
  }

  method CommitCalls(ghost events: seq<Event>, accs: map<int, Acc>) returns (calls: seq<Call>)
    requires Accumulated(events, accs) && accs != map[]
    ensures CallsOf(events, calls) && calls != []
  {
    ghost var indices;
    calls, indices := ListCalls(accs);
    PayloadsAreCalls(events, accs, indices, calls);
  }

  // ------------------------------------------------------------------
  // What the calls come to
  // ------------------------------------------------------------------

  /** Whether a tool is run for the call: a local one only takes an object. */
  predicate RunsTool(t: Tools, call: Call) {
    && t.registry(call.name).Some?
    && (t.parse(call.arguments).Object? || (t.parse(call.arguments).OtherValue? && t.registry(call.name).value.remote))
  }

  /** What a call comes to after n tools were run: its answer, or an exception (none). */
  function AnswerOf(t: Tools, n: nat, call: Call): Option<Answer> {
    if t.parse(call.arguments).Malformed? then Some(Answer(true, "invalid arguments JSON: " + call.arguments))
    else if t.parse(call.arguments).Refused? then None
    else if t.registry(call.name).None? then Some(Answer(true, "unknown tool: " + call.name))
    else if RunsTool(t, call) then t.run(n)
    else None
  }

  /** How many tools the calls run. */
  function Runs(t: Tools, calls: seq<Call>): nat {
    if calls == [] then 0
    else
      var n := |calls| - 1;
      Runs(t, calls[..n]) + if RunsTool(t, calls[n]) then 1 else 0
  }

  /** What the k-th of the calls comes to if the ones before it were answered. */
  function AnswerAt(t: Tools, first: nat, calls: seq<Call>, k: nat): Option<Answer>
    requires k < |calls|
  {
    AnswerOf(t, first + Runs(t, calls[..k]), calls[k])
  }

  /** The answers, up to the first call that raises. */
  function Answers(t: Tools, first: nat, calls: seq<Call>): (r: seq<Answer>)
    ensures |r| <= |calls|
  {
    if calls == [] then []
    else
      var n := |calls| - 1;
      var front := Answers(t, first, calls[..n]);
      if |front| == n && AnswerAt(t, first, calls, n).Some? then front + [AnswerAt(t, first, calls, n).value] else front
  }

  lemma {:induction false} AnswersAre(t: Tools, first: nat, calls: seq<Call>)
    ensures var r := Answers(t, first, calls);
      && (forall k :: 0 <= k < |r| ==> AnswerAt(t, first, calls, k) == Some(r[k]))
      && (|r| < |calls| ==> AnswerAt(t, first, calls, |r|).None?)
  {
    if calls != [] {
      var n := |calls| - 1;
      AnswersAre(t, first, calls[..n]);
      forall k | 0 <= k < n
        ensures AnswerAt(t, first, calls[..n], k) == AnswerAt(t, first, calls, k)
      {
        assert calls[..n][..k] == calls[..k];
      }
    }
  }

  /** The calls of one round, and how many tools had been run before it. */
  datatype Round = Round(first: nat, calls: seq<Call>)

  function AnswersIn(t: Tools, r: Round): seq<Answer> { Answers(t, r.first, r.calls) }

  /** Every call of the round was answered. */
  predicate Full(t: Tools, r: Round) { |AnswersIn(t, r)| == |r.calls| }

  ghost predicate NoneRaises(t: Tools, r: Round) {
    forall k: nat :: k < |r.calls| ==> AnswerAt(t, r.first, r.calls, k).Some?
  }

  lemma FullExactlyWhen(t: Tools, r: Round)
    ensures Full(t, r) <==> NoneRaises(t, r)
  {
    AnswersAre(t, r.first, r.calls);
  }

  function Described(registry: Registry, name: string, failed: bool): Dispatched {
    if registry(name).Some? then Dispatched(name, registry(name).value.template, registry(name).value.completion, failed)
    else Dispatched(name, false, "", failed)
  }

  /** What the registry and the answers say of the calls that were answered. */
  function DispatchedIn(t: Tools, r: Round): seq<Dispatched> {
    var answers := AnswersIn(t, r);
    seq(|answers|, k requires 0 <= k < |answers| => Described(t.registry, r.calls[k].name, answers[k].failed))
  }

  function ResultsIn(t: Tools, r: Round): seq<Message> {
    var answers := AnswersIn(t, r);
    seq(|answers|, k requires 0 <= k < |answers| => ToolResult(r.calls[k].id, answers[k].json))
  }

  /** What went out for a round: ds and results for the calls up to one that raises. */
  ghost predicate Went(t: Tools, r: Round, ds: seq<Dispatched>, results: seq<Message>, raised: bool) {
    && ds == DispatchedIn(t, r) && results == ResultsIn(t, r)
    && (raised <==> !Full(t, r)) && (raised <==> !NoneRaises(t, r))
  }

  ghost predicate Fits(t: Tools, first: nat, calls: seq<Call>, k: nat, d: Dispatched, result: Message)
    requires k < |calls|
  {
    match AnswerAt(t, first, calls, k)
    case None => false
    case Some(a) => d == Described(t.registry, calls[k].name, a.failed) && result == ToolResult(calls[k].id, a.json)
  }

  /** Each of the first calls was answered, and this is what went out for it. */
  ghost predicate SoFar(t: Tools, first: nat, calls: seq<Call>, ds: seq<Dispatched>, results: seq<Message>) {
    |ds| == |results| <= |calls| && forall k: nat :: k < |ds| ==> Fits(t, first, calls, k, ds[k], results[k])
  }

  lemma OneMoreAnswer(t: Tools, first: nat, calls: seq<Call>, ds: seq<Dispatched>, results: seq<Message>, d: Dispatched, result: Message)
    requires SoFar(t, first, calls, ds, results) && |ds| < |calls| && Fits(t, first, calls, |ds|, d, result)
    ensures SoFar(t, first, calls, ds + [d], results + [result])
  {
  }

  lemma RunsOn(t: Tools, calls: seq<Call>, k: nat)
    requires k < |calls|
    ensures calls[..k + 1] == calls[..k] + [calls[k]]
    ensures Runs(t, calls[..k + 1]) == Runs(t, calls[..k]) + if RunsTool(t, calls[k]) then 1 else 0
  {
    assert calls[..k + 1][..k] == calls[..k];
  }

  lemma AllWent(t: Tools, first: nat, calls: seq<Call>, ds: seq<Dispatched>, results: seq<Message>)
    requires SoFar(t, first, calls, ds, results) && (|ds| < |calls| ==> AnswerAt(t, first, calls, |ds|).None?)
    ensures Went(t, Round(first, calls), ds, results, |ds| < |calls|) && calls[..|calls|] == calls
  {
    var r, answers := Round(first, calls), Answers(t, first, calls);
    AnswersAre(t, first, calls);
    FullExactlyWhen(t, r);
    assert |answers| < |ds| ==> Fits(t, first, calls, |answers|, ds[|answers|], results[|answers|]);
    assert |answers| == |ds|;
    forall k: nat | k < |ds| ensures ds[k] == DispatchedIn(t, r)[k] && results[k] == ResultsIn(t, r)[k] {
      assert Fits(t, first, calls, k, ds[k], results[k]);
    }
  }

  // ------------------------------------------------------------------
  // What may be in the message list
  // ------------------------------------------------------------------

  /** A call message with its results: as many as calls, in the same order, with the same ids. */
  ghost predicate Answered(calls: seq<Call>, results: seq<Message>) {
    && |results| == |calls|
    && forall k :: 0 <= k < |calls| ==> results[k].ToolResult? && results[k].id == calls[k].id
  }

  /** Every call message is followed by exactly its results, and there are no others. */
  ghost predicate WellFormed(messages: seq<Message>) {
    if messages == [] then true
    else match messages[0]
      case ToolCalls(_, calls) =>
        |messages| > |calls| && Answered(calls, messages[1..1 + |calls|]) && WellFormed(messages[1 + |calls|..])
      case AssistantText(_) => WellFormed(messages[1..])
      case ToolResult(_, _) => false
  }

  lemma {:induction false} WellFormedAppend(a: seq<Message>, b: seq<Message>)
    requires WellFormed(a)
    ensures WellFormed(a + b) <==> WellFormed(b)
    decreases |a|
  {
    if a == [] {
      assert a + b == b;
    } else {
      var n := if a[0].ToolCalls? then 1 + |a[0].calls| else 1;
      WellFormedAppend(a[n..], b);
      assert (a + b)[n..] == a[n..] + b && (a + b)[1..n] == a[1..n];
    }
  }

  function SaidOf(events: seq<Event>): Option<string> {
    if TextOf(events) == "" then None else Some(TextOf(events))
  }

  /** What a round that calls tools adds: the call message and the results there are. */
  function Exchange(t: Tools, events: seq<Event>, r: Round): seq<Message> {
    [ToolCalls(SaidOf(events), r.calls)] + ResultsIn(t, r)
  }

  lemma ExchangeWellFormed(t: Tools, events: seq<Event>, r: Round)
    ensures WellFormed(Exchange(t, events, r)) <==> NoneRaises(t, r)
  {
    var block, n := Exchange(t, events, r), |r.calls|;
    FullExactlyWhen(t, r);
    if |block| == 1 + n {
      assert block[1..1 + n] == ResultsIn(t, r) && block[1 + n..] == [] && WellFormed([]);
    }
  }

  /** The exchanges of all rounds, one after the other. */
  function Exchanges(t: Tools, streams: nat -> Stream, trace: seq<Round>): seq<Message> {
    if trace == [] then []
    else
      var n := |trace| - 1;
      Exchanges(t, streams, trace[..n]) + Exchange(t, streams(n).events, trace[n])
  }

  ghost predicate AllFull(t: Tools, trace: seq<Round>) { forall k :: 0 <= k < |trace| ==> Full(t, trace[k]) }

  lemma {:induction false} ExchangesWellFormed(t: Tools, streams: nat -> Stream, trace: seq<Round>)
    requires trace != [] ==> AllFull(t, trace[..|trace| - 1])
    ensures WellFormed(Exchanges(t, streams, trace)) <==> AllFull(t, trace)
  {
    if trace != [] {
      var n := |trace| - 1;
      assert n > 0 ==> AllFull(t, trace[..n][..n - 1]);
      ExchangesWellFormed(t, streams, trace[..n]);
      WellFormedAppend(Exchanges(t, streams, trace[..n]), Exchange(t, streams(n).events, trace[n]));
      ExchangeWellFormed(t, streams(n).events, trace[n]);
      FullExactlyWhen(t, trace[n]);
      assert forall k :: 0 <= k < n ==> trace[..n][k] == trace[k];
    }
  }

  lemma OneMoreExchange(t: Tools, streams: nat -> Stream, trace: seq<Round>, r: Round)
    ensures Exchanges(t, streams, trace + [r]) == Exchanges(t, streams, trace) + Exchange(t, streams(|trace|).events, r)
  {
    assert (trace + [r])[..|trace|] == trace;
  }

  /** A round calls tools when it has deltas and its last finish reason says so. */
  predicate CallsTools(events: seq<Event>) { Indices(events) != {} && ReasonOf(events) == Some("tool_calls") }

  /** How many tools were run before the k-th round. */
  function RunsBefore(t: Tools, first: nat, trace: seq<Round>, k: nat): nat
    requires k <= |trace|
  {
    if k == 0 then first else trace[k - 1].first + Runs(t, trace[k - 1].calls)
  }

  ghost predicate RoundOk(t: Tools, streams: nat -> Stream, first: nat, trace: seq<Round>, k: nat)
    requires k < |trace|
  {
    && !streams(k).raises && CallsTools(streams(k).events) && CallsOf(streams(k).events, trace[k].calls)
    && trace[k].calls != [] && trace[k].first == RunsBefore(t, first, trace, k)
  }

  /** The trace holds the calls of the first rounds, with the tools they run counted on. */
  ghost predicate Played(t: Tools, streams: nat -> Stream, first: nat, trace: seq<Round>) {
    forall k: nat :: k < |trace| ==> RoundOk(t, streams, first, trace, k)
  }

  lemma PlayedOn(t: Tools, streams: nat -> Stream, first: nat, trace: seq<Round>, r: Round)
    requires Played(t, streams, first, trace) && !streams(|trace|).raises && CallsTools(streams(|trace|).events)
    requires CallsOf(streams(|trace|).events, r.calls) && r.calls != [] && r.first == RunsBefore(t, first, trace, |trace|)
    ensures Played(t, streams, first, trace + [r])
  {
    var all := trace + [r];
    forall k: nat | k < |all| ensures RoundOk(t, streams, first, all, k) {
      if k < |trace| { assert RoundOk(t, streams, first, trace, k); }
    }
  }

  // ------------------------------------------------------------------
  // What is said
  // ------------------------------------------------------------------

  function Preamble(registry: Registry, name: string): string {
    if registry(name).Some? then registry(name).value.preamble else ""
  }

  predicate HasPreamble(registry: Registry, name: string) { name != "" && Preamble(registry, name) != "" }

  /** The names that the deltas called, as far as they have a preamble. */
  function Fired(registry: Registry, events: seq<Event>): set<string> {
    if events == [] then {}
    else
      var n := |events| - 1;
      Fired(registry, events[..n]) + if events[n].ToolDelta? && HasPreamble(registry, events[n].name) then {events[n].name} else {}
  }

  function Announcement(registry: Registry, round: nat, name: string, fired: set<string>): seq<Say> {
    if HasPreamble(registry, name) && name !in fired then [Announced(round, name, Preamble(registry, name))] else []
  }

  function EventLog(registry: Registry, round: nat, fired: set<string>, e: Event): seq<Say> {
    match e
    case Text(text) => if text == "" then [] else [Spoke(text)]
    case ToolDelta(_, _, name, _) => Announcement(registry, round, name, fired)
    case Finish(_) => []
    case Other => []
  }

  /** What the sinks get while a round streams. */
  function StreamLog(registry: Registry, round: nat, events: seq<Event>): seq<Say> {
    if events == [] then []
    else
      var n := |events| - 1;
      StreamLog(registry, round, events[..n]) + EventLog(registry, round, Fired(registry, events[..n]), events[n])
  }

  lemma StreamLogSnoc(registry: Registry, round: nat, events: seq<Event>, e: Event)
    ensures StreamLog(registry, round, events + [e])
         == StreamLog(registry, round, events) + EventLog(registry, round, Fired(registry, events), e)
    ensures Fired(registry, events + [e])
         == Fired(registry, events) + if e.ToolDelta? && HasPreamble(registry, e.name) then {e.name} else {}
  {
    assert (events + [e])[..|events|] == events;
  }

  ghost predicate SameAnnouncement(a: Say, b: Say) { a.Announced? && b.Announced? && a.round == b.round && a.name == b.name }

  /** No name is announced twice in a round. */
  ghost predicate Once(said: seq<Say>) {
    forall i, j :: 0 <= i < j < |said| ==> !SameAnnouncement(said[i], said[j])
  }

  function SpokenText(said: seq<Say>): string {
    if said == [] then ""
    else SpokenText(said[..|said| - 1]) + TextIn(said[|said| - 1])
  }

  /** What the callback for completion texts got. */
  function Completions(said: seq<Say>): seq<string> {
    if said == [] then []
    else Completions(said[..|said| - 1]) + if said[|said| - 1].Completion? then [said[|said| - 1].text] else []
  }

  function TextIn(s: Say): string { if s.Spoke? then s.text else "" }

  lemma {:induction false} SpokenAppend(a: seq<Say>, b: seq<Say>)
    ensures SpokenText(a + b) == SpokenText(a) + SpokenText(b)
  {
    if b == [] {
      Nothing(a);
      Nothing(SpokenText(a));
    } else {
      var n := |b| - 1;
      var all, front := a + b, a + b[..n];
      SpokenAppend(a, b[..n]);
      assert all[..|all| - 1] == front && all[|all| - 1] == b[n];
      assert SpokenText(all) == SpokenText(front) + TextIn(b[n]);
      Assoc(SpokenText(a), SpokenText(b[..n]), TextIn(b[n]));
    }
  }

  lemma {:induction false} CompletionsAppend(a: seq<Say>, b: seq<Say>)
    ensures Completions(a + b) == Completions(a) + Completions(b)
  {
    if b == [] {
      assert a + b == a && Completions(a) + [] == Completions(a);
    } else {
      CompletionsAppend(a, b[..|b| - 1]);
      assert (a + b)[..|a + b| - 1] == a + b[..|b| - 1];
    }
  }

  lemma SaidAppend(a: seq<Say>, b: seq<Say>)
    ensures SpokenText(a + b) == SpokenText(a) + SpokenText(b) && Completions(a + b) == Completions(a) + Completions(b)
  {
    SpokenAppend(a, b);
    CompletionsAppend(a, b);
  }

  /** One announcement of a round for a name that its events called. */
  ghost predicate IsAnnouncement(registry: Registry, round: nat, events: seq<Event>, s: Say) {
    s.Announced? && s.round == round && s.name in Fired(registry, events) && s.text == Preamble(registry, s.name)
  }

  /** Each fired name is announced, no other is, and none twice; the rest is text. */
  ghost predicate Announces(registry: Registry, round: nat, events: seq<Event>, said: seq<Say>) {
    && Once(said)
    && (forall s :: s in said && !s.Spoke? ==> IsAnnouncement(registry, round, events, s))
    && (forall s :: IsAnnouncement(registry, round, events, s) ==> s in said)
  }

  lemma AnnouncesOn(registry: Registry, round: nat, events: seq<Event>, said: seq<Say>, e: Event)
    requires Announces(registry, round, events, said)
    ensures Announces(registry, round, events + [e], said + EventLog(registry, round, Fired(registry, events), e))
  {
    var more := EventLog(registry, round, Fired(registry, events), e);
    var all, now := said + more, events + [e];
    StreamLogSnoc(registry, round, events, e);
    forall s | s in all && !s.Spoke? ensures IsAnnouncement(registry, round, now, s) {
      assert s in said || s in more;
    }
    forall s | IsAnnouncement(registry, round, now, s) ensures s in all {
      if s.name in Fired(registry, events) { assert s in said; } else { assert s in more; }
    }
    forall i, j | 0 <= i < j < |all| ensures !SameAnnouncement(all[i], all[j]) {
      if j < |said| {
        assert !SameAnnouncement(said[i], said[j]);
      } else if i < |said| {
        assert said[i] in said;
      }
    }
  }

  lemma {:induction false} StreamAnnounces(registry: Registry, round: nat, events: seq<Event>)
    ensures Announces(registry, round, events, StreamLog(registry, round, events))
  {
    if events != [] {
      var n := |events| - 1;
      assert events == events[..n] + [events[n]];
      StreamAnnounces(registry, round, events[..n]);
      AnnouncesOn(registry, round, events[..n], StreamLog(registry, round, events[..n]), events[n]);
    }
  }

  lemma EventSays(registry: Registry, round: nat, fired: set<string>, e: Event)
    ensures var more := EventLog(registry, round, fired, e);
      SpokenText(more) == (if e.Text? then e.text else "") && Completions(more) == []
  {
    var more := EventLog(registry, round, fired, e);
    assert SpokenText([]) == "" && Completions([]) == [];
    if more != [] { assert more[..0] == []; }
  }

  lemma {:induction false} StreamSpeaks(registry: Registry, round: nat, events: seq<Event>)
    ensures SpokenText(StreamLog(registry, round, events)) == TextOf(events)
    ensures Completions(StreamLog(registry, round, events)) == []
  {
    if events != [] {
      var n := |events| - 1;
      var fired := Fired(registry, events[..n]);
      StreamSpeaks(registry, round, events[..n]);
      EventSays(registry, round, fired, events[n]);
      SaidAppend(StreamLog(registry, round, events[..n]), EventLog(registry, round, fired, events[n]));
    }
  }

  /** While a round streams, its text is spoken in order, and each name with a preamble that its
      deltas call is announced once, and nothing else. */
  lemma StreamSays(registry: Registry, round: nat, events: seq<Event>)
    ensures Announces(registry, round, events, StreamLog(registry, round, events))
    ensures SpokenText(StreamLog(registry, round, events)) == TextOf(events)
    ensures Completions(StreamLog(registry, round, events)) == []
  {
    StreamAnnounces(registry, round, events);
    StreamSpeaks(registry, round, events);
  }

  lemma {:induction false} NamedIsFired(registry: Registry, events: seq<Event>, i: int)
    requires HasPreamble(registry, NameOf(events, i))
    ensures NameOf(events, i) in Fired(registry, events)
  {
    var n := |events| - 1;
    if !(IsDelta(events[n], i) && events[n].name != "") {
      NamedIsFired(registry, events[..n], i);
    }
  }

  /** Every call's name came with a delta, so it was announced before the call is made. */
  lemma CalledIsFired(registry: Registry, events: seq<Event>, calls: seq<Call>)
    requires CallsOf(events, calls)
    ensures AllFired(registry, calls, Fired(registry, events))
  {
    var indices :| AreCalls(events, calls, indices);
    forall k | 0 <= k < |calls| ensures IsFired(registry, calls[k], Fired(registry, events)) {
      assert calls[k] == CallOf(events, indices[k]);
      if HasPreamble(registry, calls[k].name) { NamedIsFired(registry, events, indices[k]); }
    }
  }

  ghost predicate IsFired(registry: Registry, call: Call, fired: set<string>) {
    HasPreamble(registry, call.name) ==> call.name in fired
  }

  ghost predicate AllFired(registry: Registry, calls: seq<Call>, fired: set<string>) {
    forall k :: 0 <= k < |calls| ==> IsFired(registry, calls[k], fired)
  }

  // ------------------------------------------------------------------
  // What a whole turn says
  // ------------------------------------------------------------------

  /** How a turn ends: its poll said stop, something raised, or it answered (or ran out of
      rounds). */
  datatype Outcome = Aborted | StreamError | DispatchError | Replied(text: string) | Templated(text: string) | OutOfRounds

  /** The first n parts, one after the other. */
  function Flat<T>(parts: nat -> seq<T>, n: nat): seq<T> {
    if n == 0 then [] else Flat(parts, n - 1) + parts(n - 1)
  }

  lemma {:induction false} InFlat<T>(parts: nat -> seq<T>, n: nat, x: T)
    ensures x in Flat(parts, n) <==> exists k: nat :: k < n && x in parts(k)
  {
    if n > 0 { InFlat(parts, n - 1, x); }
  }

  ghost predicate Distinct(parts: nat -> seq<Say>, n: nat) {
    forall k: nat :: k < n ==> forall s :: s in parts(k) && s.Announced? ==> s.round == k
  }

  lemma {:induction false} FlatOnce(parts: nat -> seq<Say>, n: nat)
    requires Distinct(parts, n) && forall k: nat :: k < n ==> Once(parts(k))
    ensures Once(Flat(parts, n))
  {
    if n > 0 {
      FlatOnce(parts, n - 1);
      forall s, t | s in Flat(parts, n - 1) && t in parts(n - 1) ensures !SameAnnouncement(s, t) {
        InFlat(parts, n - 1, s);
      }
      OnceAppend(Flat(parts, n - 1), parts(n - 1));
    }
  }

  lemma {:induction false} FlatSpeaks(parts: nat -> seq<Say>, texts: nat -> string, n: nat)
    requires forall k: nat :: k < n ==> SpokenText(parts(k)) == texts(k)
    ensures SpokenText(Flat(parts, n)) == Flat(texts, n)
  {
    if n > 0 {
      FlatSpeaks(parts, texts, n - 1);
      SpokenAppend(Flat(parts, n - 1), parts(n - 1));
      assert Flat(parts, n) == Flat(parts, n - 1) + parts(n - 1);
    }
  }

  lemma {:induction false} FlatCompletes(parts: nat -> seq<Say>, n: nat)
    requires forall k: nat :: k < n ==> Completions(parts(k)) == []
    ensures Completions(Flat(parts, n)) == []
  {
    if n > 0 {
      FlatCompletes(parts, n - 1);
      CompletionsAppend(Flat(parts, n - 1), parts(n - 1));
      assert Flat(parts, n) == Flat(parts, n - 1) + parts(n - 1);
    }
  }

  function RoundLog(registry: Registry, streams: nat -> Stream): nat -> seq<Say> {
    (k: nat) => StreamLog(registry, k, streams(k).events)
  }

  function RoundText(streams: nat -> Stream): nat -> string { (k: nat) => TextOf(streams(k).events) }

  /** The first n rounds, which streamed to their ends. */
  function RoundLogs(registry: Registry, streams: nat -> Stream, n: nat): seq<Say> { Flat(RoundLog(registry, streams), n) }

  function RoundTexts(streams: nat -> Stream, n: nat): string { Flat(RoundText(streams), n) }

  /** What closes a turn: the completion text, to its callback or to the text sink. */
  function Closing(outcome: Outcome, toCallback: bool): seq<Say> {
    if !outcome.Templated? then [] else if toCallback then [Completion(outcome.text)] else [Spoke(outcome.text)]
  }

  /** After the n rounds that called tools: `taken` events of the next one, and the closing. */
  function TurnLog(registry: Registry, streams: nat -> Stream, n: nat, taken: nat, outcome: Outcome, toCallback: bool): seq<Say>
    requires taken <= |streams(n).events|
  {
    RoundLogs(registry, streams, n) + StreamLog(registry, n, streams(n).events[..taken]) + Closing(outcome, toCallback)
  }

  /** The next round, if there is one, is cut short by an abort only. */
  predicate TakenOk(stream: Stream, taken: nat, outcome: Outcome) {
    match outcome
    case Aborted => taken <= |stream.events|
    case StreamError => taken == |stream.events|
    case Replied(_) => taken == |stream.events|
    case _ => taken == 0
  }

  /** The events taken in the k-th round of a turn. */
  function TakenIn(streams: nat -> Stream, n: nat, taken: nat, k: nat): seq<Event>
    requires taken <= |streams(n).events|
  {
    if k < n then streams(k).events else if k == n then streams(n).events[..taken] else []
  }

  ghost predicate LogAnnounces(registry: Registry, streams: nat -> Stream, n: nat, taken: nat, log: seq<Say>)
    requires taken <= |streams(n).events|
  {
    forall s: Say :: s.Announced? ==> (s in log <==> IsAnnouncement(registry, s.round, TakenIn(streams, n, taken, s.round), s))
  }

  lemma OnceAppend(a: seq<Say>, b: seq<Say>)
    requires Once(a) && Once(b)
    requires forall s, t :: s in a && t in b ==> !SameAnnouncement(s, t)
    ensures Once(a + b)
  {
    forall i, j | 0 <= i < j < |a + b| ensures !SameAnnouncement((a + b)[i], (a + b)[j]) {
      if i < |a| <= j { assert a[i] in a && b[j - |a|] in b; }
    }
  }

  lemma InStream(registry: Registry, round: nat, events: seq<Event>, s: Say)
    ensures s in StreamLog(registry, round, events) && !s.Spoke? <==> IsAnnouncement(registry, round, events, s)
  {
    StreamSays(registry, round, events);
  }

  lemma InRounds(registry: Registry, streams: nat -> Stream, n: nat, s: Say)
    ensures s in RoundLogs(registry, streams, n) && !s.Spoke?
       <==> s.Announced? && s.round < n && IsAnnouncement(registry, s.round, streams(s.round).events, s)
  {
    var parts := RoundLog(registry, streams);
    InFlat(parts, n, s);
    forall k: nat | k < n
      ensures s in parts(k) && !s.Spoke? <==> IsAnnouncement(registry, k, streams(k).events, s)
    {
      InStream(registry, k, streams(k).events, s);
    }
  }

  lemma RoundsOnce(registry: Registry, streams: nat -> Stream, n: nat)
    ensures Once(RoundLogs(registry, streams, n))
  {
    var parts := RoundLog(registry, streams);
    forall k: nat | k < n
      ensures Once(parts(k)) && forall s :: s in parts(k) && s.Announced? ==> s.round == k
    {
      StreamAnnounces(registry, k, streams(k).events);
    }
    FlatOnce(parts, n);
  }

  /** The next round does not repeat the announcements of the rounds before it. */
  lemma OnceOn(registry: Registry, streams: nat -> Stream, n: nat, events: seq<Event>)
    ensures Once(RoundLogs(registry, streams, n) + StreamLog(registry, n, events))
  {
    var was, now := RoundLogs(registry, streams, n), StreamLog(registry, n, events);
    RoundsOnce(registry, streams, n);
    StreamAnnounces(registry, n, events);
    forall s, t | s in was && t in now ensures !SameAnnouncement(s, t) {
      InRounds(registry, streams, n, s);
      InStream(registry, n, events, t);
    }
    OnceAppend(was, now);
  }

  lemma RoundsSpeak(registry: Registry, streams: nat -> Stream, n: nat)
    ensures SpokenText(RoundLogs(registry, streams, n)) == RoundTexts(streams, n)
    ensures Completions(RoundLogs(registry, streams, n)) == []
  {
    var parts, texts := RoundLog(registry, streams), RoundText(streams);
    forall k: nat | k < n ensures SpokenText(parts(k)) == texts(k) && Completions(parts(k)) == [] {
      StreamSpeaks(registry, k, streams(k).events);
    }
    FlatSpeaks(parts, texts, n);
    FlatCompletes(parts, n);
  }

  lemma TurnAnnounces(registry: Registry, streams: nat -> Stream, n: nat, taken: nat, outcome: Outcome, toCallback: bool)
    requires taken <= |streams(n).events|
    ensures var log := TurnLog(registry, streams, n, taken, outcome, toCallback);
      Once(log) && Flushed !in log && LogAnnounces(registry, streams, n, taken, log)
  {
    var events := streams(n).events[..taken];
    var log, last := TurnLog(registry, streams, n, taken, outcome, toCallback), Closing(outcome, toCallback);
    OnceOn(registry, streams, n, events);
    OnceAppend(RoundLogs(registry, streams, n) + StreamLog(registry, n, events), last);
    forall s: Say | !s.Spoke? && !s.Completion?
      ensures s in log <==> s.Announced? && IsAnnouncement(registry, s.round, TakenIn(streams, n, taken, s.round), s)
    {
      InRounds(registry, streams, n, s);
      InStream(registry, n, events, s);
    }
  }

  /** What a turn says: all text of the rounds in order and then the completion text; the
      callback gets the completion text, once, and nothing else; for each round, exactly the
      names with a preamble that it called are announced, each once. */
  ghost predicate LogOk(registry: Registry, streams: nat -> Stream, n: nat, taken: nat, outcome: Outcome, toCallback: bool, log: seq<Say>)
    requires taken <= |streams(n).events|
  {
    && SpokenText(log) == RoundTexts(streams, n) + TextOf(streams(n).events[..taken])
                          + (if outcome.Templated? && !toCallback then outcome.text else "")
    && Completions(log) == (if outcome.Templated? && toCallback then [outcome.text] else [])
    && Once(log) && LogAnnounces(registry, streams, n, taken, log)
  }

  lemma TurnSpeaks(registry: Registry, streams: nat -> Stream, n: nat, taken: nat, outcome: Outcome, toCallback: bool)
    requires taken <= |streams(n).events|
    ensures LogOk(registry, streams, n, taken, outcome, toCallback, TurnLog(registry, streams, n, taken, outcome, toCallback))
    ensures Flushed !in TurnLog(registry, streams, n, taken, outcome, toCallback)
  {
    var events := streams(n).events[..taken];
    TurnAnnounces(registry, streams, n, taken, outcome, toCallback);
    RoundsSpeak(registry, streams, n);
    StreamSpeaks(registry, n, events);
    SaidAppend(RoundLogs(registry, streams, n), StreamLog(registry, n, events));
    SaidAppend(RoundLogs(registry, streams, n) + StreamLog(registry, n, events), Closing(outcome, toCallback));
    ClosingSays(outcome, toCallback);
  }

  /** The flush adds nothing to that. */
  lemma TurnSays(registry: Registry, streams: nat -> Stream, n: nat, taken: nat, outcome: Outcome, toCallback: bool)
    requires taken <= |streams(n).events|
    ensures var log := TurnLog(registry, streams, n, taken, outcome, toCallback);
      && LogOk(registry, streams, n, taken, outcome, toCallback, log) && Flushes(log) == 0
      && LogOk(registry, streams, n, taken, outcome, toCallback, log + [Flushed]) && Flushes(log + [Flushed]) == 1
  {
    var log := TurnLog(registry, streams, n, taken, outcome, toCallback);
    TurnSpeaks(registry, streams, n, taken, outcome, toCallback);
    FlushSays(log);
  }

  lemma ClosingSays(outcome: Outcome, toCallback: bool)
    ensures SpokenText(Closing(outcome, toCallback)) == if outcome.Templated? && !toCallback then outcome.text else ""
    ensures Completions(Closing(outcome, toCallback)) == if outcome.Templated? && toCallback then [outcome.text] else []
  {
    var last := Closing(outcome, toCallback);
    if last != [] { assert last[..0] == [] && SpokenText([]) == "" && Completions([]) == []; }
  }

  lemma FlushSays(log: seq<Say>)
    requires Flushed !in log
    ensures SpokenText(log + [Flushed]) == SpokenText(log) && Completions(log + [Flushed]) == Completions(log)
    ensures Once(log) ==> Once(log + [Flushed])
    ensures forall s: Say :: s.Announced? ==> (s in log + [Flushed] <==> s in log)
    ensures Flushes(log) == 0 && Flushes(log + [Flushed]) == 1
  {
    assert (log + [Flushed])[..|log|] == log;
    assert SpokenText(log) + "" == SpokenText(log) && Completions(log) + [] == Completions(log);
    if Once(log) { OnceAppend(log, [Flushed]); }
  }

  function Flushes(said: seq<Say>): nat { multiset(said)[Flushed] }

  /** How often a round asks whether to stop: before it, for each event, and before it replies or
      after its calls. */
  function PollsIn(stream: Stream, raised: bool): nat { 1 + |stream.events| + if raised then 0 else 1 }

  function RoundPolls(streams: nat -> Stream, n: nat): nat {
    if n == 0 then 0 else RoundPolls(streams, n - 1) + PollsIn(streams(n - 1), false)
  }

  /** All polls of a turn that was not aborted. */
  function TurnPolls(streams: nat -> Stream, n: nat, outcome: Outcome): nat {
    match outcome
    case StreamError => RoundPolls(streams, n) + PollsIn(streams(n), true)
    case Replied(_) => RoundPolls(streams, n) + PollsIn(streams(n), false)
    case DispatchError => if n == 0 then 0 else RoundPolls(streams, n - 1) + PollsIn(streams(n - 1), true)
    case OutOfRounds => RoundPolls(streams, n) + 1
    case _ => RoundPolls(streams, n)
  }

  // ------------------------------------------------------------------
  // The template fast path
  // ------------------------------------------------------------------

  datatype Dispatched = Dispatched(name: string, template: bool, completion: string, failed: bool)

  predicate TemplateOk(d: Dispatched) { d.template && d.completion != "" && !d.failed }

  predicate TemplateFires(ds: seq<Dispatched>) { forall k :: 0 <= k < |ds| ==> TemplateOk(ds[k]) }

  /** The completion texts, joined by spaces. */
  function TemplateCompletion(ds: seq<Dispatched>): string {
    if ds == [] then ""
    else if |ds| == 1 then ds[0].completion
    else TemplateCompletion(ds[..|ds| - 1]) + " " + ds[|ds| - 1].completion
  }

  // ------------------------------------------------------------------
  // The pump
  // ------------------------------------------------------------------

  /** How a round's stream ends. */
  datatype Streamed =
    | StreamAborted
    | StreamRaised
    | Ended(text: string, accs: map<int, Acc>, reason: Option<string>, fired: set<string>)

  class Turn {
    const tools: Tools
    const abort: nat -> bool

    var messages: seq<Message>
    var said: seq<Say>
    var polls: nat
    var runs: nat

    constructor (tools: Tools, abort: nat -> bool)
      ensures this.tools == tools && this.abort == abort
      ensures messages == [] && said == [] && polls == 0 && runs == 0
    {
      this.tools, this.abort := tools, abort;
      messages, said, polls, runs := [], [], 0, 0;
    }

    /** No poll has said stop yet. */
    ghost predicate Running()
      reads this`polls
    {
      forall k :: 0 <= k < polls ==> !abort(k)
    }

    /** The last poll, and no other, said stop. */
    ghost predicate Stopped()
      reads this`polls
    {
      polls > 0 && abort(polls - 1) && forall k :: 0 <= k < polls - 1 ==> !abort(k)
    }

    method ShouldAbort() returns (stop: bool)
      requires Running()
      modifies this`polls
      ensures polls == old(polls) + 1
      ensures if stop then Stopped() else Running()
    {
      stop := abort(polls);
      polls := polls + 1;
    }

    /** A name that was not announced in this round yet, if its tool has a preamble. */
    method Announce(round: nat, name: string, fired: set<string>) returns (fired1: set<string>)
      modifies this`said
      ensures said == old(said) + Announcement(tools.registry, round, name, fired)
      ensures fired1 == fired + if HasPreamble(tools.registry, name) then {name} else {}
    {
      fired1 := fired;
      Nothing(said);
      if name != "" && name !in fired {
        var pre := Preamble(tools.registry, name);
        if pre != "" {
          fired1 := fired + {name};
          said := said + [Announced(round, name, pre)];
        }
      }
    }

    /** One event goes to its sink and its slot. */
    method TakeEvent(ghost before: seq<Event>, ev: Event, round: nat, accs: map<int, Acc>, fired: set<string>)
        returns (accs1: map<int, Acc>, fired1: set<string>)
      requires Accumulated(before, accs) && fired == Fired(tools.registry, before)
      modifies this`said
      ensures Accumulated(before + [ev], accs1) && fired1 == Fired(tools.registry, before + [ev])
      ensures said == old(said) + EventLog(tools.registry, round, fired, ev)
    {
      accs1, fired1 := accs, fired;
      StreamLogSnoc(tools.registry, round, before, ev);
      Nothing(said);
      match ev
      case Text(text) =>
        OtherAccumulates(before, ev, accs);
        if text != "" {
          said := said + [Spoke(text)];
        }
      case ToolDelta(index, id, name, arguments) =>
        var i := IndexOf(ev);
        var slot := if i in accs then accs[i] else BLANK;
        slot := Acc(if id != "" then id else slot.id, if name != "" then name else slot.name, slot.arguments + arguments);
        DeltaAccumulates(before, ev, accs, slot);
        accs1 := accs[i := slot];
        fired1 := Announce(round, name, fired);
      case Finish(_) => OtherAccumulates(before, ev, accs);
      case Other => OtherAccumulates(before, ev, accs);
    }

    /** The events of a round, with a poll before each. */
    method StreamRound(round: nat, stream: Stream) returns (r: Streamed, ghost taken: nat)
      requires Running()
      modifies this`said, this`polls
      ensures taken <= |stream.events| && said == old(said) + StreamLog(tools.registry, round, stream.events[..taken])
      ensures if r.StreamAborted? then Stopped() else Running()
      ensures polls == old(polls) + taken + if r.StreamAborted? then 1 else 0
      ensures r.StreamAborted? ==> taken < |stream.events|
      ensures !r.StreamAborted? ==> taken == |stream.events| && r.StreamRaised? == stream.raises
      ensures r.Ended? ==>
        && r.fired == Fired(tools.registry, stream.events) && r.text == TextOf(stream.events)
        && r.reason == ReasonOf(stream.events) && Accumulated(stream.events, r.accs)
    {
      var text, accs, reason := "", map[], None;
      var names: set<string> := {};
      taken := 0;
      ghost var base := said;
      Nothing(base);
      for i := 0 to |stream.events|
        invariant Running() && polls == old(polls) + i
        invariant said == base + StreamLog(tools.registry, round, stream.events[..i])
        invariant names == Fired(tools.registry, stream.events[..i]) && text == TextOf(stream.events[..i])
        invariant reason == ReasonOf(stream.events[..i]) && Accumulated(stream.events[..i], accs)
      {
        var ev := stream.events[i];
        taken := i;
        var stop := ShouldAbort();
        if stop {
          return StreamAborted, taken;
        }
        assert stream.events[..i + 1] == stream.events[..i] + [ev];
        TextSnoc(stream.events[..i], ev);
        ReasonSnoc(stream.events[..i], ev);
        StreamLogSnoc(tools.registry, round, stream.events[..i], ev);
        Assoc(base, StreamLog(tools.registry, round, stream.events[..i]), EventLog(tools.registry, round, names, ev));
        accs, names := TakeEvent(stream.events[..i], ev, round, accs, names);
        if ev.Text? {
          text := text + ev.text;
        }
        if ev.Finish? {
          reason := Some(ev.reason);
        }
      }
      assert stream.events[..|stream.events|] == stream.events;
      taken := |stream.events|;
      r := if stream.raises then StreamRaised else Ended(text, accs, reason, names);
    }

    /** One call: its preamble if it were still due, its arguments, its tool, its result. */
    method CallTool(round: nat, call: Call, fired: set<string>) returns (d: Option<Dispatched>, fired1: set<string>)
      requires IsFired(tools.registry, call, fired)
      modifies this`said, this`messages, this`runs
      ensures said == old(said) && fired1 == fired
      ensures runs == old(runs) + if RunsTool(tools, call) then 1 else 0
      ensures match AnswerOf(tools, old(runs), call)
        case None => d.None? && messages == old(messages)
        case Some(a) =>
          && d == Some(Described(tools.registry, call.name, a.failed))
          && messages == old(messages) + [ToolResult(call.id, a.json)]
    {
      Nothing(said);
      fired1 := Announce(round, call.name, fired);
      var parsed := tools.parse(call.arguments);
      var answer: Option<Answer>;
      if parsed.Refused? {
        return None, fired1;
      }
      if parsed.Malformed? {
        answer := Some(Answer(true, "invalid arguments JSON: " + call.arguments));
      } else {
        answer := Dispatch(call.name, parsed.Object?);
      }
      if answer.None? {
        return None, fired1;
      }
      messages := messages + [ToolResult(call.id, answer.value.json)];
      d := Some(Described(tools.registry, call.name, answer.value.failed));
    }

    /** `ToolRegistry.dispatch`: an unknown tool is an answer; a local tool whose arguments are
        no object raises before it is run. */
    method Dispatch(name: string, isObject: bool) returns (answer: Option<Answer>)
      modifies this`runs
      ensures match tools.registry(name)
        case None => answer == Some(Answer(true, "unknown tool: " + name)) && runs == old(runs)
        case Some(tool) =>
          if tool.remote || isObject then answer == tools.run(old(runs)) && runs == old(runs) + 1
          else answer.None? && runs == old(runs)
    {
      var tool := tools.registry(name);
      if tool.None? {
        return Some(Answer(true, "unknown tool: " + name));
      }
      if !tool.value.remote && !isObject {
        return None;
      }
      answer := tools.run(runs);
      runs := runs + 1;
    }

    /** One call after those that were answered. */
    method NextCall(round: nat, calls: seq<Call>, ds: seq<Dispatched>, fired: set<string>, ghost first: nat,
                    ghost before: seq<Message>, ghost results: seq<Message>)
        returns (ds1: seq<Dispatched>, raised: bool, fired1: set<string>, ghost results1: seq<Message>)
      requires SoFar(tools, first, calls, ds, results) && |ds| < |calls| && messages == before + results
      requires runs == first + Runs(tools, calls[..|ds|]) && AllFired(tools.registry, calls, fired)
      modifies this`said, this`messages, this`runs
      ensures said == old(said) && fired1 == fired
      ensures SoFar(tools, first, calls, ds1, results1) && messages == before + results1
      ensures if raised then ds1 == ds && AnswerAt(tools, first, calls, |ds|).None?
              else |ds1| == |ds| + 1 && runs == first + Runs(tools, calls[..|ds1|])
    {
      var d;
      RunsOn(tools, calls, |ds|);
      assert IsFired(tools.registry, calls[|ds|], fired);
      d, fired1 := CallTool(round, calls[|ds|], fired);
      if d.None? {
        return ds, true, fired1, results;
      }
      ghost var result := messages[|messages| - 1];
      OneMoreAnswer(tools, first, calls, ds, results, d.value, result);
      Assoc(before, results, [result]);
      raised, ds1, results1 := false, ds + [d.value], results + [result];
    }

    /** The calls in order, until one raises. */
    method DispatchAll(round: nat, calls: seq<Call>, fired: set<string>) returns (ds: seq<Dispatched>, raised: bool)
      requires AllFired(tools.registry, calls, fired)
      modifies this`said, this`messages, this`runs
      ensures said == old(said)
      ensures Went(tools, Round(old(runs), calls), ds, ResultsIn(tools, Round(old(runs), calls)), raised)
      ensures messages == old(messages) + ResultsIn(tools, Round(old(runs), calls))
      ensures !raised ==> runs == old(runs) + Runs(tools, calls)
    {
      ds := [];
      var names := fired;
      ghost var before, first, results := messages, runs, [];
      Nothing(before);
      for k := 0 to |calls|
        invariant said == old(said) && names == fired
        invariant |ds| == k && SoFar(tools, first, calls, ds, results) && messages == before + results
        invariant runs == first + Runs(tools, calls[..k])
      {
        ds, raised, names, results := NextCall(round, calls, ds, names, first, before, results);
        if raised {
          AllWent(tools, first, calls, ds, results);
          return ds, true;
        }
      }
      AllWent(tools, first, calls, ds, results);
      raised := false;
    }

    /** A round that calls tools: the call message and its results. */
    method CallRound(round: nat, ghost events: seq<Event>, text: string, calls: seq<Call>, fired: set<string>)
        returns (ds: seq<Dispatched>, raised: bool)
      requires AllFired(tools.registry, calls, fired) && text == TextOf(events)
      modifies this`said, this`messages, this`runs
      ensures said == old(said)
      ensures Went(tools, Round(old(runs), calls), ds, ResultsIn(tools, Round(old(runs), calls)), raised)
      ensures messages == old(messages) + Exchange(tools, events, Round(old(runs), calls))
      ensures !raised ==> runs == old(runs) + Runs(tools, calls)
    {
      ghost var before, r := messages, Round(runs, calls);
      var asked := ToolCalls(if text == "" then None else Some(text), calls);
      messages := messages + [asked];
      ds, raised := DispatchAll(round, calls, fired);
      Assoc(before, [asked], ResultsIn(tools, r));
    }

    /** What closes the turn once all tools were templates. */
    method SpeakTemplate(spoken: string, recordText: bool, toCallback: bool)
      requires spoken != ""
      modifies this`said, this`messages
      ensures said == old(said) + [if toCallback then Completion(spoken) else Spoke(spoken)]
      ensures messages == old(messages) + if recordText then [AssistantText(spoken)] else []
    {
      if toCallback {
        if spoken != "" {
          said := said + [Completion(spoken)];
        }
      } else {
        said := said + [Spoke(spoken)];
      }
      if recordText && spoken != "" {
        messages := messages + [AssistantText(spoken)];
      } else {
        assert messages == messages + [];
      }
    }

    /** After the calls of a round: stop, close with the templates, or go on. */
    method Conclude(ds: seq<Dispatched>, recordText: bool, toCallback: bool)
        returns (outcome: Option<Outcome>, ghost ending: seq<Message>)
      requires Running() && ds != []
      modifies this`said, this`messages, this`polls
      ensures said == old(said) + ClosingOf(outcome, toCallback) && messages == old(messages) + ending
      ensures ClosesWith(ds, recordText, outcome, ending) && polls == old(polls) + 1
      ensures if outcome == Some(Aborted) then Stopped() else Running()
    {
      ending := [];
      Nothing(messages);
      Nothing(said);
      var stop := ShouldAbort();
      if stop {
        return Some(Aborted), ending;
      }
      if TemplateFires(ds) {
        var spoken := TemplateCompletion(ds);
        SomethingSpoken(ds);
        SpeakTemplate(spoken, recordText, toCallback);
        ending := if recordText then [AssistantText(spoken)] else [];
        return Some(Templated(spoken)), ending;
      }
      outcome := None;
    }

    /** A round that only says something: the last one. */
    method Reply(text: string) returns (outcome: Outcome, ghost ending: seq<Message>)
      requires Running()
      modifies this`messages, this`polls
      ensures messages == old(messages) + ending && polls == old(polls) + 1
      ensures outcome.Aborted? ==> Stopped() && ending == []
      ensures !outcome.Aborted? ==> Running() && outcome == Replied(text) && ending == if text == "" then [] else [AssistantText(text)]
    {
      ending := [];
      assert messages + ending == messages;
      var stop := ShouldAbort();
      if stop {
        return Aborted, ending;
      }
      if text != "" {
        messages := messages + [AssistantText(text)];
        ending := [AssistantText(text)];
      }
      outcome := Replied(text);
    }

    /** The calls that a round's stream came to, made one after the other. */
    method MakeCalls(round: nat, ghost stream: Stream, streamed: Streamed)
        returns (ds: seq<Dispatched>, raised: bool, ghost r: Round)
      requires streamed.Ended? && streamed.fired == Fired(tools.registry, stream.events)
      requires Accumulated(stream.events, streamed.accs) && streamed.text == TextOf(stream.events) && streamed.accs != map[]
      modifies this`said, this`messages, this`runs
      ensures said == old(said) && messages == old(messages) + Exchange(tools, stream.events, r)
      ensures CallsOf(stream.events, r.calls) && r.calls != [] && r.first == old(runs)
      ensures if raised then !Full(tools, r) else Full(tools, r) && ds == DispatchedIn(tools, r) && ds != []
      ensures !raised ==> runs == old(runs) + Runs(tools, r.calls)
    {
      var calls := CommitCalls(stream.events, streamed.accs);
      CalledIsFired(tools.registry, stream.events, calls);
      r := Round(runs, calls);
      ds, raised := CallRound(round, stream.events, streamed.text, calls, streamed.fired);
      if !raised { SomeDispatched(tools, r, ds); }
    }

    /** What follows the calls of a round: nothing after one that raised. */
    method AfterCalls(ds: seq<Dispatched>, raised: bool, ghost r: Round, recordText: bool, toCallback: bool)
        returns (outcome: Option<Outcome>, ghost ending: seq<Message>)
      requires Running()
      requires if raised then !Full(tools, r) else Full(tools, r) && ds == DispatchedIn(tools, r) && ds != []
      modifies this`said, this`messages, this`polls
      ensures said == old(said) + ClosingOf(outcome, toCallback) && messages == old(messages) + ending
      ensures Concluded(tools, r, recordText, outcome, ending) && (raised <==> outcome == Some(DispatchError))
      ensures polls == old(polls) + if raised then 0 else 1
      ensures if outcome == Some(Aborted) then Stopped() else Running()
    {
      if raised {
        Nothing(messages);
        Nothing(said);
        ConcludedByRaise(tools, r, recordText);
        return Some(DispatchError), [];
      }
      outcome, ending := Conclude(ds, recordText, toCallback);
      ConcludedBy(tools, r, ds, recordText, outcome, ending);
    }

    /** What follows a stream that ended: the reply, or the calls and what follows them. */
    method FollowStream(round: nat, ghost stream: Stream, streamed: Streamed, recordText: bool, toCallback: bool)
        returns (outcome: Option<Outcome>, ghost r: Option<Round>, ghost ending: seq<Message>)
      requires Running() && streamed.Ended? && !stream.raises && streamed.fired == Fired(tools.registry, stream.events)
      requires Accumulated(stream.events, streamed.accs) && streamed.text == TextOf(stream.events)
      requires streamed.reason == ReasonOf(stream.events)
      modifies this`said, this`messages, this`runs, this`polls
      ensures said == old(said) + ClosingOf(outcome, toCallback)
      ensures messages == old(messages) + (Added(tools, stream, r) + ending)
      ensures RoundEnds(tools, old(runs), stream, recordText, outcome, r, ending) && outcome != Some(StreamError)
      ensures outcome != Some(DispatchError) ==> runs == old(runs) + if r.None? then 0 else Runs(tools, r.value.calls)
      ensures polls == old(polls) + if outcome == Some(DispatchError) then 0 else 1
      ensures if outcome == Some(Aborted) then Stopped() else Running()
    {
      ghost var kept := messages;
      r := None;
      Nothing(said);
      if streamed.accs == map[] || streamed.reason != Some("tool_calls") {
        var last;
        last, ending := Reply(streamed.text);
        assert [] + ending == ending;
        EndsByReply(tools, runs, stream, recordText, last, ending);
        return Some(last), r, ending;
      }
      var ds, raised;
      ghost var called;
      ds, raised, called := MakeCalls(round, stream, streamed);
      outcome, ending := AfterCalls(ds, raised, called, recordText, toCallback);
      Assoc(kept, Exchange(tools, stream.events, called), ending);
      EndsAfterCalls(tools, called, stream, recordText, outcome, ending);
      r := Some(called);
    }

    /** One round: the exchange it may have had, and what comes after. */
    method PlayRound(round: nat, stream: Stream, recordText: bool, toCallback: bool)
        returns (outcome: Option<Outcome>, ghost r: Option<Round>, ghost ending: seq<Message>, ghost taken: nat)
      requires Running()
      modifies this`said, this`messages, this`runs, this`polls
      ensures taken <= |stream.events|
      ensures said == old(said) + (StreamLog(tools.registry, round, stream.events[..taken]) + ClosingOf(outcome, toCallback))
      ensures messages == old(messages) + (Added(tools, stream, r) + ending)
      ensures RoundEnds(tools, old(runs), stream, recordText, outcome, r, ending)
      ensures outcome != Some(Aborted) || r.Some? ==> taken == |stream.events|
      ensures outcome != Some(DispatchError) ==> runs == old(runs) + if r.None? then 0 else Runs(tools, r.value.calls)
      ensures outcome != Some(Aborted) ==>
        polls == old(polls) + PollsIn(stream, outcome == Some(StreamError) || outcome == Some(DispatchError))
      ensures if outcome == Some(Aborted) then Stopped() else Running()
    {
      r, ending, taken := None, [], 0;
      ghost var base := said;
      Nothing(base);
      Nothing(messages);
      assert stream.events[..0] == [];
      var stop := ShouldAbort();
      if stop {
        return Some(Aborted), r, ending, taken;
      }
      var streamed;
      streamed, taken := StreamRound(round, stream);
      ghost var log := StreamLog(tools.registry, round, stream.events[..taken]);
      Nothing(log);
      if streamed.StreamAborted? {
        return Some(Aborted), r, ending, taken;
      }
      if streamed.StreamRaised? {
        return Some(StreamError), r, ending, taken;
      }
      outcome, r, ending := FollowStream(round, stream, streamed, recordText, toCallback);
      Assoc(base, log, ClosingOf(outcome, toCallback));
    }

    /** One round on top of the rounds before it. */
    method NextRound(streams: nat -> Stream, round: nat, ghost maxRounds: nat, recordText: bool, toCallback: bool,
                     ghost first: nat, ghost trace: seq<Round>, ghost base: seq<Say>, ghost kept: seq<Message>)
        returns (ended: Option<Outcome>, ghost trace1: seq<Round>, ghost ending: seq<Message>, ghost taken: nat)
      requires Running() && said == base + RoundLogs(tools.registry, streams, round)
      requires messages == kept + Exchanges(tools, streams, trace)
      requires Underway(tools, streams, first, round, trace) && round < maxRounds
      requires runs == RunsBefore(tools, first, trace, round)
      modifies this`said, this`messages, this`runs, this`polls
      ensures messages == kept + (Exchanges(tools, streams, trace1) + ending)
      ensures if ended == Some(Aborted) then Stopped() else Running()
      ensures ended.None? ==>
        && ending == [] && Underway(tools, streams, first, round + 1, trace1)
        && said == base + RoundLogs(tools.registry, streams, round + 1) && runs == RunsBefore(tools, first, trace1, round + 1)
        && polls == old(polls) + PollsIn(streams(round), false)
      ensures ended.Some? ==>
        && TakenOk(streams(|trace1|), taken, ended.value)
        && said == base + TurnLog(tools.registry, streams, |trace1|, taken, ended.value, toCallback)
        && Played(tools, streams, first, trace1)
        && Ends(tools, streams, trace1, maxRounds, recordText, ended.value, ending)
      ensures ended.Some? && !ended.value.Aborted? ==>
        polls == old(polls) + TurnPolls(streams, |trace1|, ended.value) - RoundPolls(streams, round)
    {
      ghost var r;
      ended, r, ending, taken := PlayRound(round, streams(round), recordText, toCallback);
      trace1 := Extended(trace, r);
      TraceGrows(tools, streams, first, trace, maxRounds, recordText, ended, r, ending, kept);
      LogGrows(tools.registry, streams, round, taken, ended, toCallback, base);
      if r.Some? { taken := 0; }
    }

    /** `run_turn` up to its flush. */
    method RunRounds(streams: nat -> Stream, maxRounds: nat, recordText: bool, toCallback: bool)
        returns (outcome: Outcome, ghost trace: seq<Round>, ghost ending: seq<Message>, ghost taken: nat)
      requires Running()
      modifies this`said, this`messages, this`runs, this`polls
      ensures TakenOk(streams(|trace|), taken, outcome)
      ensures said == old(said) + TurnLog(tools.registry, streams, |trace|, taken, outcome, toCallback)
      ensures messages == old(messages) + (Exchanges(tools, streams, trace) + ending)
      ensures Played(tools, streams, old(runs), trace) && Ends(tools, streams, trace, maxRounds, recordText, outcome, ending)
      ensures !outcome.Aborted? ==> polls == old(polls) + TurnPolls(streams, |trace|, outcome)
      ensures if outcome.Aborted? then Stopped() else Running()
    {
      trace, ending := [], [];
      ghost var base, kept, first := said, messages, runs;
      Nothing(base);
      Nothing(kept);
      for round := 0 to maxRounds
        invariant Running() && said == base + RoundLogs(tools.registry, streams, round)
        invariant messages == kept + Exchanges(tools, streams, trace) && polls == old(polls) + RoundPolls(streams, round)
        invariant Underway(tools, streams, first, round, trace) && runs == RunsBefore(tools, first, trace, round)
      {
        var ended;
        ended, trace, ending, taken := NextRound(streams, round, maxRounds, recordText, toCallback, first, trace, base, kept);
        if ended.Some? {
          return ended.value, trace, ending, taken;
        }
        Nothing(Exchanges(tools, streams, trace));
      }
      ending, taken := [], 0;
      OverAfterAll(tools, streams, first, maxRounds, recordText, toCallback, trace);
      var stop := ShouldAbort();
      outcome := if stop then Aborted else OutOfRounds;
    }

    /** `run_turn`: the pump, and its flush.  What it adds to the history is well formed exactly
        when no call of the trace raises; what it says is the text of the events it took, the
        announcements they call for, and the completion text. */
    method RunTurn(streams: nat -> Stream, maxRounds: nat, reraise: bool, recordText: bool, toCallback: bool)
        returns (outcome: Outcome, ghost trace: seq<Round>, ghost ending: seq<Message>, ghost log: seq<Say>, ghost taken: nat)
      requires Running()
      modifies this`said, this`messages, this`runs, this`polls
      ensures said == old(said) + log && TakenOk(streams(|trace|), taken, outcome)
      ensures LogOk(tools.registry, streams, |trace|, taken, outcome, toCallback, log)
      ensures log == TurnLog(tools.registry, streams, |trace|, taken, outcome, toCallback)
                     + if outcome.Aborted? || (Raised(outcome) && reraise) then [] else [Flushed]
      ensures Flushes(log) == if outcome.Aborted? || (Raised(outcome) && reraise) then 0 else 1
      ensures messages == old(messages) + (Exchanges(tools, streams, trace) + ending)
      ensures WellFormed(Exchanges(tools, streams, trace) + ending) <==> forall k :: 0 <= k < |trace| ==> NoneRaises(tools, trace[k])
      ensures Played(tools, streams, old(runs), trace) && Ends(tools, streams, trace, maxRounds, recordText, outcome, ending)
      ensures if outcome.Aborted? then Stopped() else Running() && polls == old(polls) + TurnPolls(streams, |trace|, outcome)
    {
      ghost var base := said;
      outcome, trace, ending, taken := RunRounds(streams, maxRounds, recordText, toCallback);
      log := TurnLog(tools.registry, streams, |trace|, taken, outcome, toCallback);
      TurnWellFormed(tools, streams, trace, maxRounds, recordText, outcome, ending);
      TurnSays(tools.registry, streams, |trace|, taken, outcome, toCallback);
      if outcome.Aborted? || (Raised(outcome) && reraise) {
        Nothing(log);
        return;
      }
      Assoc(base, log, [Flushed]);
      said := said + [Flushed];
      log := log + [Flushed];
    }
  }

  /** Something raised. */
  predicate Raised(outcome: Outcome) { outcome.StreamError? || outcome.DispatchError? }

  /** What follows the calls of a round that all were answered: the turn is aborted, closed with
      the templates, or goes on. */
  ghost predicate ClosesWith(ds: seq<Dispatched>, recordText: bool, outcome: Option<Outcome>, ending: seq<Message>) {
    match outcome
    case None => !TemplateFires(ds) && ending == []
    case Some(Aborted) => ending == []
    case Some(Templated(text)) =>
      TemplateFires(ds) && text == TemplateCompletion(ds) && ending == if recordText then [AssistantText(text)] else []
    case _ => false
  }

  function ClosingOf(outcome: Option<Outcome>, toCallback: bool): seq<Say> {
    if outcome.None? then [] else Closing(outcome.value, toCallback)
  }

  /** What was said after a round that went on, or ended the turn. */
  lemma LogGrows(registry: Registry, streams: nat -> Stream, round: nat, taken: nat, ended: Option<Outcome>, toCallback: bool,
                 base: seq<Say>)
    requires taken <= |streams(round).events|
    ensures var was := base + RoundLogs(registry, streams, round);
      var now := was + (StreamLog(registry, round, streams(round).events[..taken]) + ClosingOf(ended, toCallback));
      && (ended.None? && taken == |streams(round).events| ==> now == base + RoundLogs(registry, streams, round + 1))
      && (ended.Some? ==> now == base + TurnLog(registry, streams, round, taken, ended.value, toCallback))
      && (ended.Some? && taken == |streams(round).events| ==>
            now == base + TurnLog(registry, streams, round + 1, 0, ended.value, toCallback))
  {
    var logs, log, last := RoundLogs(registry, streams, round), StreamLog(registry, round, streams(round).events[..taken]), ClosingOf(ended, toCallback);
    Grown(base, logs, log, last);
    if taken == |streams(round).events| {
      assert streams(round).events[..taken] == streams(round).events;
      assert streams(round + 1).events[..0] == [];
      Nothing(logs + log);
    }
    Nothing(log);
  }

  /** How a round that called tools may end, or not end, the turn. */
  ghost predicate Concluded(t: Tools, r: Round, recordText: bool, outcome: Option<Outcome>, ending: seq<Message>) {
    if outcome == Some(DispatchError) then !Full(t, r) && ending == []
    else Full(t, r) && ClosesWith(DispatchedIn(t, r), recordText, outcome, ending)
  }

  /** How one round may end, or not end, the turn. */
  ghost predicate RoundEnds(t: Tools, first: nat, stream: Stream, recordText: bool, outcome: Option<Outcome>, r: Option<Round>,
                            ending: seq<Message>)
  {
    match r
    case Some(r) =>
      && !stream.raises && CallsTools(stream.events) && CallsOf(stream.events, r.calls) && r.calls != [] && r.first == first
      && Concluded(t, r, recordText, outcome, ending)
    case None =>
      match outcome
      case Some(Aborted) => ending == []
      case Some(StreamError) => stream.raises && ending == []
      case Some(Replied(text)) =>
        && !stream.raises && !CallsTools(stream.events)
        && text == TextOf(stream.events) && ending == if text == "" then [] else [AssistantText(text)]
      case _ => false
  }

  lemma EndsByReply(t: Tools, first: nat, stream: Stream, recordText: bool, outcome: Outcome, ending: seq<Message>)
    requires !stream.raises && !CallsTools(stream.events)
    requires (outcome == Aborted && ending == [])
          || (outcome == Replied(TextOf(stream.events))
              && ending == if TextOf(stream.events) == "" then [] else [AssistantText(TextOf(stream.events))])
    ensures RoundEnds(t, first, stream, recordText, Some(outcome), None, ending)
  {
  }

  lemma EndsAfterCalls(t: Tools, r: Round, stream: Stream, recordText: bool, outcome: Option<Outcome>, ending: seq<Message>)
    requires !stream.raises && CallsTools(stream.events) && CallsOf(stream.events, r.calls) && r.calls != []
    requires Concluded(t, r, recordText, outcome, ending)
    ensures RoundEnds(t, r.first, stream, recordText, outcome, Some(r), ending) && outcome != Some(StreamError)
  {
  }

  lemma SomeDispatched(t: Tools, r: Round, ds: seq<Dispatched>)
    requires Went(t, r, ds, ResultsIn(t, r), false) && r.calls != []
    ensures ds != [] && Full(t, r) && ds == DispatchedIn(t, r)
  {
  }

  lemma ConcludedBy(t: Tools, r: Round, ds: seq<Dispatched>, recordText: bool, outcome: Option<Outcome>, ending: seq<Message>)
    requires Full(t, r) && ds == DispatchedIn(t, r) && ClosesWith(ds, recordText, outcome, ending)
    ensures Concluded(t, r, recordText, outcome, ending) && outcome != Some(DispatchError)
  {
  }

  lemma ConcludedByRaise(t: Tools, r: Round, recordText: bool)
    requires !Full(t, r)
    ensures Concluded(t, r, recordText, Some(DispatchError), [])
  {
  }

  lemma Assoc<T>(a: seq<T>, b: seq<T>, c: seq<T>)
    ensures (a + b) + c == a + (b + c)
  {
  }

  lemma Nothing<T>(a: seq<T>)
    ensures a + [] == a
  {
  }

  /** How a turn ends after the rounds of its trace.  All calls of all rounds were answered, but
      for the last round of a turn that ends with a raising call; and the first round whose tools
      all are templates that succeeded is the last one. */
  ghost predicate Ends(t: Tools, streams: nat -> Stream, trace: seq<Round>, maxRounds: nat, recordText: bool, outcome: Outcome,
                       ending: seq<Message>)
  {
    var n := |trace|;
    && n <= maxRounds && (n > 0 ==> GoesOn(t, trace[..n - 1]))
    && match outcome
       case Aborted => AllFull(t, trace) && ending == []
       case StreamError => GoesOn(t, trace) && n < maxRounds && streams(n).raises && ending == []
       case OutOfRounds => GoesOn(t, trace) && n == maxRounds && ending == []
       case Replied(text) =>
         && GoesOn(t, trace) && n < maxRounds && !streams(n).raises && !CallsTools(streams(n).events)
         && text == TextOf(streams(n).events) && ending == if text == "" then [] else [AssistantText(text)]
       case DispatchError => n > 0 && !Full(t, trace[n - 1]) && ending == []
       case Templated(_) => n > 0 && Concluded(t, trace[n - 1], recordText, Some(outcome), ending)
  }

  /** Rounds after which the pump asks again. */
  ghost predicate GoesOn(t: Tools, trace: seq<Round>) {
    forall k :: 0 <= k < |trace| ==> Full(t, trace[k]) && !TemplateFires(DispatchedIn(t, trace[k]))
  }

  /** Before a round: all rounds before it had their exchange, and none ended the turn. */
  ghost predicate Underway(t: Tools, streams: nat -> Stream, first: nat, round: nat, trace: seq<Round>) {
    Played(t, streams, first, trace) && GoesOn(t, trace) && |trace| == round
  }

  function Extended(trace: seq<Round>, r: Option<Round>): seq<Round> { if r.None? then trace else trace + [r.value] }

  function Added(t: Tools, stream: Stream, r: Option<Round>): seq<Message> {
    if r.None? then [] else Exchange(t, stream.events, r.value)
  }

  lemma AddedTo(t: Tools, streams: nat -> Stream, trace: seq<Round>, r: Option<Round>)
    ensures Exchanges(t, streams, Extended(trace, r)) == Exchanges(t, streams, trace) + Added(t, streams(|trace|), r)
  {
    if r.None? {
      Nothing(Exchanges(t, streams, trace));
    } else {
      OneMoreExchange(t, streams, trace, r.value);
    }
  }

  lemma StillPlayed(t: Tools, streams: nat -> Stream, first: nat, trace: seq<Round>, recordText: bool, ended: Option<Outcome>,
                    r: Option<Round>, ending: seq<Message>)
    requires Played(t, streams, first, trace)
    requires RoundEnds(t, RunsBefore(t, first, trace, |trace|), streams(|trace|), recordText, ended, r, ending)
    ensures Played(t, streams, first, Extended(trace, r))
  {
    if r.Some? {
      PlayedOn(t, streams, first, trace, r.value);
    }
  }

  lemma GoesOnBy(t: Tools, trace: seq<Round>, r: Round)
    requires GoesOn(t, trace)
    ensures (trace + [r])[..|trace + [r]| - 1] == trace
    ensures Full(t, r) && !TemplateFires(DispatchedIn(t, r)) ==> GoesOn(t, trace + [r])
    ensures Full(t, r) ==> AllFull(t, trace + [r])
  {
    assert forall k :: 0 <= k < |trace| ==> (trace + [r])[k] == trace[k];
  }

  /** After a round: the turn goes on, or ends. */
  lemma OnOrOver(t: Tools, streams: nat -> Stream, first: nat, trace: seq<Round>, maxRounds: nat, recordText: bool,
                 ended: Option<Outcome>, r: Option<Round>, ending: seq<Message>)
    requires GoesOn(t, trace) && |trace| < maxRounds && RoundEnds(t, first, streams(|trace|), recordText, ended, r, ending)
    ensures ended.None? ==> r.Some? && GoesOn(t, Extended(trace, r)) && ending == []
    ensures ended.Some? ==> Ends(t, streams, Extended(trace, r), maxRounds, recordText, ended.value, ending)
  {
    if r.Some? {
      GoesOnBy(t, trace, r.value);
    } else {
      assert trace != [] ==> GoesOn(t, trace[..|trace| - 1]);
    }
  }

  lemma Grown<T>(kept: seq<T>, done: seq<T>, block: seq<T>, ending: seq<T>)
    ensures (kept + done) + (block + ending) == kept + ((done + block) + ending)
  {
    Assoc(kept, done, block + ending);
    Assoc(done, block, ending);
  }

  lemma TraceGrows(t: Tools, streams: nat -> Stream, first: nat, trace: seq<Round>, maxRounds: nat, recordText: bool,
                   ended: Option<Outcome>, r: Option<Round>, ending: seq<Message>, kept: seq<Message>)
    requires Underway(t, streams, first, |trace|, trace) && |trace| < maxRounds
    requires RoundEnds(t, RunsBefore(t, first, trace, |trace|), streams(|trace|), recordText, ended, r, ending)
    ensures var trace1 := Extended(trace, r);
      && (kept + Exchanges(t, streams, trace)) + (Added(t, streams(|trace|), r) + ending) == kept + (Exchanges(t, streams, trace1) + ending)
      && Played(t, streams, first, trace1)
      && (ended.None? ==> r.Some? && ending == [] && Underway(t, streams, first, |trace| + 1, trace1))
      && (ended.Some? ==> Ends(t, streams, trace1, maxRounds, recordText, ended.value, ending))
  {
    Grown(kept, Exchanges(t, streams, trace), Added(t, streams(|trace|), r), ending);
    AddedTo(t, streams, trace, r);
    StillPlayed(t, streams, first, trace, recordText, ended, r, ending);
    OnOrOver(t, streams, RunsBefore(t, first, trace, |trace|), trace, maxRounds, recordText, ended, r, ending);
  }

  lemma EndsFull(t: Tools, streams: nat -> Stream, trace: seq<Round>, maxRounds: nat, recordText: bool, outcome: Outcome,
                 ending: seq<Message>)
    requires Ends(t, streams, trace, maxRounds, recordText, outcome, ending)
    ensures trace != [] ==> AllFull(t, trace[..|trace| - 1])
    ensures if outcome.DispatchError? then !AllFull(t, trace) && ending == [] else AllFull(t, trace) && WellFormed(ending)
  {
    if ending != [] { assert ending[1..] == []; }
  }

  lemma AllFullExactlyWhen(t: Tools, trace: seq<Round>)
    ensures AllFull(t, trace) <==> forall k :: 0 <= k < |trace| ==> NoneRaises(t, trace[k])
  {
    forall k | 0 <= k < |trace| ensures Full(t, trace[k]) <==> NoneRaises(t, trace[k]) {
      FullExactlyWhen(t, trace[k]);
    }
  }

  lemma TurnWellFormed(t: Tools, streams: nat -> Stream, trace: seq<Round>, maxRounds: nat, recordText: bool, outcome: Outcome,
                       ending: seq<Message>)
    requires Ends(t, streams, trace, maxRounds, recordText, outcome, ending)
    ensures WellFormed(Exchanges(t, streams, trace) + ending) <==> forall k :: 0 <= k < |trace| ==> NoneRaises(t, trace[k])
    ensures outcome == DispatchError <==> exists k :: 0 <= k < |trace| && !NoneRaises(t, trace[k])
  {
    EndsFull(t, streams, trace, maxRounds, recordText, outcome, ending);
    AllFullExactlyWhen(t, trace);
    ExchangesWellFormed(t, streams, trace);
    if outcome.DispatchError? {
      Nothing(Exchanges(t, streams, trace));
    } else {
      WellFormedAppend(Exchanges(t, streams, trace), ending);
    }
  }

  lemma OverAfterAll(t: Tools, streams: nat -> Stream, first: nat, rounds: nat, recordText: bool, toCallback: bool, trace: seq<Round>)
    requires Underway(t, streams, first, rounds, trace)
    ensures Exchanges(t, streams, trace) + [] == Exchanges(t, streams, trace)
    ensures TurnLog(t.registry, streams, rounds, 0, Aborted, toCallback) == RoundLogs(t.registry, streams, rounds)
    ensures TurnLog(t.registry, streams, rounds, 0, OutOfRounds, toCallback) == RoundLogs(t.registry, streams, rounds)
    ensures Ends(t, streams, trace, rounds, recordText, Aborted, []) && Ends(t, streams, trace, rounds, recordText, OutOfRounds, [])
  {
    assert streams(rounds).events[..0] == [];
    Nothing(RoundLogs(t.registry, streams, rounds));
    if trace != [] { assert GoesOn(t, trace[..|trace| - 1]); }
  }

  lemma {:induction false} SomethingSpoken(ds: seq<Dispatched>)
    requires ds != [] && TemplateFires(ds)
    ensures TemplateCompletion(ds) != ""
  {
    assert TemplateOk(ds[0]);
  }

  lemma ReasonSnoc(events: seq<Event>, e: Event)
    ensures ReasonOf(events + [e]) == if e.Finish? then Some(e.reason) else ReasonOf(events)
  {
    assert (events + [e])[..|events|] == events;
  }

  lemma TextSnoc(events: seq<Event>, e: Event)
    ensures TextOf(events + [e]) == if e.Text? then TextOf(events) + e.text else TextOf(events)
  {
    assert (events + [e])[..|events|] == events;
    assert TextOf(events) + "" == TextOf(events);
  }

  /** The tool of the k-th call is a registered template with something to say, and succeeded. */
  ghost predicate TemplateSucceeds(t: Tools, r: Round, k: nat)
    requires k < |r.calls|
  {
    && t.registry(r.calls[k].name).Some?
    && t.registry(r.calls[k].name).value.template && t.registry(r.calls[k].name).value.completion != ""
    && AnswerAt(t, r.first, r.calls, k).Some? && !AnswerAt(t, r.first, r.calls, k).value.failed
  }

  /** The fast path goes by the registry and the answers of all calls of the round. */
  lemma FiresExactlyWhen(t: Tools, r: Round)
    requires Full(t, r)
    ensures TemplateFires(DispatchedIn(t, r)) <==> forall k: nat :: k < |r.calls| ==> TemplateSucceeds(t, r, k)
  {
    AnswersAre(t, r.first, r.calls);
    var ds := DispatchedIn(t, r);
    forall k: nat | k < |r.calls| ensures TemplateOk(ds[k]) <==> TemplateSucceeds(t, r, k) {
    }
  }

  // ------------------------------------------------------------------
  // When the history stays well formed
  // ------------------------------------------------------------------

  /** Tools with which no call can raise: all arguments that are JSON are objects or meant for
      remote tools (or for none), and every tool that is run gives a JSON value. */
  ghost predicate NeverRaise(t: Tools) {
    && (forall args :: !t.parse(args).Refused?)
    && (forall args, name :: t.parse(args).OtherValue? && t.registry(name).Some? ==> t.registry(name).value.remote)
    && (forall n :: t.run(n).Some?)
  }

  lemma SafeTrace(t: Tools)
    requires NeverRaise(t)
    ensures forall r :: NoneRaises(t, r)
  {
  }

  lemma SafeEnds(t: Tools, streams: nat -> Stream, trace: seq<Round>, maxRounds: nat, recordText: bool, outcome: Outcome,
                 ending: seq<Message>)
    requires NeverRaise(t) && Ends(t, streams, trace, maxRounds, recordText, outcome, ending)
    ensures outcome != DispatchError
  {
    SafeTrace(t);
    TurnWellFormed(t, streams, trace, maxRounds, recordText, outcome, ending);
  }

  /** With such tools every turn leaves a well-formed history, ... */
  method SafeTurn(turn: Turn, streams: nat -> Stream, maxRounds: nat, reraise: bool, recordText: bool, toCallback: bool)
      returns (outcome: Outcome, ghost added: seq<Message>)
    requires turn.Running() && NeverRaise(turn.tools)
    modifies turn
    ensures turn.messages == old(turn.messages) + added && WellFormed(added) && outcome != DispatchError
  {
    ghost var trace, ending, log, taken;
    SafeTrace(turn.tools);
    outcome, trace, ending, log, taken := turn.RunTurn(streams, maxRounds, reraise, recordText, toCallback);
    SafeEnds(turn.tools, streams, trace, maxRounds, recordText, outcome, ending);
    added := Exchanges(turn.tools, streams, trace) + ending;
  }

  /** A model that asks for one call. */
  function AskFor(call: Call): seq<Event> {
    [ToolDelta(Some(0), call.id, call.name, call.arguments), Finish("tool_calls")]
  }

  lemma AskedAccumulates(call: Call, accs: map<int, Acc>)
    requires accs == map[0 := Acc(call.id, call.name, call.arguments)]
    ensures Accumulated(AskFor(call), accs) && CallsTools(AskFor(call)) && TextOf(AskFor(call)) == ""
  {
    var e, f := AskFor(call)[0], AskFor(call)[1];
    var was: map<int, Acc> := map[];
    assert [] + [e] == [e] && [e] + [f] == AskFor(call) && accs == was[0 := accs[0]];
    assert "" + call.arguments == call.arguments;
    DeltaAccumulates([], e, was, accs[0]);
    OtherAccumulates([e], f, accs);
    ReasonSnoc([e], f);
    TextSnoc([], e);
    TextSnoc([e], f);
    assert 0 in accs.Keys;
  }

  lemma AskedFor(call: Call, calls: seq<Call>)
    requires call.id != "" && call.arguments != ""
    ensures CallsTools(AskFor(call)) && TextOf(AskFor(call)) == ""
    ensures CallsOf(AskFor(call), calls) ==> calls == [call]
  {
    var accs := map[0 := Acc(call.id, call.name, call.arguments)];
    AskedAccumulates(call, accs);
    assert IsAscending([0], accs.Keys) && ArePayloads(accs, [0], [call]);
    PayloadsAreCalls(AskFor(call), accs, [0], [call]);
    if CallsOf(AskFor(call), calls) {
      CallsUnique(AskFor(call), calls, [call]);
    }
  }

  /** ... and a model that asks for a call that raises (with arguments `[1]` for a local tool,
      say) leaves the call without a result. */
  method RaisingCallStaysOpen(t: Tools, call: Call) returns (stream: Stream, outcome: Outcome, messages: seq<Message>)
    requires AnswerOf(t, 0, call).None? && call.id != "" && call.arguments != ""
    ensures outcome == DispatchError && messages == [ToolCalls(None, [call])] && !WellFormed(messages)
  {
    stream := Stream(AskFor(call), false);
    var turn := new Turn(t, (k: nat) => false);
    var streams := (k: nat) => stream;
    ghost var trace, ending, log, taken;
    outcome, trace, ending, log, taken := turn.RunTurn(streams, 1, false, false, false);
    messages := turn.messages;
    OnlyDispatchError(t, stream, call, streams, trace, outcome, ending);
  }

  lemma OnlyDispatchError(t: Tools, stream: Stream, call: Call, streams: nat -> Stream, trace: seq<Round>, outcome: Outcome,
                          ending: seq<Message>)
    requires AnswerOf(t, 0, call).None? && call.id != "" && call.arguments != ""
    requires stream == Stream(AskFor(call), false) && forall k :: streams(k) == stream
    requires Played(t, streams, 0, trace) && Ends(t, streams, trace, 1, false, outcome, ending) && outcome != Aborted
    ensures outcome == DispatchError && ending == [] && Exchanges(t, streams, trace) == [ToolCalls(None, [call])]
    ensures !WellFormed([ToolCalls(None, [call])])
  {
    AskedFor(call, []);
    if trace != [] {
      assert RoundOk(t, streams, 0, trace, 0);
      AskedFor(call, trace[0].calls);
      assert trace == [] + [Round(0, [call])];
      assert AnswerAt(t, 0, [call], 0).None?;
      assert ResultsIn(t, trace[0]) == [];
      OneMoreExchange(t, streams, [], trace[0]);
    }
  }
}

/** The Codex adapter's gate before its tool runner: provider items are claimed once,
    reads take a bounded slot, and everything else waits for a single-use approval. */
module ToolGate {
  import opened LedgerTypes

  const MAXIMUM_CALLS := 64
  const MAXIMUM_CALLS_PER_ATTEMPT := 8

  datatype ToolKey = ToolKey(attempt: Id, item: Id)

  datatype Access = ReadCommand | WriteCommand | FileChange

  /** A provider item; `hash` binds its name and arguments. */
  datatype Tool = Tool(hash: Id, access: Access, done: bool, requested: bool, answered: bool, startedByRequest: bool)

  datatype PendingApproval = PendingApproval(key: ToolKey, hash: Id, responding: bool, resolved: bool)

  /** The state the adapter shares between its goroutines. */
  datatype Gate = Gate(tools: map<ToolKey, Tool>, approvals: map<Id, PendingApproval>, calls: map<Id, int>, slots: int)

  function CallsOf(g: Gate, attempt: Id): int {
    if attempt in g.calls then g.calls[attempt] else 0
  }

  /** admitDynamicToolRequest and item/started: the first sight of an item records
      it, a second one must agree with the first. */
  function Admit(g: Gate, k: ToolKey, tool: Tool, byRequest: bool): (Gate, bool) {
    if k !in g.tools then
      var seen := Tool(tool.hash, tool.access, false, false, false, byRequest);
      (g.(tools := g.tools[k := seen]), true)
    else
      var old_ := g.tools[k];
      var same := !old_.done && old_.hash == tool.hash && old_.access == tool.access;
      if byRequest then (g, same)
      else if same && old_.startedByRequest then (g.(tools := g.tools[k := old_.(startedByRequest := false)]), true)
      else (g, false)
  }

  /** claimToolRequest */
  function Claim(g: Gate, k: ToolKey, hash: Id): (Gate, bool) {
    if k !in g.tools || g.tools[k].done || g.tools[k].hash != hash || g.tools[k].requested then (g, false)
    else (g.(tools := g.tools[k := g.tools[k].(requested := true)]), true)
  }

  /** reserveToolCall */
  function Reserve(g: Gate, attempt: Id): (Gate, bool) {
    if CallsOf(g, attempt) >= MAXIMUM_CALLS_PER_ATTEMPT || g.slots >= MAXIMUM_CALLS then (g, false)
    else (g.(calls := g.calls[attempt := CallsOf(g, attempt) + 1], slots := g.slots + 1), true)
  }

  /** releaseToolCall */
  function Release(g: Gate, attempt: Id): Gate {
    var calls := CallsOf(g, attempt);
    if calls > 0 then g.(calls := g.calls[attempt := calls - 1], slots := g.slots - 1) else g
  }

  /** registerApproval; `capacity` is the interaction limit's answer. */
  function Register(g: Gate, id: Id, k: ToolKey, hash: Id, capacity: bool): (Gate, bool) {
    if id in g.approvals || !capacity then (g, false)
    else (g.(approvals := g.approvals[id := PendingApproval(k, hash, false, false)]), true)
  }

  /** The first critical section of RespondApproval. */
  function Respond(g: Gate, id: Id, attempt: Id, hash: Id): (Gate, bool) {
    if id !in g.approvals || g.approvals[id].key.attempt != attempt || g.approvals[id].hash != hash
        || g.approvals[id].responding then (g, false)
    else if g.approvals[id].resolved then (g.(approvals := g.approvals - {id}), false)
    else (g.(approvals := g.approvals[id := g.approvals[id].(responding := true)]), true)
  }

  /** setExpectedToolResponse */
  function SetAnswer(g: Gate, k: ToolKey): (Gate, bool) {
    if k !in g.tools || g.tools[k].done || g.tools[k].answered then (g, false)
    else (g.(tools := g.tools[k := g.tools[k].(answered := true)]), true)
  }

  /** item/completed */
  function Complete(g: Gate, k: ToolKey): (Gate, bool) {
    if k !in g.tools || g.tools[k].done || !g.tools[k].answered then (g, false)
    else (g.(tools := g.tools[k := g.tools[k].(done := true)]), true)
  }

  /** The same in place. */
  class SharedGate {
    var tools: map<ToolKey, Tool>
    var approvals: map<Id, PendingApproval>
    var calls: map<Id, int>
    var slots: int

    ghost function State(): Gate
      reads this
    {
      Gate(tools, approvals, calls, slots)
    }

    constructor ()
      ensures State() == Gate(map[], map[], map[], 0)
    {
      tools, approvals, calls, slots := map[], map[], map[], 0;
    }

    method ClaimToolRequest(k: ToolKey, hash: Id) returns (claimed: bool)
      modifies this`tools
      ensures (State(), claimed) == Claim(old(State()), k, hash)
    {
      if k !in tools || tools[k].done || tools[k].hash != hash { return false; }
      var tool := tools[k];
      if tool.requested { return false; }
      tool := tool.(requested := true);
      tools := tools[k := tool];
      return true;
    }

    method ReserveToolCall(attempt: Id) returns (ok: bool)
      modifies this`calls, this`slots
      ensures (State(), ok) == Reserve(old(State()), attempt)
    {
      var count := if attempt in calls then calls[attempt] else 0;
      if count >= MAXIMUM_CALLS_PER_ATTEMPT { return false; }
      if slots >= MAXIMUM_CALLS { return false; }
      slots := slots + 1;
      calls := calls[attempt := count + 1];
      return true;
    }

    method ReleaseToolCall(attempt: Id)
      modifies this`calls, this`slots
      ensures State() == Release(old(State()), attempt)
    {
      if attempt in calls && calls[attempt] > 0 {
        calls := calls[attempt := calls[attempt] - 1];
        slots := slots - 1;
      }
    }

    method BeginResponse(id: Id, attempt: Id, hash: Id) returns (ok: bool)
      modifies this`approvals
      ensures (State(), ok) == Respond(old(State()), id, attempt, hash)
    {
      if id !in approvals || approvals[id].key.attempt != attempt || approvals[id].hash != hash { return false; }
      var pending := approvals[id];
      if pending.responding { return false; }
      if pending.resolved {
        approvals := approvals - {id};
        return false;
      }
      approvals := approvals[id := pending.(responding := true)];
      return true;
    }
  }

  // ------------------------------------------------------------------ steps

  /** How far RespondApproval has come: past its first critical section, past the
      check of the tool, or with nothing left to run. */
  datatype Progress = Accepted | Cleared(access: Access) | Decided

  /** An approval response on its way through the runner. */
  datatype Answer = Answer(id: Id, key: ToolKey, hash: Id, allow: bool, progress: Progress)

  /** One execution by the runner, with the approval that permitted it. */
  datatype Execution = Execution(key: ToolKey, hash: Id, access: Access, grant: Option<Id>)

  /** An accepted allow_once response. */
  datatype Grant = Grant(id: Id, attempt: Id, hash: Id)

  /** The gate, what its goroutines hold in their hands, and the history.
      `reading` says of each reserved read whether it has run. */
  datatype World = World(gate: Gate, routing: set<ToolKey>, reading: map<ToolKey, bool>, answers: map<Id, Answer>,
                         runs: seq<Execution>, grants: set<Grant>)

  datatype Step =
    | Seen(key: ToolKey, tool: Tool, byRequest: bool)
    | Claims(key: ToolKey, hash: Id)
    | Route(key: ToolKey, id: Id, capacity: bool)
    | RunRead(key: ToolKey)
    | AnswerRead(key: ToolKey)
    | EndRead(key: ToolKey)
    | Responds(task: Id, id: Id, attempt: Id, hash: Id, allow: bool)
    | Checks(task: Id)
    | RunApproved(task: Id)
    | Answers(task: Id)
    | Drops(id: Id)
    | Resolves(id: Id)
    | Completes(key: ToolKey)

  const NEW_WORLD := World(Gate(map[], map[], map[], 0), {}, map[], map[], [], {})

  /** Where a claimed request goes: a slot, an approval, or a refusal. */
  function Routed(w: World, k: ToolKey, id: Id, capacity: bool): World
    requires k in w.gate.tools
  {
    var w1 := w.(routing := w.routing - {k});
    var tool := w.gate.tools[k];
    if tool.access == ReadCommand then
      var (g, ok) := Reserve(w.gate, k.attempt);
      if ok then w1.(gate := g, reading := w.reading[k := false]) else w1.(gate := SetAnswer(w.gate, k).0)
    else w1.(gate := Register(w.gate, id, k, tool.hash, capacity).0)
  }

  function Advance(w: World, task: Id, progress: Progress): World
    requires task in w.answers
  {
    w.(answers := w.answers[task := w.answers[task].(progress := progress)])
  }

  function Dropped(w: World, id: Id): World {
    w.(gate := w.gate.(approvals := w.gate.approvals - {id}))
  }

  function Finished(w: World, task: Id): World {
    w.(answers := w.answers - {task})
  }

  /** The tool is looked up again: it must still be the one the approval was for. */
  function Checked(w: World, task: Id): World
    requires task in w.answers
  {
    var a := w.answers[task];
    if a.key !in w.gate.tools || w.gate.tools[a.key].done
        || w.gate.tools[a.key].hash != a.hash then Dropped(Finished(w, task), a.id)
    else Advance(w, task, if a.allow then Cleared(w.gate.tools[a.key].access) else Decided)
  }

  /** setExpectedToolResponse at the end of RespondApproval. */
  function Settled(w: World, task: Id): World
    requires task in w.answers
  {
    var a := w.answers[task];
    var (g, ok) := SetAnswer(w.gate, a.key);
    if ok then Finished(w, task).(gate := g) else Dropped(Finished(w, task), a.id)
  }

  /** The runner executes what an allow_once has cleared. */
  function Executed(w: World, task: Id): World
    requires task in w.answers && w.answers[task].progress.Cleared?
  {
    var a := w.answers[task];
    Advance(w, task, Decided).(runs := w.runs + [Execution(a.key, a.hash, a.progress.access, Some(a.id))])
  }

  function Do(w: World, s: Step): World {
    match s
    case Seen(k, tool, byRequest) => w.(gate := Admit(w.gate, k, tool, byRequest).0)
    case Claims(k, hash) =>
      var (g, ok) := Claim(w.gate, k, hash);
      if ok then w.(gate := g, routing := w.routing + {k}) else w
    case Route(k, id, capacity) => if k in w.routing && k in w.gate.tools then Routed(w, k, id, capacity) else w
    case RunRead(k) =>
      if k in w.reading && !w.reading[k] && k in w.gate.tools then
        var run := Execution(k, w.gate.tools[k].hash, w.gate.tools[k].access, None);
        w.(reading := w.reading[k := true], runs := w.runs + [run])
      else w
    case AnswerRead(k) => if k in w.reading && w.reading[k] then w.(gate := SetAnswer(w.gate, k).0) else w
    case EndRead(k) =>
      if k in w.reading && w.reading[k]
      then w.(reading := w.reading - {k}, gate := Release(w.gate, k.attempt))
      else w
    case Responds(task, id, attempt, hash, allow) =>
      if task in w.answers then w
      else
        var (g, ok) := Respond(w.gate, id, attempt, hash);
        if !ok then w.(gate := g)
        else
          var answer := Answer(id, g.approvals[id].key, hash, allow, Accepted);
          var grants := if allow then w.grants + {Grant(id, attempt, hash)} else w.grants;
          World(g, w.routing, w.reading, w.answers[task := answer], w.runs, grants)
    case Checks(task) => if task in w.answers && w.answers[task].progress == Accepted then Checked(w, task) else w
    case RunApproved(task) =>
      if task in w.answers && w.answers[task].allow && w.answers[task].progress.Cleared? then Executed(w, task) else w
    case Answers(task) => if task in w.answers && w.answers[task].progress == Decided then Settled(w, task) else w
    case Drops(id) => Dropped(w, id)
    case Resolves(id) =>
      if id in w.gate.approvals then
        var resolved := w.gate.approvals[id].(resolved := true);
        w.(gate := w.gate.(approvals := w.gate.approvals[id := resolved]))
      else w
    case Completes(k) => w.(gate := Complete(w.gate, k).0)
  }

  function Run(steps: seq<Step>): World {
    if steps == [] then NEW_WORLD else Do(Run(steps[..|steps| - 1]), steps[|steps| - 1])
  }

  // -------------------------------------------------------------- invariant

  function RunCount(runs: seq<Execution>, k: ToolKey): nat {
    if runs == [] then 0 else RunCount(runs[..|runs| - 1], k) + (if runs[|runs| - 1].key == k then 1 else 0)
  }

  ghost function OpenIds(approvals: map<Id, PendingApproval>, k: ToolKey): set<Id> {
    set id | id in approvals && approvals[id].key == k && !approvals[id].responding
  }

  /** The answers that may still lead to a run. */
  ghost function TasksOf(answers: map<Id, Answer>, k: ToolKey): set<Id> {
    set t | t in answers && answers[t].key == k && answers[t].progress != Decided
  }

  function Unrun(reading: map<ToolKey, bool>, k: ToolKey): nat {
    if k in reading && !reading[k] then 1 else 0
  }

  /** The chances an item still has to run, plus the times it ran. */
  ghost function Chances(w: World, k: ToolKey): nat {
    (if k in w.routing then 1 else 0) + Unrun(w.reading, k) + |OpenIds(w.gate.approvals, k)| + |TasksOf(w.answers, k)|
        + RunCount(w.runs, k)
  }

  predicate Requested(tools: map<ToolKey, Tool>, k: ToolKey) {
    k in tools && tools[k].requested
  }

  ghost predicate OneChance(w: World) {
    forall k :: Chances(w, k) <= 1 && (Chances(w, k) > 0 ==> Requested(w.gate.tools, k))
  }

  /** Approvals and answers name the item as it was claimed, and are no reads. */
  ghost predicate Bound(w: World) {
    && (forall id :: id in w.gate.approvals ==>
         BoundTo(w.gate.tools, w.gate.approvals[id].key, w.gate.approvals[id].hash))
    && (forall t :: t in w.answers ==> BoundTo(w.gate.tools, w.answers[t].key, w.answers[t].hash))
    && (forall k :: k in w.reading ==>
         k in w.gate.tools && w.gate.tools[k].access == ReadCommand && (w.reading[k] ==> RunCount(w.runs, k) > 0))
  }

  predicate BoundTo(tools: map<ToolKey, Tool>, k: ToolKey, hash: Id) {
    k in tools && tools[k].hash == hash && tools[k].access != ReadCommand
  }

  /** An execution other than a read follows an allow_once of the same attempt and
      action hash. */
  predicate Permitted(e: Execution, grants: set<Grant>) {
    e.access != ReadCommand ==> e.grant.Some? && Grant(e.grant.value, e.key.attempt, e.hash) in grants
  }

  ghost predicate AllPermitted(w: World) {
    && (forall i :: 0 <= i < |w.runs| ==> Permitted(w.runs[i], w.grants))
    && (forall t :: t in w.answers && w.answers[t].allow ==>
         Grant(w.answers[t].id, w.answers[t].key.attempt, w.answers[t].hash) in w.grants)
  }

  ghost function ReadsOf(reading: map<ToolKey, bool>, attempt: Id): set<ToolKey> {
    set k | k in reading && k.attempt == attempt
  }

  /** The counters are the reads in progress, in all and per attempt. */
  ghost predicate CountedBy(g: Gate, reading: map<ToolKey, bool>) {
    && g.slots == |reading| <= MAXIMUM_CALLS
    && forall a :: CallsOf(g, a) == |ReadsOf(reading, a)| <= MAXIMUM_CALLS_PER_ATTEMPT
  }

  ghost predicate Counted(w: World) {
    CountedBy(w.gate, w.reading)
  }

  ghost predicate Inv(w: World) {
    OneChance(w) && Bound(w) && AllPermitted(w) && Counted(w)
  }

  // ------------------------------------------------- what a gate step leaves

  /** Tools keep their identity and their claim. */
  ghost predicate ToolsKept(o: map<ToolKey, Tool>, n: map<ToolKey, Tool>) {
    forall k :: k in o ==>
      && k in n && n[k].hash == o[k].hash && n[k].access == o[k].access
      && (o[k].requested ==> n[k].requested)
  }

  lemma StillBound(o: map<ToolKey, Tool>, n: map<ToolKey, Tool>, k: ToolKey, hash: Id)
    requires ToolsKept(o, n) && BoundTo(o, k, hash)
    ensures BoundTo(n, k, hash)
  {
  }

  /** A step that changes only the tools. */
  lemma ToolsStep(w: World, tools: map<ToolKey, Tool>)
    requires Inv(w) && ToolsKept(w.gate.tools, tools)
    ensures Inv(w.(gate := w.gate.(tools := tools)))
  {
    var n := w.(gate := w.gate.(tools := tools));
    forall k
      ensures Chances(n, k) <= 1 && (Chances(n, k) > 0 ==> Requested(n.gate.tools, k))
    {
      assert Chances(n, k) == Chances(w, k);
    }
    assert forall a :: CallsOf(n.gate, a) == CallsOf(w.gate, a);
  }

  lemma ClaimStep(w: World, k: ToolKey, hash: Id)
    requires Inv(w) && Claim(w.gate, k, hash).1
    ensures Inv(Do(w, Claims(k, hash)))
  {
    var n := Do(w, Claims(k, hash));
    assert Chances(w, k) == 0;
    forall j
      ensures Chances(n, j) <= 1 && (Chances(n, j) > 0 ==> Requested(n.gate.tools, j))
    {
      if j != k { assert Chances(n, j) == Chances(w, j); } else { assert Chances(n, k) == 1; }
    }
    assert ToolsKept(w.gate.tools, n.gate.tools);
    assert forall a :: CallsOf(n.gate, a) == CallsOf(w.gate, a);
  }

  /** No item gains a chance when approvals are dropped, and tools stay. */
  lemma FewerChances(w: World, n: World)
    requires OneChance(w) && ToolsKept(w.gate.tools, n.gate.tools) && forall k :: Chances(n, k) <= Chances(w, k)
    ensures OneChance(n)
  {
    forall k
      ensures Chances(n, k) <= 1 && (Chances(n, k) > 0 ==> Requested(n.gate.tools, k))
    {
      assert Chances(n, k) <= Chances(w, k);
    }
  }

  lemma Subset(a: set<Id>, b: set<Id>)
    requires a <= b
    ensures |a| <= |b|
  {
    var rest := b - a;
    assert b == a + rest;
  }

  predicate SameApproval(a: PendingApproval, b: PendingApproval) {
    a.key == b.key && a.hash == b.hash && a.responding == b.responding
  }

  lemma DropIds(o: map<Id, PendingApproval>, n: map<Id, PendingApproval>, k: ToolKey)
    requires forall id :: id in n ==> id in o && SameApproval(n[id], o[id])
    ensures |OpenIds(n, k)| <= |OpenIds(o, k)|
  {
    forall id | id in OpenIds(n, k)
      ensures id in OpenIds(o, k)
    {
    }
    Subset(OpenIds(n, k), OpenIds(o, k));
  }

  lemma DropStep(w: World, approvals: map<Id, PendingApproval>)
    requires Inv(w)
    requires forall id :: id in approvals ==>
        id in w.gate.approvals && SameApproval(approvals[id], w.gate.approvals[id])
    ensures Inv(w.(gate := w.gate.(approvals := approvals)))
  {
    var n := w.(gate := w.gate.(approvals := approvals));
    forall k
      ensures Chances(n, k) <= Chances(w, k)
    {
      DropIds(w.gate.approvals, approvals, k);
    }
    FewerChances(w, n);
    assert forall a :: CallsOf(n.gate, a) == CallsOf(w.gate, a);
  }

  // ------------------------------------------------------------ reading

  /** A claimed item in routing has neither run nor been reserved. */
  lemma RoutingFresh(w: World, k: ToolKey)
    requires Inv(w) && k in w.routing
    ensures k !in w.reading && OpenIds(w.gate.approvals, k) == {} && TasksOf(w.answers, k) == {}
    ensures RunCount(w.runs, k) == 0
    ensures Requested(w.gate.tools, k)
  {
    assert Chances(w, k) <= 1;
  }

  lemma ReadsGrow(reading: map<ToolKey, bool>, k: ToolKey, a: Id)
    requires k !in reading
    ensures |ReadsOf(reading[k := false], a)| == |ReadsOf(reading, a)| + (if a == k.attempt then 1 else 0)
    ensures |reading[k := false]| == |reading| + 1
  {
    var next := reading[k := false];
    assert next.Keys == reading.Keys + {k};
    assert |next| == |next.Keys| && |reading| == |reading.Keys|;
    if a == k.attempt {
      assert ReadsOf(next, a) == ReadsOf(reading, a) + {k};
    } else {
      assert ReadsOf(next, a) == ReadsOf(reading, a);
    }
  }

  lemma ReserveCounts(w: World, k: ToolKey, g: Gate)
    requires Counted(w) && k !in w.reading && Reserve(w.gate, k.attempt) == (g, true)
    ensures CountedBy(g, w.reading[k := false])
  {
    ReadsGrow(w.reading, k, 0);
    var next := w.reading[k := false];
    forall a
      ensures CallsOf(g, a) == |ReadsOf(next, a)| <= MAXIMUM_CALLS_PER_ATTEMPT
    {
      assert CallsOf(w.gate, a) == |ReadsOf(w.reading, a)|;
      ReadsGrow(w.reading, k, a);
    }
  }

  lemma ReadsShrink(reading: map<ToolKey, bool>, k: ToolKey, a: Id)
    requires k in reading
    ensures |ReadsOf(reading - {k}, a)| == |ReadsOf(reading, a)| - (if a == k.attempt then 1 else 0)
    ensures |reading - {k}| == |reading| - 1
  {
    var next := reading - {k};
    assert reading.Keys == next.Keys + {k};
    assert |next| == |next.Keys| && |reading| == |reading.Keys|;
    if a == k.attempt {
      assert ReadsOf(reading, a) == ReadsOf(next, a) + {k};
    } else {
      assert ReadsOf(next, a) == ReadsOf(reading, a);
    }
  }

  lemma ReleaseCounts(w: World, k: ToolKey, g: Gate)
    requires Counted(w) && k in w.reading && g.calls == w.gate.calls && g.slots == w.gate.slots
    ensures CountedBy(Release(g, k.attempt), w.reading - {k})
  {
    hide ReadsOf;
    var n := Release(g, k.attempt);
    assert CallsOf(w.gate, k.attempt) == |ReadsOf(w.reading, k.attempt)|;
    ReadsShrink(w.reading, k, k.attempt);
    forall a
      ensures CallsOf(n, a) == |ReadsOf(w.reading - {k}, a)| <= MAXIMUM_CALLS_PER_ATTEMPT
    {
      assert CallsOf(w.gate, a) == |ReadsOf(w.reading, a)|;
      ReadsShrink(w.reading, k, a);
    }
  }

  lemma ReadChances(w: World, k: ToolKey, n: World)
    requires Inv(w) && k in w.routing
    requires n == w.(routing := w.routing - {k}, gate := n.gate, reading := w.reading[k := false])
    requires n.gate.tools == w.gate.tools && n.gate.approvals == w.gate.approvals
    ensures OneChance(n)
  {
    hide OpenIds, TasksOf, Counted, Bound, AllPermitted, RunCount;
    RoutingFresh(w, k);
    forall j
      ensures Chances(n, j) <= Chances(w, j)
    {
      assert j != k ==> Unrun(n.reading, j) == Unrun(w.reading, j);
    }
    FewerChances(w, n);
  }

  lemma RouteRead(w: World, k: ToolKey, id: Id, capacity: bool)
    requires Inv(w) && k in w.routing && k in w.gate.tools && w.gate.tools[k].access == ReadCommand
    requires Reserve(w.gate, k.attempt).1
    ensures Inv(Routed(w, k, id, capacity))
  {
    hide CountedBy, TasksOf, OpenIds, OneChance, Chances;
    var n := Routed(w, k, id, capacity);
    RoutingFresh(w, k);
    assert n.gate == Reserve(w.gate, k.attempt).0 && n.reading == w.reading[k := false] && n.runs == w.runs;
    ReserveCounts(w, k, n.gate);
    ReadChances(w, k, n);
  }

  /** A claim that leads nowhere. */
  lemma RouteNowhere(w: World, k: ToolKey)
    requires Inv(w)
    ensures Inv(w.(routing := w.routing - {k}))
  {
    var n := w.(routing := w.routing - {k});
    forall j
      ensures Chances(n, j) <= Chances(w, j)
    {
    }
    FewerChances(w, n);
    assert forall a :: CallsOf(n.gate, a) == CallsOf(w.gate, a);
  }

  lemma AnswerStep(w: World, k: ToolKey)
    requires Inv(w)
    ensures Inv(w.(gate := SetAnswer(w.gate, k).0))
  {
    ToolsStep(w, SetAnswer(w.gate, k).0.tools);
    assert SetAnswer(w.gate, k).0 == w.gate.(tools := SetAnswer(w.gate, k).0.tools);
  }

  lemma RegisterIds(approvals: map<Id, PendingApproval>, id: Id, p: PendingApproval, j: ToolKey)
    requires id !in approvals && !p.responding
    ensures |OpenIds(approvals[id := p], j)| == |OpenIds(approvals, j)| + (if p.key == j then 1 else 0)
  {
    if p.key == j {
      assert OpenIds(approvals[id := p], j) == OpenIds(approvals, j) + {id};
    } else {
      assert OpenIds(approvals[id := p], j) == OpenIds(approvals, j);
    }
  }

  lemma RouteRegister(w: World, k: ToolKey, id: Id, capacity: bool)
    requires Inv(w) && k in w.routing && k in w.gate.tools && w.gate.tools[k].access != ReadCommand
    requires id !in w.gate.approvals && capacity
    ensures Inv(Routed(w, k, id, capacity))
  {
    var n := Routed(w, k, id, capacity);
    RoutingFresh(w, k);
    forall j
      ensures Chances(n, j) <= Chances(w, j)
    {
      RegisterIds(w.gate.approvals, id, PendingApproval(k, w.gate.tools[k].hash, false, false), j);
    }
    FewerChances(w, n);
    assert forall a :: CallsOf(n.gate, a) == CallsOf(w.gate, a);
  }

  lemma RouteStep(w: World, k: ToolKey, id: Id, capacity: bool)
    requires Inv(w) && k in w.routing && k in w.gate.tools
    ensures Inv(Routed(w, k, id, capacity))
  {
    hide Inv;
    if w.gate.tools[k].access == ReadCommand {
      if Reserve(w.gate, k.attempt).1 {
        RouteRead(w, k, id, capacity);
      } else {
        RouteNowhere(w, k);
        AnswerStep(w.(routing := w.routing - {k}), k);
      }
    } else if id !in w.gate.approvals && capacity {
      RouteRegister(w, k, id, capacity);
    } else {
      RouteNowhere(w, k);
      assert Routed(w, k, id, capacity) == w.(routing := w.routing - {k});
    }
  }

  lemma RunPush(runs: seq<Execution>, e: Execution, k: ToolKey)
    ensures RunCount(runs + [e], k) == RunCount(runs, k) + (if e.key == k then 1 else 0)
  {
    assert (runs + [e])[..|runs|] == runs;
  }

  lemma SameReads(g: Gate, reading: map<ToolKey, bool>, k: ToolKey)
    requires CountedBy(g, reading) && k in reading
    ensures CountedBy(g, reading[k := true])
  {
    var next := reading[k := true];
    assert next.Keys == reading.Keys;
    assert |next| == |next.Keys| && |reading| == |reading.Keys|;
    forall a
      ensures CallsOf(g, a) == |ReadsOf(next, a)| <= MAXIMUM_CALLS_PER_ATTEMPT
    {
      assert ReadsOf(next, a) == ReadsOf(reading, a);
    }
  }

  lemma RanChances(w: World, k: ToolKey, n: World, e: Execution)
    requires OneChance(w) && k in w.reading && !w.reading[k] && e.key == k
    requires n == w.(reading := w.reading[k := true], runs := w.runs + [e])
    ensures OneChance(n)
    ensures forall j :: RunCount(n.runs, j) >= RunCount(w.runs, j) && (j == k ==> RunCount(n.runs, j) > 0)
  {
    hide OpenIds, TasksOf, RunCount;
    forall j
      ensures Chances(n, j) == Chances(w, j) && RunCount(n.runs, j) >= RunCount(w.runs, j)
      ensures j == k ==> RunCount(n.runs, j) > 0
    {
      RunPush(w.runs, e, j);
    }
    FewerChances(w, n);
  }

  lemma RunReadStep(w: World, k: ToolKey)
    requires Inv(w) && k in w.reading && !w.reading[k]
    ensures Inv(Do(w, RunRead(k)))
  {
    hide OpenIds, TasksOf, CountedBy, OneChance, Chances, RunCount;
    var n := Do(w, RunRead(k));
    RanChances(w, k, n, Execution(k, w.gate.tools[k].hash, w.gate.tools[k].access, None));
    SameReads(w.gate, w.reading, k);
  }

  lemma ReleaseStep(w: World, k: ToolKey)
    requires Inv(w) && k in w.reading && w.reading[k]
    ensures Inv(w.(reading := w.reading - {k}, gate := Release(w.gate, k.attempt)))
  {
    hide CountedBy, OpenIds, TasksOf;
    var n := w.(reading := w.reading - {k}, gate := Release(w.gate, k.attempt));
    ReleaseCounts(w, k, w.gate);
    forall j
      ensures Chances(n, j) == Chances(w, j)
    {
    }
    FewerChances(w, n);
  }

  // ---------------------------------------------------------- responding

  lemma RespondIds(approvals: map<Id, PendingApproval>, id: Id, j: ToolKey)
    requires id in approvals && !approvals[id].responding
    ensures |OpenIds(approvals[id := approvals[id].(responding := true)], j)| ==
        |OpenIds(approvals, j)| - (if approvals[id].key == j then 1 else 0)
  {
    var next := approvals[id := approvals[id].(responding := true)];
    if approvals[id].key == j {
      assert OpenIds(approvals, j) == OpenIds(next, j) + {id};
    } else {
      assert OpenIds(approvals, j) == OpenIds(next, j);
    }
  }

  lemma TaskAdded(answers: map<Id, Answer>, task: Id, a: Answer, j: ToolKey)
    requires task !in answers && a.progress != Decided
    ensures |TasksOf(answers[task := a], j)| == |TasksOf(answers, j)| + (if a.key == j then 1 else 0)
  {
    if a.key == j {
      assert TasksOf(answers[task := a], j) == TasksOf(answers, j) + {task};
    } else {
      assert TasksOf(answers[task := a], j) == TasksOf(answers, j);
    }
  }

  predicate Counts(a: Answer, j: ToolKey) {
    a.key == j && a.progress != Decided
  }

  lemma TaskRemoved(answers: map<Id, Answer>, task: Id, j: ToolKey)
    requires task in answers
    ensures |TasksOf(answers - {task}, j)| == |TasksOf(answers, j)| - (if Counts(answers[task], j) then 1 else 0)
  {
    if Counts(answers[task], j) {
      assert TasksOf(answers, j) == TasksOf(answers - {task}, j) + {task};
    } else {
      assert TasksOf(answers, j) == TasksOf(answers - {task}, j);
    }
  }

  lemma TaskMoved(answers: map<Id, Answer>, task: Id, p: Progress, j: ToolKey)
    requires task in answers && answers[task].progress != Decided
    ensures |TasksOf(answers[task := answers[task].(progress := p)], j)| ==
        |TasksOf(answers, j)| - (if p == Decided && Counts(answers[task], j) then 1 else 0)
  {
    var next := answers[task := answers[task].(progress := p)];
    if p == Decided && Counts(answers[task], j) {
      assert TasksOf(answers, j) == TasksOf(next, j) + {task};
    } else {
      assert TasksOf(answers, j) == TasksOf(next, j);
    }
  }

  lemma RespondStep(w: World, task: Id, id: Id, attempt: Id, hash: Id, allow: bool)
    requires Inv(w) && task !in w.answers && Respond(w.gate, id, attempt, hash).1
    ensures Inv(Do(w, Responds(task, id, attempt, hash, allow)))
  {
    hide OpenIds, TasksOf, ReadsOf;
    var n := Do(w, Responds(task, id, attempt, hash, allow));
    var p := w.gate.approvals[id];
    forall j
      ensures Chances(n, j) == Chances(w, j)
    {
      RespondIds(w.gate.approvals, id, j);
      TaskAdded(w.answers, task, Answer(id, p.key, hash, allow, Accepted), j);
    }
    FewerChances(w, n);
    assert BoundTo(w.gate.tools, p.key, p.hash);
    assert forall a :: CallsOf(n.gate, a) == CallsOf(w.gate, a);
  }

  lemma FinishStep(w: World, task: Id)
    requires Inv(w) && task in w.answers
    ensures Inv(Finished(w, task))
  {
    hide TasksOf, OpenIds, ReadsOf;
    var n := Finished(w, task);
    forall j
      ensures Chances(n, j) <= Chances(w, j)
    {
      TaskRemoved(w.answers, task, j);
    }
    FewerChances(w, n);
    assert forall b :: CallsOf(n.gate, b) == CallsOf(w.gate, b);
  }

  lemma AdvanceStep(w: World, task: Id, p: Progress)
    requires Inv(w) && task in w.answers && w.answers[task].progress != Decided
    ensures Inv(Advance(w, task, p))
  {
    hide TasksOf, OpenIds, ReadsOf;
    var n := Advance(w, task, p);
    forall j
      ensures Chances(n, j) <= Chances(w, j)
    {
      TaskMoved(w.answers, task, p, j);
    }
    FewerChances(w, n);
    assert forall b :: CallsOf(n.gate, b) == CallsOf(w.gate, b);
  }

  lemma CheckStep(w: World, task: Id)
    requires Inv(w) && task in w.answers && w.answers[task].progress != Decided
    ensures Inv(Checked(w, task))
  {
    hide Inv;
    var a := w.answers[task];
    if a.key !in w.gate.tools || w.gate.tools[a.key].done || w.gate.tools[a.key].hash != a.hash {
      FinishStep(w, task);
      DropStep(Finished(w, task), w.gate.approvals - {a.id});
    } else {
      AdvanceStep(w, task, if a.allow then Cleared(w.gate.tools[a.key].access) else Decided);
    }
  }

  /** The chance of the answer becomes a run. */
  lemma ExecuteStep(w: World, task: Id)
    requires Inv(w) && task in w.answers && w.answers[task].allow && w.answers[task].progress.Cleared?
    ensures Inv(Executed(w, task))
  {
    hide TasksOf, OpenIds, ReadsOf, RunCount;
    var n := Executed(w, task);
    var e := n.runs[|w.runs|];
    forall j
      ensures Chances(n, j) == Chances(w, j) && RunCount(n.runs, j) >= RunCount(w.runs, j)
    {
      TaskMoved(w.answers, task, Decided, j);
      RunPush(w.runs, e, j);
    }
    FewerChances(w, n);
    assert Permitted(e, w.grants);
    assert forall b :: CallsOf(n.gate, b) == CallsOf(w.gate, b);
  }

  lemma SettleStep(w: World, task: Id)
    requires Inv(w) && task in w.answers
    ensures Inv(Settled(w, task))
  {
    hide Inv;
    var a := w.answers[task];
    FinishStep(w, task);
    AnswerStep(Finished(w, task), a.key);
    DropStep(Finished(w, task), w.gate.approvals - {a.id});
  }

  // ---------------------------------------------------------------- theorem

  lemma StepKeeps(w: World, s: Step)
    requires Inv(w)
    ensures Inv(Do(w, s))
  {
    hide Inv, Routed, Checked, Executed, Settled;
    match s
    case Seen(k, tool, byRequest) => ToolsStep(w, Admit(w.gate, k, tool, byRequest).0.tools);
    case Claims(k, hash) => if Claim(w.gate, k, hash).1 { ClaimStep(w, k, hash); }
    case Route(k, id, capacity) => if k in w.routing && k in w.gate.tools { RouteStep(w, k, id, capacity); }
    case RunRead(k) => if k in w.reading && !w.reading[k] { RunReadStep(w, k); }
    case AnswerRead(k) => if k in w.reading && w.reading[k] { AnswerStep(w, k); }
    case EndRead(k) => if k in w.reading && w.reading[k] { ReleaseStep(w, k); }
    case Responds(task, id, attempt, hash, allow) =>
      if task !in w.answers {
        if Respond(w.gate, id, attempt, hash).1 { RespondStep(w, task, id, attempt, hash, allow); }
        else { DropStep(w, Respond(w.gate, id, attempt, hash).0.approvals); }
      }
    case Checks(task) => if task in w.answers && w.answers[task].progress == Accepted { CheckStep(w, task); }
    case RunApproved(task) => if task in w.answers && w.answers[task].allow
        && w.answers[task].progress.Cleared? { ExecuteStep(w, task); }
    case Answers(task) => if task in w.answers && w.answers[task].progress == Decided { SettleStep(w, task); }
    case Drops(id) => DropStep(w, w.gate.approvals - {id});
    case Resolves(id) =>
      if id in w.gate.approvals { DropStep(w, w.gate.approvals[id := w.gate.approvals[id].(resolved := true)]); }
    case Completes(k) => ToolsStep(w, Complete(w.gate, k).0.tools);
  }

  lemma {:induction false} RunKeeps(steps: seq<Step>)
    ensures Inv(Run(steps))
    decreases |steps|
  {
    hide Do;
    if steps == [] {
      NoneYet();
    } else {
      RunKeeps(steps[..|steps| - 1]);
      StepKeeps(Run(steps[..|steps| - 1]), steps[|steps| - 1]);
    }
  }

  lemma NoneYet()
    ensures Inv(NEW_WORLD)
  {
    forall k ensures Chances(NEW_WORLD, k) == 0 {
      assert OpenIds(NEW_WORLD.gate.approvals, k) == {} && TasksOf(NEW_WORLD.answers, k) == {};
    }
    forall a ensures ReadsOf(NEW_WORLD.reading, a) == {} {
    }
  }

  /** Under every interleaving a provider item is executed at most once, and every
      execution that is not a read follows an allow_once bound to the same attempt
      and action hash. */
  lemma ItemsRunOnce(steps: seq<Step>)
    ensures var w := Run(steps);
      && (forall k :: RunCount(w.runs, k) <= 1)
      && (forall i :: 0 <= i < |w.runs| && w.runs[i].access != ReadCommand ==>
            w.runs[i].grant.Some? && Grant(w.runs[i].grant.value, w.runs[i].key.attempt, w.runs[i].hash) in w.grants)
  {
    RunKeeps(steps);
    var w := Run(steps);
    forall k ensures RunCount(w.runs, k) <= 1 {
      assert Chances(w, k) <= 1;
    }
    assert forall i :: 0 <= i < |w.runs| ==> Permitted(w.runs[i], w.grants);
  }

  /** The reserved slots are exactly the reads in progress, within 64 in all and 8
      per attempt. */
  lemma SlotsAreReads(steps: seq<Step>)
    ensures var w := Run(steps);
      && w.gate.slots == |w.reading| <= 64
      && (forall a :: CallsOf(w.gate, a) == |ReadsOf(w.reading, a)| <= 8)
  {
    RunKeeps(steps);
  }
}

/** The asynchronous benchmark pump as an interleaving protocol: one engine thread
    serving calls first in first out, completions delivered to the event loop in
    that order, one pump task stepping and one task per request streaming. */
module PumpRouting {
  import opened Types
  import opened SoloDecoding

  datatype Call = StepCall | CapacityCall(r: nat) | AddCall(r: nat)
  datatype Completion = Stepped(results: seq<StepResult>) | Capacity(r: nat, ok: bool) | Added(r: nat, id: RequestId)
  datatype Pump = Ready | Awaiting | Exited | Failed

  /** `log` is everything the engine has emitted, `told` what the pump has routed.
      A request is unsent (new, or napping before it asks for capacity again),
      waiting for a call it made, or streaming. `granted` is history: whom the engine
      has told that it has capacity. */
  datatype State = State(
    calls: seq<Call>, completions: seq<Completion>,
    live: set<RequestId>, nextId: RequestId, log: seq<StepResult>,
    unsent: set<nat>, streaming: set<nat>, pump: Pump, route: map<RequestId, nat>,
    queues: seq<seq<StepResult>>, finished: nat, told: seq<StepResult>, granted: set<nat>)
  {
    function Total(): nat { |queues| }
  }

  function Everyone(total: nat): (all: set<nat>)
    ensures forall r: nat :: r in all <==> r < total
    ensures |all| == total
  {
    if total == 0 then {} else Everyone(total - 1) + {total - 1}
  }

  function Initial(total: nat, firstId: RequestId): State {
    State([], [], {}, firstId, [], Everyone(total), {}, if total > 0 then Ready else Exited, map[],
          seq(total, _ => []), 0, [], {})
  }

  // ------------------------------------------------------------- the engine

  /** Emissions an engine may make: live requests only, silent after finishing. */
  function LiveAfter(live: set<RequestId>, results: seq<StepResult>): Option<set<RequestId>>
    decreases |results|
  {
    if results == [] then Some(live)
    else if results[0].id !in live then None
    else LiveAfter(if results[0].finished then live - {results[0].id} else live, results[1..])
  }

  ghost predicate ServeStep(s: State, results: seq<StepResult>, s': State) {
    && s.calls != [] && s.calls[0] == StepCall && LiveAfter(s.live, results).Some?
    && s' == s.(calls := s.calls[1..], completions := s.completions + [Stepped(results)],
                live := LiveAfter(s.live, results).value, log := s.log + results)
  }

  ghost predicate ServeCapacity(s: State, ok: bool, s': State) {
    && s.calls != [] && s.calls[0].CapacityCall?
    && s' == s.(calls := s.calls[1..], completions := s.completions + [Capacity(s.calls[0].r, ok)],
                granted := s.granted + if ok then {s.calls[0].r} else {})
  }

  ghost predicate ServeAdd(s: State, s': State) {
    && s.calls != [] && s.calls[0].AddCall?
    && s' == s.(calls := s.calls[1..], completions := s.completions + [Added(s.calls[0].r, s.nextId)],
                live := s.live + {s.nextId}, nextId := s.nextId + 1)
  }

  // --------------------------------------------------------- the event loop

  /** Route one emission to its request's queue; an unmapped id fails the pump. */
  function RouteOne(s: State, e: StepResult): State {
    if e.id !in s.route || s.route[e.id] >= |s.queues| then s.(pump := Failed)
    else
      var r := s.route[e.id];
      s.(queues := s.queues[r := s.queues[r] + [e]],
         finished := s.finished + if e.finished then 1 else 0,
         told := s.told + [e])
  }

  function RouteAll(s: State, results: seq<StepResult>): State
    decreases |results|
  {
    if results == [] || s.pump == Failed then s else RouteAll(RouteOne(s, results[0]), results[1..])
  }

  /** The pump resumes with one step's results, then loops or exits. */
  function Resume(s: State, results: seq<StepResult>): State {
    var routed := RouteAll(s, results);
    if routed.pump == Failed then routed
    else routed.(pump := if routed.finished < routed.Total() then Ready else Exited)
  }

  /** The oldest completion reaches the task that awaits it. */
  function Deliver(s: State): State
    requires s.completions != []
  {
    var t := s.(completions := s.completions[1..]);
    match s.completions[0]
    case Stepped(results) => Resume(t, results)
    case Capacity(r, ok) => if ok then t.(calls := t.calls + [AddCall(r)]) else t.(unsent := t.unsent + {r})
    case Added(r, id) => t.(route := t.route[id := r], streaming := t.streaming + {r})
  }

  ghost predicate Next(s: State, s': State) {
    || (exists results :: ServeStep(s, results, s'))
    || (exists ok :: ServeCapacity(s, ok, s'))
    || ServeAdd(s, s')
    || (s.completions != [] && s' == Deliver(s))
    || (s.pump == Ready && s.finished < s.Total() && s' == s.(pump := Awaiting, calls := s.calls + [StepCall]))
    || exists r :: r in s.unsent && s' == s.(unsent := s.unsent - {r}, calls := s.calls + [CapacityCall(r)])
  }

  // ----------------------------------------------------- one ticket per request

  function CallTickets(calls: seq<Call>): multiset<nat> {
    if calls == [] then multiset{}
    else CallTickets(calls[..|calls| - 1]) + if calls[|calls| - 1].StepCall? then multiset{} else multiset{calls[|calls| - 1].r}
  }

  function CompletionTickets(cs: seq<Completion>): multiset<nat> {
    if cs == [] then multiset{}
    else CompletionTickets(cs[..|cs| - 1]) + if cs[|cs| - 1].Stepped? then multiset{} else multiset{cs[|cs| - 1].r}
  }

  /** Every request is in exactly one place: unsent, in a call, in a completion, or streaming. */
  ghost predicate Tickets(s: State) {
    multiset(s.unsent) + CallTickets(s.calls) + CompletionTickets(s.completions) + multiset(s.streaming)
      == multiset(Everyone(s.Total()))
  }

  lemma Associate(a: multiset<nat>, b: multiset<nat>, c: multiset<nat>)
    ensures (a + b) + c == a + (b + c)
  {
  }

  lemma {:induction false} CallsConcat(a: seq<Call>, b: seq<Call>)
    ensures CallTickets(a + b) == CallTickets(a) + CallTickets(b)
  {
    if b == [] {
      assert a + b == a;
    } else {
      var front, last := b[..|b| - 1], b[|b| - 1];
      var one := if last.StepCall? then multiset{} else multiset{last.r};
      CallsConcat(a, front);
      assert (a + b)[..|a + b| - 1] == a + front && (a + b)[|a + b| - 1] == last;
      assert CallTickets(a + b) == CallTickets(a + front) + one && CallTickets(b) == CallTickets(front) + one;
      Associate(CallTickets(a), CallTickets(front), one);
    }
  }

  lemma {:induction false} CompletionsConcat(a: seq<Completion>, b: seq<Completion>)
    ensures CompletionTickets(a + b) == CompletionTickets(a) + CompletionTickets(b)
  {
    if b == [] {
      assert a + b == a;
    } else {
      var front, last := b[..|b| - 1], b[|b| - 1];
      var one := if last.Stepped? then multiset{} else multiset{last.r};
      CompletionsConcat(a, front);
      assert (a + b)[..|a + b| - 1] == a + front && (a + b)[|a + b| - 1] == last;
      assert CompletionTickets(a + b) == CompletionTickets(a + front) + one && CompletionTickets(b) == CompletionTickets(front) + one;
      Associate(CompletionTickets(a), CompletionTickets(front), one);
    }
  }

  lemma OneCall(c: Call)
    ensures CallTickets([c]) == if c.StepCall? then multiset{} else multiset{c.r}
  {
    assert [c][..0] == [];
  }

  lemma OneCompletion(c: Completion)
    ensures CompletionTickets([c]) == if c.Stepped? then multiset{} else multiset{c.r}
  {
    assert [c][..0] == [];
  }

  lemma ServedTicket(s: State, c: Completion)
    requires Tickets(s) && s.calls != []
    requires if s.calls[0].StepCall? then c.Stepped? else !c.Stepped? && c.r == s.calls[0].r
    ensures Tickets(s.(calls := s.calls[1..], completions := s.completions + [c]))
  {
    assert s.calls == [s.calls[0]] + s.calls[1..];
    CallsConcat([s.calls[0]], s.calls[1..]);
    OneCall(s.calls[0]);
    CompletionsConcat(s.completions, [c]);
    OneCompletion(c);
  }

  /** A delivered completion's ticket is nowhere else. */
  lemma DeliveredTicket(s: State)
    requires Tickets(s) && s.completions != []
    ensures CompletionTickets(s.completions) == CompletionTickets([s.completions[0]]) + CompletionTickets(s.completions[1..])
    ensures !s.completions[0].Stepped? ==>
              s.completions[0].r < s.Total() && s.completions[0].r !in s.streaming && s.completions[0].r !in s.unsent
  {
    var c := s.completions[0];
    assert s.completions == [c] + s.completions[1..];
    CompletionsConcat([c], s.completions[1..]);
    OneCompletion(c);
    if !c.Stepped? {
      var all := multiset(Everyone(s.Total()));
      assert all[c.r] >= CompletionTickets(s.completions)[c.r] + multiset(s.streaming)[c.r] + multiset(s.unsent)[c.r];
    }
  }

  // -------------------------------------------------------------- invariant

  function Reported(c: Completion): seq<StepResult> { if c.Stepped? then c.results else [] }

  function Pending(cs: seq<Completion>): seq<StepResult>
    decreases |cs|
  {
    if cs == [] then []
    else Reported(cs[0]) + Pending(cs[1..])
  }

  /** `id` is routed, or registered by one of the first `k` completions. */
  ghost predicate Announced(s: State, id: RequestId, k: nat) {
    id in s.route || exists j :: 0 <= j < k && j < |s.completions| && s.completions[j].Added? && s.completions[j].id == id
  }

  /** A report is delivered after the registration of everyone it mentions. */
  ghost predicate InOrder(s: State) {
    forall k, i :: 0 <= k < |s.completions| && s.completions[k].Stepped? && 0 <= i < |s.completions[k].results| ==>
      Announced(s, s.completions[k].results[i].id, k)
  }

  ghost predicate Numbered(s: State) {
    && (forall id :: id in s.live ==> Announced(s, id, |s.completions|))
    && (forall id :: id in s.live ==> id < s.nextId)
    && (forall id :: id in s.route ==> id < s.nextId && s.route[id] < s.Total() && s.route[id] in s.streaming)
    && (forall a, b :: a in s.route && b in s.route && a != b ==> s.route[a] != s.route[b])
    && (forall j :: 0 <= j < |s.completions| && s.completions[j].Added? ==>
          s.completions[j].id < s.nextId && s.completions[j].id !in s.route)
    && forall i, j :: 0 <= i < j < |s.completions| && s.completions[i].Added? && s.completions[j].Added? ==>
         s.completions[i].id != s.completions[j].id
  }

  /** Nothing follows a request's finished emission, and only live ones go on. */
  ghost predicate ProperLog(log: seq<StepResult>, live: set<RequestId>, nextId: RequestId) {
    && (forall i, k :: 0 <= i < k < |log| && log[i].id == log[k].id ==> !log[i].finished)
    && (forall i :: 0 <= i < |log| && log[i].finished ==> log[i].id !in live)
    && forall i :: 0 <= i < |log| ==> log[i].id < nextId
  }

  /** Queue `r` holds exactly what was routed about its request, in order. */
  ghost predicate Routed(s: State) {
    && (forall id :: id in s.route ==> s.route[id] < s.Total() && s.queues[s.route[id]] == LogFor(s.told, id))
    && (forall r :: 0 <= r < s.Total() && r !in s.streaming ==> s.queues[r] == [])
    && forall i :: 0 <= i < |s.told| ==> s.told[i].id in s.route
  }

  predicate Closed(q: seq<StepResult>) { q != [] && q[|q| - 1].finished }

  function Ended(s: State): set<nat> { set r: nat | r in Everyone(s.Total()) && r < |s.queues| && Closed(s.queues[r]) }

  /** The invariant while `rest` of the current results is still to be routed. */
  ghost predicate Mid(s: State, rest: seq<StepResult>) {
    && Tickets(s) && InOrder(s) && Numbered(s) && Routed(s)
    && ProperLog(s.log, s.live, s.nextId)
    && s.told + rest + Pending(s.completions) == s.log
    && (forall i :: 0 <= i < |rest| ==> rest[i].id in s.route)
    && s.finished == |Ended(s)| && s.pump != Failed
  }

  ghost predicate Inv(s: State) {
    Mid(s, []) && (s.pump == Exited <==> s.finished == s.Total())
  }

  lemma InitialTickets(s: State)
    requires s.calls == [] && s.completions == [] && s.streaming == {} && s.unsent == Everyone(s.Total())
    ensures Tickets(s)
  {
    hide Everyone;
  }

  lemma InitialInv(total: nat, firstId: RequestId)
    ensures Inv(Initial(total, firstId))
  {
    hide Everyone, LogFor;
    var s := Initial(total, firstId);
    assert Ended(s) == {};
    InitialTickets(s);
    hide Tickets;
  }

  // ------------------------------------------------------------ engine steps

  lemma {:induction false} LiveAfterFacts(live: set<RequestId>, results: seq<StepResult>)
    requires LiveAfter(live, results).Some?
    ensures LiveAfter(live, results).value <= live
    ensures forall i :: 0 <= i < |results| ==> results[i].id in live
    ensures forall i :: 0 <= i < |results| && results[i].finished ==> results[i].id !in LiveAfter(live, results).value
    ensures forall i, k :: 0 <= i < k < |results| && results[i].id == results[k].id ==> !results[i].finished
    decreases |results|
  {
    if results != [] {
      LiveAfterFacts(if results[0].finished then live - {results[0].id} else live, results[1..]);
    }
  }

  lemma {:induction false} PendingSnoc(cs: seq<Completion>, c: Completion)
    ensures Pending(cs + [c]) == Pending(cs) + Reported(c)
    decreases |cs|
  {
    if cs == [] {
      assert ([] + [c])[1..] == [];
    } else {
      hide Reported;
      assert (cs + [c])[0] == cs[0] && (cs + [c])[1..] == cs[1..] + [c];
      PendingSnoc(cs[1..], c);
      assert Reported(cs[0]) + (Pending(cs[1..]) + Reported(c)) == Pending(cs) + Reported(c);
    }
  }

  /** Appending completions only announces more. */
  lemma AnnouncedMore(s: State, s': State, id: RequestId, k: nat, k': nat)
    requires Announced(s, id, k) && k <= k' && s'.route == s.route && s.completions <= s'.completions
    ensures Announced(s', id, k')
  {
    if id !in s.route {
      var j :| 0 <= j < k && j < |s.completions| && s.completions[j].Added? && s.completions[j].id == id;
      assert s'.completions[j] == s.completions[j];
    }
  }

  lemma OrderGrows(s: State, s': State, c: Completion)
    requires InOrder(s) && s'.route == s.route && s'.completions == s.completions + [c]
    requires c.Stepped? ==> forall i :: 0 <= i < |c.results| ==> Announced(s, c.results[i].id, |s.completions|)
    ensures InOrder(s')
  {
    forall k, i | 0 <= k < |s'.completions| && s'.completions[k].Stepped? && 0 <= i < |s'.completions[k].results|
      ensures Announced(s', s'.completions[k].results[i].id, k)
    {
      AnnouncedMore(s, s', s'.completions[k].results[i].id, k, k);
    }
  }

  lemma LogGrows(log: seq<StepResult>, live: set<RequestId>, nextId: RequestId, results: seq<StepResult>)
    requires ProperLog(log, live, nextId) && LiveAfter(live, results).Some? && forall id :: id in live ==> id < nextId
    ensures ProperLog(log + results, LiveAfter(live, results).value, nextId)
  {
    LiveAfterFacts(live, results);
  }

  lemma ServeStepKeepsInv(s: State, results: seq<StepResult>, s': State)
    requires Inv(s) && ServeStep(s, results, s')
    ensures Inv(s')
  {
    hide Tickets, Announced, Routed, ProperLog, LiveAfter, Pending, InOrder, Numbered, Everyone;
    ServedTicket(s, Stepped(results));
    assert Tickets(s') by { SameTickets(s.(calls := s'.calls, completions := s'.completions), s'); }
    LiveAfterFacts(s.live, results);
    LiveAnnounced(s, results);
    OrderGrows(s, s', Stepped(results));
    NumberedGrows(s, s', Stepped(results));
    LogGrows(s.log, s.live, s.nextId, results);
    PendingSnoc(s.completions, Stepped(results));
    assert s.told + [] + Pending(s'.completions) == s.log + results;
    SameRouted(s, s');
    assert Ended(s') == Ended(s);
  }

  lemma LiveAnnounced(s: State, results: seq<StepResult>)
    requires Numbered(s) && forall i :: 0 <= i < |results| ==> results[i].id in s.live
    ensures forall i :: 0 <= i < |results| ==> Announced(s, results[i].id, |s.completions|)
    ensures forall id :: id in s.live ==> id < s.nextId
  {
    hide Announced;
  }

  lemma SameTickets(s: State, s': State)
    requires Tickets(s) && s'.unsent == s.unsent && s'.calls == s.calls && s'.completions == s.completions
    requires s'.streaming == s.streaming && s'.queues == s.queues
    ensures Tickets(s')
  {
  }

  lemma SameRouted(s: State, s': State)
    requires Routed(s) && s'.route == s.route && s'.queues == s.queues && s'.told == s.told && s'.streaming == s.streaming
    ensures Routed(s')
  {
  }

  /** A served call leaves numbering alone, but for the id it may hand out. */
  lemma NumberedGrows(s: State, s': State, c: Completion)
    requires Numbered(s) && s'.completions == s.completions + [c] && s'.route == s.route && s'.streaming == s.streaming
    requires s'.Total() == s.Total()
    requires if c.Added? then c.id == s.nextId && s'.nextId == s.nextId + 1 && s'.live == s.live + {c.id}
             else s'.nextId == s.nextId && s'.live <= s.live
    ensures Numbered(s')
  {
    hide Announced;
    assert s'.completions[|s.completions|] == c;
    forall id | id in s'.live
      ensures Announced(s', id, |s'.completions|)
    {
      if id in s.live {
        AnnouncedMore(s, s', id, |s.completions|, |s'.completions|);
      } else {
        SelfAnnounced(s', |s.completions|);
      }
    }
  }

  lemma ServeCapacityKeepsInv(s: State, ok: bool, s': State)
    requires Inv(s) && ServeCapacity(s, ok, s')
    ensures Inv(s')
  {
    hide Tickets, Announced, Routed, ProperLog, Pending, InOrder, Numbered, Everyone;
    var c := Capacity(s.calls[0].r, ok);
    ServedTicket(s, c);
    SameTickets(s.(calls := s'.calls, completions := s'.completions), s');
    OrderGrows(s, s', c);
    NumberedGrows(s, s', c);
    PendingSnoc(s.completions, c);
    SameRouted(s, s');
    assert Ended(s') == Ended(s);
  }

  lemma ServeAddKeepsInv(s: State, s': State)
    requires Inv(s) && ServeAdd(s, s')
    ensures Inv(s')
  {
    hide Tickets, Announced, Routed, Pending, InOrder, Numbered, Everyone;
    var c := Added(s.calls[0].r, s.nextId);
    ServedTicket(s, c);
    SameTickets(s.(calls := s'.calls, completions := s'.completions), s');
    OrderGrows(s, s', c);
    NumberedGrows(s, s', c);
    PendingSnoc(s.completions, c);
    SameRouted(s, s');
    assert Ended(s') == Ended(s);
  }

  lemma SelfAnnounced(s: State, j: nat)
    requires j < |s.completions| && s.completions[j].Added?
    ensures Announced(s, s.completions[j].id, |s.completions|)
  {
  }

  // ---------------------------------------------------------------- delivery

  /** After the oldest completion is popped, later ones keep their order. */
  lemma AnnouncedLater(s: State, s': State, id: RequestId, k: nat)
    requires s.completions != [] && s'.completions == s.completions[1..] && Announced(s, id, k + 1)
    requires forall x :: x in s.route ==> x in s'.route
    requires s.completions[0].Added? ==> s.completions[0].id in s'.route
    ensures Announced(s', id, k)
  {
    if id !in s.route {
      var j :| 0 <= j < k + 1 && j < |s.completions| && s.completions[j].Added? && s.completions[j].id == id;
      if j > 0 {
        assert s'.completions[j - 1] == s.completions[j];
      }
    }
  }

  lemma OrderShifts(s: State, s': State)
    requires s.completions != [] && s'.completions == s.completions[1..] && InOrder(s)
    requires forall x :: x in s.route ==> x in s'.route
    requires s.completions[0].Added? ==> s.completions[0].id in s'.route
    ensures InOrder(s')
  {
    hide Announced;
    forall k, i | 0 <= k < |s'.completions| && s'.completions[k].Stepped? && 0 <= i < |s'.completions[k].results|
      ensures Announced(s', s'.completions[k].results[i].id, k)
    {
      assert s'.completions[k] == s.completions[k + 1];
      AnnouncedLater(s, s', s'.completions[k].results[i].id, k);
    }
  }

  lemma NumberedShifts(s: State, s': State)
    requires s.completions != [] && s'.completions == s.completions[1..] && Numbered(s)
    requires s'.live == s.live && s'.nextId == s.nextId && s'.Total() == s.Total()
    requires if s.completions[0].Added? then
               && s'.route == s.route[s.completions[0].id := s.completions[0].r]
               && s'.streaming == s.streaming + {s.completions[0].r}
               && s.completions[0].r < s.Total() && s.completions[0].r !in s.streaming
             else s'.route == s.route && s'.streaming == s.streaming
    ensures Numbered(s')
  {
    forall id | id in s'.live
      ensures Announced(s', id, |s'.completions|)
    {
      AnnouncedLater(s, s', id, |s'.completions|);
    }
    assert forall j :: 0 <= j < |s'.completions| ==> s'.completions[j] == s.completions[j + 1];
  }

  lemma DeliverAddedKeepsInv(s: State, s': State)
    requires Inv(s) && s.completions != [] && s.completions[0].Added? && s' == Deliver(s)
    ensures Inv(s')
  {
    hide Announced, ProperLog, CompletionTickets, CallTickets, Everyone, Tickets, Routed, InOrder;
    var c := s.completions[0];
    DeliveredTicket(s);
    AddedTicket(s, s');
    OrderShifts(s, s');
    NumberedShifts(s, s');
    RouteOpens(s, s', c.r, c.id);
    assert Ended(s') == Ended(s);
  }

  /** A registration turns its completion's ticket into a streaming one. */
  lemma AddedTicket(s: State, s': State)
    requires Tickets(s) && s.completions != [] && s.completions[0].Added? && s.completions[0].r !in s.streaming
    requires s'.completions == s.completions[1..] && s'.streaming == s.streaming + {s.completions[0].r}
    requires s'.unsent == s.unsent && s'.calls == s.calls && s'.queues == s.queues
    ensures Tickets(s')
  {
    hide CompletionTickets, CallTickets, Everyone;
    var c := s.completions[0];
    DeliveredTicket(s);
    OneCompletion(c);
    assert multiset(s.streaming + {c.r}) == multiset(s.streaming) + multiset{c.r};
  }

  /** A fresh route opens onto an empty queue, about which nothing was told. */
  lemma RouteOpens(s: State, s': State, r: nat, id: RequestId)
    requires Routed(s) && id !in s.route && r < s.Total() && r !in s.streaming
    requires s'.route == s.route[id := r] && s'.streaming == s.streaming + {r}
    requires s'.queues == s.queues && s'.told == s.told
    ensures Routed(s')
  {
    NothingYet(s.told, id);
  }

  lemma {:induction false} NothingYet(log: seq<StepResult>, id: RequestId)
    requires forall i :: 0 <= i < |log| ==> log[i].id != id
    ensures LogFor(log, id) == []
  {
    if log != [] {
      NothingYet(log[..|log| - 1], id);
    }
  }

  lemma DeliverCapacityKeepsInv(s: State, s': State)
    requires Inv(s) && s.completions != [] && s.completions[0].Capacity? && s' == Deliver(s)
    ensures Inv(s')
  {
    hide Announced, ProperLog, Everyone, Routed, Tickets, InOrder, Numbered;
    RetryTicket(s, s');
    OrderShifts(s, s');
    NumberedShifts(s, s');
    SameRouted(s, s');
    assert Ended(s') == Ended(s);
  }

  lemma RetryTicket(s: State, s': State)
    requires Tickets(s) && s.completions != [] && s.completions[0].Capacity? && s' == Deliver(s)
    ensures Tickets(s')
  {
    hide CompletionTickets, CallTickets, Everyone;
    var c := s.completions[0];
    DeliveredTicket(s);
    OneCompletion(c);
    if c.ok {
      CallsConcat(s.calls, [AddCall(c.r)]);
      OneCall(AddCall(c.r));
    } else {
      assert multiset(s.unsent + {c.r}) == multiset(s.unsent) + multiset{c.r};
    }
  }

  /** Routing one emission extends one queue; a finished one closes it for good. */
  lemma RouteOneKeepsMid(s: State, e: StepResult, rest: seq<StepResult>)
    requires Mid(s, [e] + rest)
    ensures Mid(RouteOne(s, e), rest)
  {
    hide Tickets, Numbered, Routed, InOrder, ProperLog, Ended, Pending;
    assert ([e] + rest)[0] == e;
    RouteInRange(s, e.id);
    var s' := RouteOne(s, e);
    Reassociate(s.told, e, rest, Pending(s.completions));
    assert forall i :: 0 <= i < |rest| ==> rest[i] == ([e] + rest)[i + 1];
    RoutedGrows(s, e);
    EndedGrows(s, e, rest);
    OrderStays(s, s');
    NumberedStays(s, s');
    QueuesOnly(s, s');
  }

  lemma RouteInRange(s: State, id: RequestId)
    requires Numbered(s) && id in s.route
    ensures s.route[id] < s.Total()
  {
    hide Announced;
  }

  lemma Reassociate(told: seq<StepResult>, e: StepResult, rest: seq<StepResult>, pending: seq<StepResult>)
    ensures told + ([e] + rest) + pending == (told + [e]) + rest + pending
  {
  }

  lemma QueuesOnly(s: State, s': State)
    requires Tickets(s) && s'.unsent == s.unsent && s'.calls == s.calls && s'.completions == s.completions
    requires s'.streaming == s.streaming && s'.Total() == s.Total()
    ensures Tickets(s')
  {
  }

  lemma OrderStays(s: State, s': State)
    requires InOrder(s) && s'.completions == s.completions && s'.route == s.route
    ensures InOrder(s')
  {
    hide Announced;
    forall k, i | 0 <= k < |s'.completions| && s'.completions[k].Stepped? && 0 <= i < |s'.completions[k].results|
      ensures Announced(s', s'.completions[k].results[i].id, k)
    {
      AnnouncedMore(s, s', s'.completions[k].results[i].id, k, k);
    }
  }

  lemma NumberedStays(s: State, s': State)
    requires Numbered(s) && s'.completions == s.completions && s'.route == s.route && s'.live == s.live
    requires s'.nextId == s.nextId && s'.Total() == s.Total() && s'.streaming == s.streaming
    ensures Numbered(s')
  {
    forall id | id in s'.live
      ensures Announced(s', id, |s'.completions|)
    {
      AnnouncedMore(s, s', id, |s.completions|, |s'.completions|);
    }
  }

  lemma RoutedGrows(s: State, e: StepResult)
    requires Routed(s) && Numbered(s) && e.id in s.route
    ensures Routed(RouteOne(s, e))
  {
    hide Announced;
    var s' := RouteOne(s, e);
    forall id | id in s'.route
      ensures s'.queues[s'.route[id]] == LogFor(s'.told, id)
    {
      assert (s.told + [e])[..|s.told|] == s.told;
    }
  }

  /** Before `e` its queue was open. */
  lemma StillOpen(s: State, e: StepResult, rest: seq<StepResult>)
    requires Routed(s) && ProperLog(s.log, s.live, s.nextId) && e.id in s.route
    requires s.told + ([e] + rest) + Pending(s.completions) == s.log
    ensures !Closed(s.queues[s.route[e.id]])
  {
    hide Numbered, LogFor, Pending;
    var q := s.queues[s.route[e.id]];
    LogAt(s.told, e, rest, Pending(s.completions), s.log);
    if q != [] {
      var last := q[|q| - 1];
      assert last in LogFor(s.told, e.id);
      var i :| 0 <= i < |s.told| && s.told[i] == last;
    }
  }

  lemma LogAt(told: seq<StepResult>, e: StepResult, rest: seq<StepResult>, pending: seq<StepResult>, log: seq<StepResult>)
    requires told + ([e] + rest) + pending == log
    ensures |told| < |log| && log[|told|] == e && forall i :: 0 <= i < |told| ==> log[i] == told[i]
  {
    assert log == told + (([e] + rest) + pending);
  }

  lemma EndedGrows(s: State, e: StepResult, rest: seq<StepResult>)
    requires Routed(s) && ProperLog(s.log, s.live, s.nextId) && e.id in s.route
    requires s.told + ([e] + rest) + Pending(s.completions) == s.log
    ensures |Ended(RouteOne(s, e))| == |Ended(s)| + if e.finished then 1 else 0
  {
    hide ProperLog, Everyone, LogFor, Pending;
    StillOpen(s, e, rest);
    QueueCloses(s, e);
  }

  lemma QueueCloses(s: State, e: StepResult)
    requires e.id in s.route && s.route[e.id] < s.Total() && !Closed(s.queues[s.route[e.id]])
    ensures |Ended(RouteOne(s, e))| == |Ended(s)| + if e.finished then 1 else 0
  {
    hide Everyone;
    var r, s' := s.route[e.id], RouteOne(s, e);
    assert s'.queues[r] == s.queues[r] + [e];
    assert Ended(s') == if e.finished then Ended(s) + {r} else Ended(s);
  }

  lemma MidRuns(s: State, rest: seq<StepResult>)
    requires Mid(s, rest)
    ensures s.pump != Failed
  {
    hide Tickets, InOrder, Numbered, Routed, ProperLog;
  }

  lemma {:induction false} RouteAllKeepsMid(s: State, results: seq<StepResult>)
    requires Mid(s, results)
    ensures Mid(RouteAll(s, results), []) && RouteAll(s, results).Total() == s.Total()
    decreases |results|
  {
    hide Mid;
    MidRuns(s, results);
    if results != [] {
      assert results == [results[0]] + results[1..];
      RouteOneKeepsMid(s, results[0], results[1..]);
      RouteAllKeepsMid(RouteOne(s, results[0]), results[1..]);
    }
  }

  lemma DeliverSteppedKeepsInv(s: State, s': State)
    requires Inv(s) && s.completions != [] && s.completions[0].Stepped? && s' == Deliver(s)
    ensures Inv(s')
  {
    var t, results := s.(completions := s.completions[1..]), s.completions[0].results;
    PoppedStep(s);
    hide RouteAll, Mid;
    RouteAllKeepsMid(t, results);
    var u := RouteAll(t, results);
    PumpMoves(u, s'.pump);
  }

  lemma PoppedStep(s: State)
    requires Inv(s) && s.completions != [] && s.completions[0].Stepped?
    ensures Mid(s.(completions := s.completions[1..]), s.completions[0].results)
  {
    hide ProperLog, Routed, InOrder, Numbered, Everyone, Pending, Tickets, Announced;
    var t, results := s.(completions := s.completions[1..]), s.completions[0].results;
    ReportTicket(s, t);
    ReportsMapped(s);
    OrderShifts(s, t);
    NumberedShifts(s, t);
    SameRouted(s, t);
    PendingHead(s.completions);
    assert s.told + results + Pending(t.completions) == s.told + [] + (results + Pending(t.completions));
    assert Ended(t) == Ended(s);
  }

  lemma PendingHead(cs: seq<Completion>)
    requires cs != [] && cs[0].Stepped?
    ensures Pending(cs) == cs[0].results + Pending(cs[1..])
  {
  }

  lemma ReportTicket(s: State, t: State)
    requires Tickets(s) && s.completions != [] && s.completions[0].Stepped? && t == s.(completions := s.completions[1..])
    ensures Tickets(t)
  {
    hide CompletionTickets, CallTickets, Everyone;
    DeliveredTicket(s);
    OneCompletion(s.completions[0]);
  }

  /** By the time a report reaches the pump, everyone it mentions is registered. */
  lemma ReportsMapped(s: State)
    requires InOrder(s) && s.completions != [] && s.completions[0].Stepped?
    ensures forall i :: 0 <= i < |s.completions[0].results| ==> s.completions[0].results[i].id in s.route
  {
    forall i | 0 <= i < |s.completions[0].results|
      ensures s.completions[0].results[i].id in s.route
    {
      assert Announced(s, s.completions[0].results[i].id, 0);
    }
  }

  /** Exiting happens exactly when the last request has finished. */
  lemma PumpMoves(u: State, pump: Pump)
    requires Mid(u, []) && pump == if u.finished < u.Total() then Ready else Exited
    ensures Inv(u.(pump := pump)) && u.finished <= u.Total()
  {
    hide Announced, ProperLog, CompletionTickets, CallTickets;
    var s' := u.(pump := pump);
    assert Ended(s') == Ended(u) && Ended(u) <= Everyone(u.Total());
    Subset(Ended(u), Everyone(u.Total()));
    hide Everyone;
    OrderStays(u, s');
    NumberedStays(u, s');
    SameRouted(u, s');
    SameTickets(u, s');
  }

  lemma Subset(a: set<nat>, b: set<nat>)
    requires a <= b
    ensures |a| <= |b| && (|a| == |b| ==> a == b)
  {
    assert b == a + (b - a);
  }

  // --------------------------------------------------------------- all runs

  lemma CallIssued(s: State, s': State, call: Call)
    requires Inv(s) && s'.calls == s.calls + [call] && s' == s.(calls := s'.calls, unsent := s'.unsent, pump := s'.pump)
    requires if call.StepCall? then s'.unsent == s.unsent else call.r in s.unsent && s'.unsent == s.unsent - {call.r}
    requires s'.pump == s.pump || (s.pump == Ready && s'.pump == Awaiting)
    ensures Inv(s')
  {
    hide Announced, ProperLog, CompletionTickets, CallTickets, Everyone, Routed;
    CallsConcat(s.calls, [call]);
    OneCall(call);
    if !call.StepCall? {
      assert multiset(s.unsent) == multiset(s'.unsent) + multiset{call.r};
    }
    OrderStays(s, s');
    NumberedStays(s, s');
    SameRouted(s, s');
    assert Ended(s') == Ended(s);
  }

  lemma NextKeepsInv(s: State, s': State)
    requires Inv(s) && Next(s, s')
    ensures Inv(s')
  {
    hide Inv, Deliver, ServeStep, ServeCapacity, ServeAdd;
    if results :| ServeStep(s, results, s') {
      ServeStepKeepsInv(s, results, s');
    } else if ok :| ServeCapacity(s, ok, s') {
      ServeCapacityKeepsInv(s, ok, s');
    } else if ServeAdd(s, s') {
      ServeAddKeepsInv(s, s');
    } else if s.completions != [] && s' == Deliver(s) {
      match s.completions[0]
      case Stepped(_) => DeliverSteppedKeepsInv(s, s');
      case Capacity(_, _) => DeliverCapacityKeepsInv(s, s');
      case Added(_, _) => DeliverAddedKeepsInv(s, s');
    } else if s.pump == Ready && s' == s.(pump := Awaiting, calls := s.calls + [StepCall]) {
      CallIssued(s, s', StepCall);
    } else {
      var r :| r in s.unsent && s' == s.(unsent := s.unsent - {r}, calls := s.calls + [CapacityCall(r)]);
      CallIssued(s, s', CapacityCall(r));
    }
  }

  ghost predicate IsRun(total: nat, firstId: RequestId, states: seq<State>) {
    && states != [] && states[0] == Initial(total, firstId)
    && forall i :: 0 <= i < |states| - 1 ==> Next(states[i], states[i + 1])
  }

  lemma {:induction false} Reachable(total: nat, firstId: RequestId, states: seq<State>, i: nat)
    requires IsRun(total, firstId, states) && i < |states|
    ensures Inv(states[i])
  {
    hide Inv, Next;
    if i == 0 {
      InitialInv(total, firstId);
    } else {
      Reachable(total, firstId, states, i - 1);
      NextKeepsInv(states[i - 1], states[i]);
    }
  }

  /** In every state of every interleaving: the pump has met no unmapped id, each
      request's queue holds exactly its own emissions in order, and the pump has
      exited exactly when every request's queue is closed. */
  lemma PumpRoutesEverything(total: nat, firstId: RequestId, states: seq<State>, i: nat)
    requires IsRun(total, firstId, states) && i < |states|
    ensures var s := states[i];
            && s.pump != Failed
            && (forall id :: id in s.route ==> s.route[id] < s.Total() && s.queues[s.route[id]] == LogFor(s.told, id))
            && s.told <= s.log
            && (s.pump == Exited <==> forall r :: 0 <= r < s.Total() ==> Closed(s.queues[r]))
  {
    Reachable(total, firstId, states, i);
    var s := states[i];
    hide Announced, ProperLog, CompletionTickets, CallTickets, InOrder, Numbered;
    assert Ended(s) <= Everyone(s.Total());
    Subset(Ended(s), Everyone(s.Total()));
    if forall r :: 0 <= r < s.Total() ==> Closed(s.queues[r]) {
      assert Ended(s) == Everyone(s.Total());
    }
    if s.pump == Exited {
      forall r: nat | r < s.Total()
        ensures Closed(s.queues[r])
      {
        assert r in Ended(s);
      }
    }
  }

  // ---------------------------------------------------------- backpressure

  /** Nobody is being added, has been added or streams without having been granted capacity. */
  ghost predicate Granted(s: State) {
    && (forall k :: 0 <= k < |s.calls| && s.calls[k].AddCall? ==> s.calls[k].r in s.granted)
    && (forall k :: 0 <= k < |s.completions| && s.completions[k].Added? ==> s.completions[k].r in s.granted)
    && (forall k :: 0 <= k < |s.completions| && s.completions[k].Capacity? && s.completions[k].ok ==>
          s.completions[k].r in s.granted)
    && s.streaming <= s.granted
  }

  lemma {:induction false} RoutingTouchesQueuesOnly(s: State, results: seq<StepResult>)
    ensures var t := RouteAll(s, results);
            t.calls == s.calls && t.completions == s.completions && t.streaming == s.streaming && t.granted == s.granted
    decreases |results|
  {
    if results != [] && s.pump != Failed {
      RoutingTouchesQueuesOnly(RouteOne(s, results[0]), results[1..]);
    }
  }

  lemma NextKeepsGranted(s: State, s': State)
    requires Granted(s) && Next(s, s')
    ensures Granted(s')
  {
    if s.completions != [] && s' == Deliver(s) {
      hide RouteAll;
      if s.completions[0].Stepped? {
        RoutingTouchesQueuesOnly(s.(completions := s.completions[1..]), s.completions[0].results);
      }
    }
  }

  /** In every interleaving a request reaches the engine only after the engine said it
      had capacity for one. */
  lemma {:induction false} AddsWaitForCapacity(total: nat, firstId: RequestId, states: seq<State>, i: nat)
    requires IsRun(total, firstId, states) && i < |states|
    ensures Granted(states[i])
  {
    hide Granted, Next;
    if i == 0 {
      NobodyAdded(total, firstId);
    } else {
      AddsWaitForCapacity(total, firstId, states, i - 1);
      NextKeepsGranted(states[i - 1], states[i]);
    }
  }

  lemma NobodyAdded(total: nat, firstId: RequestId)
    ensures Granted(Initial(total, firstId))
  {
  }
}

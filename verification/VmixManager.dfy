/**
 VmixConnectionManager as a whole: which instance a production has, which intervals run, and which polls are under
 way. A poll ends in a step of its own, possibly after its instance was replaced or stopped.
 */
module VmixManager {
  import opened Wrappers
  import opened VmixPolling

  type ProdId = string
  type InstId = nat

  /** An instance object: `prod` is what its interval closes over, `polls` the history of its finished polls. */
  datatype Held = Held(prod: ProdId, url: string, state: Instance, pollInFlight: bool, polls: seq<Poll>)

  /** An event, with the instance whose poll emitted it; None for the event of `disconnectVmix`. */
  datatype Emission = Emission(prod: ProdId, source: Option<InstId>, event: Event)

  datatype State = State(
    heap: map<InstId, Held>,
    nextInst: InstId,
    connections: map<ProdId, InstId>,
    intervals: set<InstId>,
    requests: multiset<InstId>,
    feed: seq<Emission>)

  datatype Call =
    | Connect(prod: ProdId, url: string)
    | Stop(prod: ProdId)
    | Tick(inst: InstId)
    | Answer(inst: InstId, outcome: Poll)

  const Empty := State(map[], 0, map[], {}, multiset{}, [])

  // ---------------------------------------------------------------- the steps

  predicate Has(s: State, p: ProdId) {
    p in s.connections && s.connections[p] in s.heap
  }

  /** `disconnectVmix`. */
  function DisconnectStep(s: State, p: ProdId): State
    requires Has(s, p)
  {
    s.(intervals := s.intervals - {s.connections[p]},
       connections := s.connections - {p},
       feed := s.feed + [Emission(p, None, ConnectionState(false))])
  }

  /** `pollApi` up to its await: a request goes out unless one is under way. */
  function TickStep(s: State, i: InstId): State
    requires i in s.heap
  {
    if s.heap[i].pollInFlight then s
    else s.(heap := s.heap[i := s.heap[i].(pollInFlight := true)], requests := s.requests + multiset{i})
  }

  function Emissions(p: ProdId, i: InstId, events: seq<Event>): seq<Emission> {
    seq(|events|, k requires 0 <= k < |events| => Emission(p, Some(i), events[k]))
  }

  /** The rest of `pollApi`. */
  function AnswerStep(s: State, i: InstId, outcome: Poll): State
    requires i in s.heap
  {
    var held := s.heap[i];
    var next := PollStep(held.state, outcome);
    s.(requests := s.requests - multiset{i},
       heap := s.heap[i := held.(state := next, pollInFlight := false, polls := held.polls + [outcome])],
       feed := s.feed + Emissions(held.prod, i, Emitted(held.state, outcome)))
  }

  /** `connectVmix`: an existing entry with the same address stays, since it always has an interval. */
  function ConnectStep(s: State, p: ProdId, url: string): State {
    if Has(s, p) && s.heap[s.connections[p]].url == url then s
    else
      var s1 := if Has(s, p) then DisconnectStep(s, p) else s;
      var i := s1.nextInst;
      TickStep(s1.(heap := s1.heap[i := Held(p, url, Fresh, false, [])], nextInst := i + 1,
                   connections := s1.connections[p := i], intervals := s1.intervals + {i}), i)
  }

  predicate Enabled(s: State, c: Call) {
    match c
    case Connect(_, _) => true
    case Stop(_) => true
    case Tick(i) => i in s.intervals && i in s.heap
    case Answer(i, _) => i in s.requests && i in s.heap
  }

  function Step(s: State, c: Call): State
    requires Enabled(s, c)
  {
    match c
    case Connect(p, url) => ConnectStep(s, p, url)
    case Stop(p) => if Has(s, p) then DisconnectStep(s, p) else s
    case Tick(i) => TickStep(s, i)
    case Answer(i, outcome) => AnswerStep(s, i, outcome)
  }

  // ---------------------------------------------------------------- what every step keeps

  /** What one instance has emitted, in order. */
  function FeedOf(feed: seq<Emission>, i: InstId): seq<Event> {
    if feed == [] then []
    else
      var last := feed[|feed| - 1];
      FeedOf(feed[..|feed| - 1], i) + if last.source == Some(i) then [last.event] else []
  }

  /** One request at most is under way, and the instance has lived through its polls one after the other. */
  ghost predicate HeldInv(s: State, i: InstId) {
    if i in s.heap then
      && i < s.nextInst && s.requests[i] == (if s.heap[i].pollInFlight then 1 else 0)
      && s.heap[i].state == After(s.heap[i].polls) && FeedOf(s.feed, i) == Trace(s.heap[i].polls)
    else s.requests[i] == 0 && FeedOf(s.feed, i) == []
  }

  /** The running intervals are those of the connected instances, one for each production. */
  ghost predicate IntervalsInv(connections: map<ProdId, InstId>, intervals: set<InstId>, heap: map<InstId, Held>) {
    && (forall p :: p in connections ==>
          connections[p] in heap && connections[p] in intervals && heap[connections[p]].prod == p)
    && (forall i :: i in intervals ==> i in heap && heap[i].prod in connections && connections[heap[i].prod] == i)
  }

  ghost predicate Inv(s: State) {
    && IntervalsInv(s.connections, s.intervals, s.heap)
    && (forall i :: HeldInv(s, i))
  }

  lemma {:induction false} FeedConcat(a: seq<Emission>, b: seq<Emission>, i: InstId)
    ensures FeedOf(a + b, i) == FeedOf(a, i) + FeedOf(b, i)
  {
    if b == [] {
      assert a + b == a;
    } else {
      FeedConcat(a, b[..|b| - 1], i);
      assert (a + b)[..|a + b| - 1] == a + b[..|b| - 1];
    }
  }

  lemma {:induction false} FeedOfEmissions(p: ProdId, i: InstId, events: seq<Event>, j: InstId)
    ensures FeedOf(Emissions(p, i, events), j) == if i == j then events else []
  {
    if events != [] {
      var e := Emissions(p, i, events);
      FeedOfEmissions(p, i, events[..|events| - 1], j);
      assert e[..|e| - 1] == Emissions(p, i, events[..|events| - 1]);
    }
  }

  lemma DisconnectKeepsInv(s: State, p: ProdId)
    requires Inv(s) && Has(s, p)
    ensures Inv(DisconnectStep(s, p))
  {
    var s' := DisconnectStep(s, p);
    forall i ensures HeldInv(s', i) {
      assert HeldInv(s, i);
      var e := Emission(p, None, ConnectionState(false));
      FeedConcat(s.feed, [e], i);
      assert [e][..0] == [];
    }
  }

  lemma TickKeepsInv(s: State, i: InstId)
    requires Inv(s) && i in s.heap
    ensures Inv(TickStep(s, i))
  {
    var s' := TickStep(s, i);
    forall j ensures HeldInv(s', j) {
      assert HeldInv(s, j);
    }
  }

  lemma AnswerKeepsInv(s: State, i: InstId, outcome: Poll)
    requires Inv(s) && i in s.heap && i in s.requests
    ensures Inv(AnswerStep(s, i, outcome))
  {
    hide HeldInv, AnswerStep;
    var s' := AnswerStep(s, i, outcome);
    forall j ensures HeldInv(s', j) {
      AnswerKeepsHeld(s, i, outcome, j);
    }
    AnswerKeepsIntervals(s, i, outcome);
  }

  lemma AnswerKeepsIntervals(s: State, i: InstId, outcome: Poll)
    requires Inv(s) && i in s.heap
    ensures var s' := AnswerStep(s, i, outcome); IntervalsInv(s'.connections, s'.intervals, s'.heap)
  {
    hide Emitted, PollStep, Emissions, HeldInv;
  }

  lemma AnswerKeepsHeld(s: State, i: InstId, outcome: Poll, j: InstId)
    requires HeldInv(s, j) && HeldInv(s, i) && i in s.heap && i in s.requests
    ensures HeldInv(AnswerStep(s, i, outcome), j)
  {
    hide Emitted, PollStep, Emissions, FeedOf;
    var held := s.heap[i];
    var events := Emitted(held.state, outcome);
    assert (held.polls + [outcome])[..|held.polls|] == held.polls;
    FeedConcat(s.feed, Emissions(held.prod, i, events), j);
    FeedOfEmissions(held.prod, i, events, j);
  }

  lemma ConnectKeepsInv(s: State, p: ProdId, url: string)
    requires Inv(s)
    ensures Inv(ConnectStep(s, p, url))
  {
    if !(Has(s, p) && s.heap[s.connections[p]].url == url) {
      if Has(s, p) {
        DisconnectKeepsInv(s, p);
      }
      var s1 := if Has(s, p) then DisconnectStep(s, p) else s;
      var i := s1.nextInst;
      var s2 := s1.(heap := s1.heap[i := Held(p, url, Fresh, false, [])], nextInst := i + 1,
                    connections := s1.connections[p := i], intervals := s1.intervals + {i});
      assert HeldInv(s1, i);
      forall j ensures HeldInv(s2, j) {
        NewInstance(s1, s2, p, url, j);
      }
      hide HeldInv;
      TickKeepsInv(s2, i);
    }
  }

  lemma NewInstance(s: State, s': State, p: ProdId, url: string, j: InstId)
    requires HeldInv(s, j) && HeldInv(s, s.nextInst)
    requires s'.heap == s.heap[s.nextInst := Held(p, url, Fresh, false, [])] && s'.nextInst == s.nextInst + 1
    requires s'.requests == s.requests && s'.feed == s.feed
    ensures HeldInv(s', j)
  {
  }

  lemma StepKeepsInv(s: State, c: Call)
    requires Inv(s) && Enabled(s, c)
    ensures Inv(Step(s, c))
  {
    hide Inv, ConnectStep, DisconnectStep, TickStep, AnswerStep;
    match c
    case Connect(p, url) => ConnectKeepsInv(s, p, url);
    case Stop(p) => if Has(s, p) { DisconnectKeepsInv(s, p); }
    case Tick(i) => TickKeepsInv(s, i);
    case Answer(i, outcome) => AnswerKeepsInv(s, i, outcome);
  }

  ghost predicate Possible(s: State, calls: seq<Call>)
    decreases |calls|
  {
    calls == [] || (Enabled(s, calls[0]) && Possible(Step(s, calls[0]), calls[1..]))
  }

  ghost function Run(s: State, calls: seq<Call>): State
    requires Possible(s, calls)
    decreases |calls|
  {
    if calls == [] then s else Run(Step(s, calls[0]), calls[1..])
  }

  lemma {:induction false} RunKeepsInv(s: State, calls: seq<Call>)
    requires Inv(s) && Possible(s, calls)
    ensures Inv(Run(s, calls))
    decreases |calls|
  {
    hide Inv;
    if calls != [] {
      StepKeepsInv(s, calls[0]);
      RunKeepsInv(Step(s, calls[0]), calls[1..]);
    }
  }

  /**
   In every reachable state, whatever the interleaving of connects, stops, ticks and late answers: each instance has
   lived through a sequence of polls one at a time and emitted exactly their events, a production has one running
   interval at most, and only connected instances have one.
   */
  lemma InstancesLiveThroughTheirPolls(calls: seq<Call>, i: InstId, j: InstId)
    requires Possible(Empty, calls)
    ensures var s := Run(Empty, calls);
            && s.requests[i] <= 1
            && (i in s.heap ==>
                  s.heap[i].state == After(s.heap[i].polls) && FeedOf(s.feed, i) == Trace(s.heap[i].polls))
            && (i in s.intervals ==>
                  i in s.heap && s.heap[i].prod in s.connections && s.connections[s.heap[i].prod] == i)
            && (i in s.intervals && j in s.intervals ==> i in s.heap && j in s.heap)
            && (i in s.intervals && j in s.intervals && s.heap[i].prod == s.heap[j].prod ==> i == j)
  {
    RunKeepsInv(Empty, calls);
    assert HeldInv(Run(Empty, calls), i);
  }

  /**
   Hence the connection events of one instance alternate, and its change events give its values, in every
   interleaving.
   */
  lemma FeedOfInstanceIsSound(calls: seq<Call>, i: InstId)
    requires Possible(Empty, calls) && i in Run(Empty, calls).heap
    ensures var s := Run(Empty, calls);
            && Alternate(ConnectionEvents(FeedOf(s.feed, i)))
            && Replay(FeedOf(s.feed, i)) == s.heap[i].state.view
  {
    InstancesLiveThroughTheirPolls(calls, i, i);
    var polls := Run(Empty, calls).heap[i].polls;
    ConnectionEventsAlternate(polls);
    ReplayFollowsInstance(polls);
  }

  /** Connecting leaves a running interval for the address; the same address again changes nothing. */
  lemma ConnectIsIdempotent(s: State, p: ProdId, url: string)
    requires Inv(s)
    ensures var s' := ConnectStep(s, p, url);
            && Has(s', p) && s'.heap[s'.connections[p]].url == url && s'.connections[p] in s'.intervals
            && ConnectStep(s', p, url) == s'
  {
  }

  // ---------------------------------------------------------------- what a production is told

  /** What a consumer believes about a production. */
  datatype Belief = Belief(connected: bool, view: View)

  const Nothing := Belief(false, FreshView)

  /** Change events carry values, connection events the flag; `disconnectVmix` ends everything. */
  function Hear(b: Belief, e: Emission): Belief {
    if e.source.None? then Belief(e.event.ConnectionState? && e.event.connected, FreshView)
    else match e.event
      case InputChanged(sample) => b.(view := ViewOf(sample))
      case ConnectionState(connected) => b.(connected := connected)
  }

  function Told(feed: seq<Emission>, p: ProdId): Belief {
    if feed == [] then Nothing
    else
      var rest, last := Told(feed[..|feed| - 1], p), feed[|feed| - 1];
      if last.prod == p then Hear(rest, last) else rest
  }

  /** What is the case: the values of the connected instance, or nothing without one. */
  function Actual(s: State, p: ProdId): Belief {
    if Has(s, p)
    then Belief(s.heap[s.connections[p]].state.isConnected, s.heap[s.connections[p]].state.view)
    else Nothing
  }

  ghost predicate Truthful(s: State) {
    forall p :: Told(s.feed, p).connected == Actual(s, p).connected
  }

  ghost predicate Accurate(s: State) {
    forall p :: Told(s.feed, p).view == Actual(s, p).view
  }

  /** The poll reports a connection state, and for whom it was polled that state is another one. */
  predicate FalseReport(s: State, c: Call) {
    && c.Answer? && c.inst in s.heap && c.inst !in s.intervals
    && var held := s.heap[c.inst];
       && ((c.outcome.Success? && !held.state.isConnected) || Disconnects(held.state, c.outcome))
       && Actual(s, held.prod).connected != c.outcome.Success?
  }

  /** The poll of an instance that is not connected any more sends values, and they are not those of the production. */
  predicate FalseValues(s: State, c: Call) {
    && c.Answer? && c.inst in s.heap && c.inst !in s.intervals && c.outcome.Success?
    && HasChanged(s.heap[c.inst].state.view, c.outcome.sample)
    && Actual(s, s.heap[c.inst].prod).view != ViewOf(c.outcome.sample)
  }

  lemma ToldSnoc(feed: seq<Emission>, e: Emission, p: ProdId)
    ensures Told(feed + [e], p) == if e.prod == p then Hear(Told(feed, p), e) else Told(feed, p)
  {
    assert (feed + [e])[..|feed|] == feed;
  }

  lemma ToldTwo(feed: seq<Emission>, a: Emission, b: Emission, p: ProdId)
    requires a.prod == b.prod == p
    ensures Told(feed + [a, b], p) == Hear(Hear(Told(feed, p), a), b)
  {
    ToldSnoc(feed, a, p);
    ToldSnoc(feed + [a], b, p);
    assert feed + [a, b] == feed + [a] + [b];
  }

  lemma {:induction false} ToldByOthers(feed: seq<Emission>, more: seq<Emission>, p: ProdId)
    requires forall k :: 0 <= k < |more| ==> more[k].prod != p
    ensures Told(feed + more, p) == Told(feed, p)
  {
    if more == [] {
      assert feed + more == feed;
    } else {
      ToldByOthers(feed, more[..|more| - 1], p);
      ToldSnoc(feed + more[..|more| - 1], more[|more| - 1], p);
      assert feed + more == feed + more[..|more| - 1] + [more[|more| - 1]];
    }
  }

  /** What one poll of an instance tells its production. */
  function AfterPoll(b: Belief, i: Instance, o: Poll): Belief {
    Belief(if o.Success? && !i.isConnected then true else if Disconnects(i, o) then false else b.connected,
           if o.Success? && HasChanged(i.view, o.sample) then ViewOf(o.sample) else b.view)
  }

  lemma PollTells(feed: seq<Emission>, p: ProdId, n: InstId, i: Instance, o: Poll)
    ensures Told(feed + Emissions(p, n, Emitted(i, o)), p) == AfterPoll(Told(feed, p), i, o)
  {
    hide Told, HasChanged;
    var e := Emissions(p, n, Emitted(i, o));
    if |e| == 0 {
      assert feed + e == feed;
    } else if |e| == 1 {
      ToldSnoc(feed, e[0], p);
      assert e == [e[0]];
    } else {
      ToldTwo(feed, e[0], e[1], p);
      assert e == [e[0], e[1]];
    }
  }

  lemma AnswerTells(s: State, i: InstId, o: Poll, p: ProdId)
    requires i in s.heap
    ensures var held := s.heap[i];
            Told(AnswerStep(s, i, o).feed, p) ==
            if p == held.prod then AfterPoll(Told(s.feed, p), held.state, o) else Told(s.feed, p)
  {
    hide Told, AfterPoll, Emitted;
    var held := s.heap[i];
    PollTells(s.feed, held.prod, i, held.state, o);
    if p != held.prod {
      ToldByOthers(s.feed, Emissions(held.prod, i, Emitted(held.state, o)), p);
    }
  }

  /** An answer moves what is the case for its own production, and only if its instance is still the connected one. */
  lemma AnswerMoves(s: State, i: InstId, o: Poll, p: ProdId)
    requires Inv(s) && i in s.heap
    ensures var next := PollStep(s.heap[i].state, o);
            Actual(AnswerStep(s, i, o), p) ==
            if i in s.intervals && p == s.heap[i].prod then Belief(next.isConnected, next.view) else Actual(s, p)
  {
    hide PollStep, Emitted, HeldInv;
  }

  /** A poll of the connected instance brings the belief about the flag, and about the values, up to date. */
  lemma OwnPollIsTrue(b: Belief, i: Instance, o: Poll)
    ensures b.connected == i.isConnected ==> AfterPoll(b, i, o).connected == PollStep(i, o).isConnected
    ensures b.view == i.view ==> AfterPoll(b, i, o).view == PollStep(i, o).view
  {
  }

  /** Exactly the answers after which some production is told a wrong connection state although none was before. */
  lemma AnswerStaysTruthfulIff(s: State, i: InstId, o: Poll)
    requires Inv(s) && Truthful(s) && i in s.heap
    ensures Truthful(AnswerStep(s, i, o)) <==> !FalseReport(s, Answer(i, o))
  {
    hide Told, Actual, AnswerStep, Inv;
    var s', held := AnswerStep(s, i, o), s.heap[i];
    forall p ensures p != held.prod ==> Told(s'.feed, p).connected == Actual(s', p).connected {
      AnswerTells(s, i, o, p);
      AnswerMoves(s, i, o, p);
    }
    AnswerTells(s, i, o, held.prod);
    AnswerMoves(s, i, o, held.prod);
    if i in s.intervals {
      ConnectedIsActual(s, i);
      OwnPollIsTrue(Told(s.feed, held.prod), held.state, o);
    }
    assert Truthful(s') <==> Told(s'.feed, held.prod).connected == Actual(s', held.prod).connected;
  }

  /** Exactly the answers after which some production is told wrong values although none was before. */
  lemma AnswerStaysAccurateIff(s: State, i: InstId, o: Poll)
    requires Inv(s) && Accurate(s) && i in s.heap
    ensures Accurate(AnswerStep(s, i, o)) <==> !FalseValues(s, Answer(i, o))
  {
    hide Told, Actual, AnswerStep, Inv, HasChanged;
    var s', held := AnswerStep(s, i, o), s.heap[i];
    forall p ensures p != held.prod ==> Told(s'.feed, p).view == Actual(s', p).view {
      AnswerTells(s, i, o, p);
      AnswerMoves(s, i, o, p);
    }
    AnswerTells(s, i, o, held.prod);
    AnswerMoves(s, i, o, held.prod);
    if i in s.intervals {
      ConnectedIsActual(s, i);
      OwnPollIsTrue(Told(s.feed, held.prod), held.state, o);
    }
    assert Accurate(s') <==> Told(s'.feed, held.prod).view == Actual(s', held.prod).view;
  }

  lemma ConnectedIsActual(s: State, i: InstId)
    requires Inv(s) && i in s.intervals
    ensures i in s.heap && Actual(s, s.heap[i].prod) == Belief(s.heap[i].state.isConnected, s.heap[i].state.view)
  {
    hide HeldInv;
  }

  lemma DisconnectTells(s: State, p: ProdId, q: ProdId)
    requires Has(s, p)
    ensures Told(DisconnectStep(s, p).feed, q) == if p == q then Nothing else Told(s.feed, q)
    ensures Actual(DisconnectStep(s, p), q) == if p == q then Nothing else Actual(s, q)
  {
    ToldSnoc(s.feed, Emission(p, None, ConnectionState(false)), q);
  }

  lemma ConnectTells(s: State, p: ProdId, url: string, q: ProdId)
    requires Inv(s)
    ensures var s' := ConnectStep(s, p, url);
            s' == s || (Told(s'.feed, q) == (if p == q && Has(s, p) then Nothing else Told(s.feed, q))
                        && Actual(s', q) == if p == q then Nothing else Actual(s, q))
  {
    hide Told;
    if Has(s, p) {
      DisconnectTells(s, p, q);
    }
    FreshId(s);
  }

  lemma FreshId(s: State)
    requires Inv(s)
    ensures s.nextInst !in s.heap
  {
    assert HeldInv(s, s.nextInst);
  }

  /** Connects, stops and ticks tell the truth. */
  lemma OtherCallsAreTrue(s: State, c: Call, q: ProdId)
    requires Inv(s) && Enabled(s, c) && !c.Answer?
    ensures var s' := Step(s, c);
            || (Told(s'.feed, q) == Told(s.feed, q) && Actual(s', q) == Actual(s, q))
            || (Told(s'.feed, q) == Nothing && Actual(s', q) == Nothing)
            || (Actual(s, q) == Nothing && Told(s'.feed, q) == Told(s.feed, q) && Actual(s', q) == Nothing)
  {
    hide Told, Inv, ConnectStep, DisconnectStep;
    match c
    case Connect(p, url) => ConnectTells(s, p, url, q);
    case Stop(p) => if Has(s, p) { DisconnectTells(s, p, q); }
    case Tick(i) =>
  }

  lemma StepStaysTruthfulIff(s: State, c: Call)
    requires Inv(s) && Truthful(s) && Enabled(s, c)
    ensures Truthful(Step(s, c)) <==> !FalseReport(s, c)
  {
    hide Told, Actual, Inv, ConnectStep, DisconnectStep, TickStep, AnswerStep;
    if c.Answer? {
      AnswerStaysTruthfulIff(s, c.inst, c.outcome);
    } else {
      forall q ensures Told(Step(s, c).feed, q).connected == Actual(Step(s, c), q).connected {
        OtherCallsAreTrue(s, c, q);
      }
    }
  }

  lemma StepStaysAccurateIff(s: State, c: Call)
    requires Inv(s) && Accurate(s) && Enabled(s, c)
    ensures Accurate(Step(s, c)) <==> !FalseValues(s, c)
  {
    hide Told, Actual, Inv, ConnectStep, DisconnectStep, TickStep, AnswerStep;
    if c.Answer? {
      AnswerStaysAccurateIff(s, c.inst, c.outcome);
    } else {
      forall q ensures Told(Step(s, c).feed, q).view == Actual(Step(s, c), q).view {
        OtherCallsAreTrue(s, c, q);
      }
    }
  }

  ghost predicate AlwaysTruthful(s: State, calls: seq<Call>)
    requires Possible(s, calls)
    decreases |calls|
  {
    Truthful(s) && (calls != [] ==> AlwaysTruthful(Step(s, calls[0]), calls[1..]))
  }

  ghost predicate AlwaysAccurate(s: State, calls: seq<Call>)
    requires Possible(s, calls)
    decreases |calls|
  {
    Accurate(s) && (calls != [] ==> AlwaysAccurate(Step(s, calls[0]), calls[1..]))
  }

  ghost predicate NoFalseReport(s: State, calls: seq<Call>)
    requires Possible(s, calls)
    decreases |calls|
  {
    calls != [] ==> !FalseReport(s, calls[0]) && NoFalseReport(Step(s, calls[0]), calls[1..])
  }

  ghost predicate NoFalseValues(s: State, calls: seq<Call>)
    requires Possible(s, calls)
    decreases |calls|
  {
    calls != [] ==> !FalseValues(s, calls[0]) && NoFalseValues(Step(s, calls[0]), calls[1..])
  }

  lemma {:induction false} RunStaysTruthfulIff(s: State, calls: seq<Call>)
    requires Inv(s) && Truthful(s) && Possible(s, calls)
    ensures AlwaysTruthful(s, calls) <==> NoFalseReport(s, calls)
    decreases |calls|
  {
    hide Inv, Step, Truthful, FalseReport;
    if calls != [] {
      StepKeepsInv(s, calls[0]);
      StepStaysTruthfulIff(s, calls[0]);
      if Truthful(Step(s, calls[0])) {
        RunStaysTruthfulIff(Step(s, calls[0]), calls[1..]);
      }
    }
  }

  lemma {:induction false} RunStaysAccurateIff(s: State, calls: seq<Call>)
    requires Inv(s) && Accurate(s) && Possible(s, calls)
    ensures AlwaysAccurate(s, calls) <==> NoFalseValues(s, calls)
    decreases |calls|
  {
    hide Inv, Step, Accurate, FalseValues;
    if calls != [] {
      StepKeepsInv(s, calls[0]);
      StepStaysAccurateIff(s, calls[0]);
      if Accurate(Step(s, calls[0])) {
        RunStaysAccurateIff(Step(s, calls[0]), calls[1..]);
      }
    }
  }

  /**
   Throughout a run every production is told its connection state, or its values, exactly when no poll of an
   instance that was replaced or stopped reports another one.
   */
  lemma ProductionsAreToldTheTruthIff(calls: seq<Call>)
    requires Possible(Empty, calls)
    ensures AlwaysTruthful(Empty, calls) <==> NoFalseReport(Empty, calls)
    ensures AlwaysAccurate(Empty, calls) <==> NoFalseValues(Empty, calls)
  {
    RunStaysTruthfulIff(Empty, calls);
    RunStaysAccurateIff(Empty, calls);
  }

  /** Both failures exist: a poll under way when polling stops, or when the address changes, reports all the same. */
  lemma LateAnswerRevives(p: ProdId, url: string, sample: Sample)
    ensures var s := Step(Step(Empty, Connect(p, url)), Stop(p));
            Inv(s) && Enabled(s, Answer(0, Success(sample))) && !Has(s, p)
            && FalseReport(s, Answer(0, Success(sample))) && FalseValues(s, Answer(0, Success(sample)))
  {
    StepKeepsInv(Empty, Connect(p, url));
    StepKeepsInv(Step(Empty, Connect(p, url)), Stop(p));
  }

  lemma ReplacedAnswerRevives(p: ProdId, former: string, url: string, sample: Sample)
    requires former != url
    ensures var s := Step(Step(Empty, Connect(p, former)), Connect(p, url));
            Inv(s) && Enabled(s, Answer(0, Success(sample))) && Has(s, p) && s.heap[s.connections[p]].url == url
            && FalseReport(s, Answer(0, Success(sample))) && FalseValues(s, Answer(0, Success(sample)))
  {
    StepKeepsInv(Empty, Connect(p, former));
    StepKeepsInv(Step(Empty, Connect(p, former)), Connect(p, url));
  }

  // ---------------------------------------------------------------- the manager

  class VmixConnectionManager {
    var heap: map<InstId, Held>
    var nextInst: InstId
    var connections: map<ProdId, InstId>
    var intervals: set<InstId>
    var requests: multiset<InstId>
    var feed: seq<Emission>

    ghost function Snapshot(): State
      reads this
    {
      State(heap, nextInst, connections, intervals, requests, feed)
    }

    constructor ()
      ensures Snapshot() == Empty
    {
      heap, nextInst, connections, intervals, requests, feed := map[], 0, map[], {}, multiset{}, [];
    }

    method ConnectVmix(productionId: ProdId, url: string)
      requires productionId in connections ==> connections[productionId] in heap
      modifies this
      ensures Snapshot() == ConnectStep(old(Snapshot()), productionId, url)
    {
      if productionId in connections {
        if heap[connections[productionId]].url == url {
          return;
        }
        DisconnectVmix(productionId);
      }
      var i := nextInst;
      nextInst := nextInst + 1;
      heap := heap[i := Held(productionId, url, Fresh, false, [])];
      connections := connections[productionId := i];
      intervals := intervals + {i};
      PollApi(i);
    }

    method DisconnectVmix(productionId: ProdId)
      requires Has(Snapshot(), productionId)
      modifies this
      ensures Snapshot() == DisconnectStep(old(Snapshot()), productionId)
    {
      intervals := intervals - {connections[productionId]};
      connections := connections - {productionId};
      feed := feed + [Emission(productionId, None, ConnectionState(false))];
    }

    /** `pollApi` until the request is sent; also what the interval calls. */
    method PollApi(i: InstId)
      requires i in heap
      modifies this
      ensures Snapshot() == TickStep(old(Snapshot()), i)
    {
      if heap[i].pollInFlight {
        return;
      }
      heap := heap[i := heap[i].(pollInFlight := true)];
      requests := requests + multiset{i};
    }

    method StopPolling(productionId: ProdId)
      requires productionId in connections ==> connections[productionId] in heap
      modifies this
      ensures Snapshot() == if Has(old(Snapshot()), productionId) then DisconnectStep(old(Snapshot()), productionId)
                            else old(Snapshot())
    {
      if productionId in connections {
        DisconnectVmix(productionId);
      }
    }
  }
}

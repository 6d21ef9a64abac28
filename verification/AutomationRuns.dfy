/** Runs of the engine that are executed to their end: what a run does alone, and what a duplicate launch leads to. */
module AutomationRuns {
  import opened Wrappers
  import opened AutomationEngine

  // ---------------------------------------------------------------- sequences of steps

  ghost predicate Leads(s: State, events: seq<Timed>, s': State) {
    Possible(s, events) && Execute(s, events) == s'
  }

  lemma LeadsNowhere(s: State)
    ensures Leads(s, [], s)
  {
  }

  lemma LeadsOne(s: State, e: Event, at: int)
    requires s.now < at && Enabled(s.(now := at), e)
    ensures Leads(s, [Timed(e, at)], Step(s, e, at))
  {
    LeadsNowhere(Step(s, e, at));
    assert [Timed(e, at)][1..] == [];
  }

  lemma {:induction false} LeadsOn(s: State, a: seq<Timed>, m: State, b: seq<Timed>, s': State)
    requires Leads(s, a, m) && Leads(m, b, s')
    ensures Leads(s, a + b, s')
    decreases |a|
  {
    if a == [] {
      assert a + b == b;
    } else {
      LeadsOn(Step(s, a[0].event, a[0].at), a[1..], m, b, s');
      assert (a + b)[1..] == a[1..] + b;
    }
  }

  lemma LeadsSnoc(s: State, events: seq<Timed>, m: State, e: Event, at: int)
    requires Leads(s, events, m) && m.now < at && Enabled(m.(now := at), e)
    ensures Leads(s, events + [Timed(e, at)], Step(m, e, at))
  {
    LeadsOne(m, e, at);
    LeadsOn(s, events, m, [Timed(e, at)], Step(m, e, at));
  }

  // ---------------------------------------------------------------- one run alone

  /** Run r has done its first k actions, with these outcomes, and nothing is under way beyond what starts at once. */
  ghost predicate Doing(s: State, r: RunId, rule: Rule, origin: Origin, k: nat, ended: map<nat, bool>) {
    && r in s.runs && k <= |rule.actions| && (forall i: nat :: i in ended <==> i < k)
    && s.runs[r] == Run(rule, origin, if HasDelays(rule) then k else |rule.actions|, ended, Acting, 0)
  }

  /** The next action: with delays it starts now, otherwise it was started with the others. */
  function ActEvents(rule: Rule, r: RunId, k: nat, ok: bool, t1: int, t2: int): seq<Timed> {
    (if HasDelays(rule) then [Timed(StartNext(r), t1)] else []) + [Timed(End(r, k, ok), t2)]
  }

  /** Another run state, a later clock, a longer trace; all else is the same. */
  predicate OnlyRunMoved(s: State, s': State, r: RunId) {
    && s'.executing == s.executing && s'.rows == s.rows && s'.tickets == s.tickets && s'.nextRun == s.nextRun
    && r in s.runs && r in s'.runs && s'.runs == s.runs[r := s'.runs[r]] && s.now < s'.now
  }

  lemma ActLeads(s: State, r: RunId, rule: Rule, origin: Origin, k: nat, ended: map<nat, bool>, ok: bool,
                 t1: int, t2: int)
    returns (s': State)
    requires Doing(s, r, rule, origin, k, ended) && k < |rule.actions| && s.now < t1 < t2
    requires HasDelays(rule) ==> forall i: nat :: i < k ==> ended[i]
    ensures Leads(s, ActEvents(rule, r, k, ok, t1, t2), s')
    ensures Doing(s', r, rule, origin, k + 1, ended[k := ok]) && OnlyRunMoved(s, s', r) && s'.now == t2
  {
    hide HasDelays;
    if HasDelays(rule) {
      var m := Step(s, StartNext(r), t1);
      s' := Step(m, End(r, k, ok), t2);
      LeadsOne(s, StartNext(r), t1);
      LeadsSnoc(s, [Timed(StartNext(r), t1)], m, End(r, k, ok), t2);
    } else {
      s' := Step(s, End(r, k, ok), t2);
      LeadsOne(s, End(r, k, ok), t2);
      assert ActEvents(rule, r, k, ok, t1, t2) == [Timed(End(r, k, ok), t2)];
    }
  }

  /** A run that has taken the lock can always be brought to a SUCCESS row, its other effects being none. */
  lemma {:induction false} CanSucceed(s: State, r: RunId, rule: Rule, origin: Origin, k: nat, ended: map<nat, bool>)
    returns (events: seq<Timed>, s': State)
    requires Doing(s, r, rule, origin, k, ended) && forall i: nat :: i < k ==> ended[i]
    ensures Leads(s, events, s') && NoLaunches(events) && SucceedsIn(s, s', r, rule, origin)
    decreases |rule.actions| - k
  {
    hide Leads, HasDelays, Execute, Possible;
    if k == |rule.actions| {
      events, s' := [Timed(WriteLog(r, true, {}), s.now + 1)], Step(s, WriteLog(r, true, {}), s.now + 1);
      LeadsOne(s, WriteLog(r, true, {}), s.now + 1);
    } else {
      var m := ActLeads(s, r, rule, origin, k, ended, true, s.now + 1, s.now + 2);
      var first := ActEvents(rule, r, k, true, s.now + 1, s.now + 2);
      events, s' := CanSucceed(m, r, rule, origin, k + 1, ended[k := true]);
      LeadsOn(s, first, m, events, s');
      events := first + events;
    }
  }

  /** Between the two states run r of the rule has written its SUCCESS row, and no other run has moved. */
  predicate SucceedsIn(s: State, s': State, r: RunId, rule: Rule, origin: Origin) {
    && s'.rows == s.rows + [Row(r, rule.id, true, SuccessMentions(origin), s'.now)] && s.now < s'.now
    && r in s.runs && r in s'.runs && s'.runs == s.runs[r := s'.runs[r]]
    && s'.runs[r].rule == rule && s'.runs[r].origin == origin && s'.runs[r].phase == Closing
    && s'.executing == s.executing && s'.tickets == s.tickets && s'.nextRun == s.nextRun
  }

  predicate NoLaunches(events: seq<Timed>) {
    forall k :: 0 <= k < |events| ==> !events[k].event.LaunchTicket?
  }

  lemma {:induction false} NoLaunchesNoDuplicates(s: State, events: seq<Timed>)
    requires Possible(s, events) && NoLaunches(events)
    ensures NoDuplicates(s, events)
    decreases |events|
  {
    hide Step, Enabled;
    if events != [] {
      NoLaunchesNoDuplicates(Step(s, events[0].event, events[0].at), events[1..]);
    }
  }

  lemma LaunchIsDoing(s: State, rule: Rule, origin: Origin)
    requires rule.id !in s.executing
    ensures Doing(Begin(s, rule, origin), s.nextRun, rule, origin, 0, map[])
  {
  }

  // ---------------------------------------------------------------- duplicate launches

  lemma DuplicateLaunchBegins(s: State, t: Ticket, at: int)
    requires Inv(s) && s.now < at && Enabled(s.(now := at), LaunchTicket(t)) && Duplicates(s, LaunchTicket(t))
    ensures var s' := Step(s, LaunchTicket(t), at); var origin := ByTimer(t.block, t.activation);
            && Doing(s', s.nextRun, t.rule, origin, 0, map[]) && s'.rows == s.rows && s'.now == at
            && AlreadySucceeded(s'.rows, s'.runs, t)
            && forall i :: 0 <= i < |s.rows| ==> s.rows[i].run in s.runs && s.rows[i].run != s.nextRun
  {
    var i :| 0 <= i < |s.rows| && Succeeded(s.rows, s.runs, i) && LaunchedFor(s.runs[s.rows[i].run], t);
    LaunchIsDoing(s.(now := at, tickets := s.tickets - {t}), t.rule, ByTimer(t.block, t.activation));
    forall j ensures 0 <= j < |s.rows| ==> s.rows[j].run in s.runs && s.rows[j].run != s.nextRun {
      OldRow(s, j);
    }
    assert Succeeded(s.rows, Step(s, LaunchTicket(t), at).runs, i);
  }

  /** After a duplicate launch a second SUCCESS row for the activation is possible. */
  lemma DuplicateSucceedsTwice(s: State, t: Ticket, at: int) returns (events: seq<Timed>, end: State)
    requires Inv(s) && s.now < at && Enabled(s.(now := at), LaunchTicket(t)) && Duplicates(s, LaunchTicket(t))
    ensures Leads(Step(s, LaunchTicket(t), at), events, end) && NoLaunches(events)
    ensures !OncePerActivation(end.rows, end.runs)
  {
    hide Leads, Inv, Step, Duplicates, Doing, HasDelays, Enabled;
    var m, origin := Step(s, LaunchTicket(t), at), ByTimer(t.block, t.activation);
    DuplicateLaunchBegins(s, t, at);
    events, end := CanSucceed(m, s.nextRun, t.rule, origin, 0, map[]);
    var i :| 0 <= i < |m.rows| && Succeeded(m.rows, m.runs, i) && LaunchedFor(m.runs[m.rows[i].run], t);
    assert Succeeded(end.rows, end.runs, i) && Succeeded(end.rows, end.runs, |s.rows|);
    assert SameTrigger(end.runs[end.rows[i].run], end.runs[end.rows[|s.rows|].run]);
  }

  /**
   A launch in a good state is safe, in that no activation succeeds twice as long as no other launch is a duplicate,
   exactly when it is not a duplicate itself.
   */
  lemma LaunchIsSafeIff(s: State, t: Ticket, at: int)
    requires Inv(s) && Safe(s.rows, s.runs) && s.now < at && Enabled(s.(now := at), LaunchTicket(t))
    ensures (forall events, end :: Leads(Step(s, LaunchTicket(t), at), events, end)
                                   && NoDuplicates(Step(s, LaunchTicket(t), at), events)
                                   ==> OncePerActivation(end.rows, end.runs))
            <==> !Duplicates(s, LaunchTicket(t))
  {
    hide Step, Inv, Duplicates, OncePerActivation, NoPredecessor, Enabled;
    var m := Step(s, LaunchTicket(t), at);
    if Duplicates(s, LaunchTicket(t)) {
      var events, end := DuplicateSucceedsTwice(s, t, at);
      NoLaunchesNoDuplicates(m, events);
    } else {
      StepKeepsInv(s, LaunchTicket(t), at);
      StepStaysSafeIff(s, LaunchTicket(t), at);
      forall events, end | Leads(m, events, end) && NoDuplicates(m, events)
        ensures OncePerActivation(end.rows, end.runs)
      {
        ExecuteStaysSafeIff(m, events);
      }
    }
  }

  /** The run that a lookup of the ticket launches is under way, and the ticket was found a second time. */
  lemma LookUpTwice(t: Ticket) returns (events: seq<Timed>, s: State)
    ensures Leads(Initial, events, s) && t in s.tickets && s.nextRun == 1 && s.rows == []
    ensures s.executing == {t.rule.id} && Doing(s, 0, t.rule, ByTimer(t.block, t.activation), 0, map[])
  {
    hide HasDelays, Leads;
    var T := if t.activation > 0 then t.activation else 0;
    var s1 := Step(Initial, Lookup(t), T + 1);
    LeadsOne(Initial, Lookup(t), T + 1);
    var s2 := Step(s1, LaunchTicket(t), T + 2);
    LeadsSnoc(Initial, [Timed(Lookup(t), T + 1)], s1, LaunchTicket(t), T + 2);
    s := Step(s2, Lookup(t), T + 3);
    events := [Timed(Lookup(t), T + 1)] + [Timed(LaunchTicket(t), T + 2)];
    LeadsSnoc(Initial, events, s2, Lookup(t), T + 3);
    events := events + [Timed(Lookup(t), T + 3)];
  }

  /**
   The code does not look again before it launches: for every rule and activation there is a run in which a stale
   lookup makes a second SUCCESS row.
   */
  lemma StaleLookupLaunchesTwice(t: Ticket) returns (events: seq<Timed>)
    ensures Possible(Initial, events)
    ensures !OncePerActivation(Execute(Initial, events).rows, Execute(Initial, events).runs)
  {
    hide Step, HasDelays, Execute, Possible, OncePerActivation, Doing, Inv;
    var a, s := LookUpTwice(t);
    var b, m := CanSucceed(s, 0, t.rule, ByTimer(t.block, t.activation), 0, map[]);
    LeadsOn(Initial, a, s, b, m);
    ReleaseLeaves(m, 0, t);
    var n := Step(m, Release(0), m.now + 1);
    LeadsSnoc(Initial, a + b, m, Release(0), m.now + 1);
    var c := a + b + [Timed(Release(0), m.now + 1)];
    ReachableStates(c);
    var d, end := DuplicateSucceedsTwice(n, t, n.now + 1);
    LeadsSnoc(Initial, c, n, LaunchTicket(t), n.now + 1);
    var l := Step(n, LaunchTicket(t), n.now + 1);
    LeadsOn(Initial, c + [Timed(LaunchTicket(t), n.now + 1)], l, d, end);
    events := c + [Timed(LaunchTicket(t), n.now + 1)] + d;
  }

  lemma ReleaseLeaves(s: State, r: RunId, t: Ticket)
    requires r in s.runs && s.runs[r].phase == Closing && s.executing == {s.runs[r].rule.id} && t in s.tickets
    requires LaunchedFor(s.runs[r], t) && |s.rows| == 1 && s.rows[0].run == r && s.rows[0].ok
    ensures Enabled(s.(now := s.now + 1), Release(r))
    ensures var s' := Step(s, Release(r), s.now + 1);
            Duplicates(s', LaunchTicket(t)) && Enabled(s'.(now := s'.now + 1), LaunchTicket(t)) && s'.now == s.now + 1
  {
    var s' := Step(s, Release(r), s.now + 1);
    assert Succeeded(s'.rows, s'.runs, 0);
  }
}

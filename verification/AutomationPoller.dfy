/** AutomationEngineService as a service object: the one-second poller, and one run of a rule's actions on its own. */
module AutomationPoller {
  import opened Wrappers
  import opened AutomationEngine
  import opened AutomationRuns

  // ---------------------------------------------------------------- the poller's arithmetic

  /** `Math.floor((block.durationMs - elapsedTime) / 1000)`. */
  function Remaining(durationMs: int, start: int, now: int): int {
    (durationMs - (now - start)) / 1000
  }

  /** The whole seconds until the block ends: it ends in at least so many, and in less than one more. */
  lemma RemainingCountsSeconds(durationMs: int, start: int, now: int)
    ensures var r := Remaining(durationMs, start, now);
            now + 1000 * r <= start + durationMs < now + 1000 * r + 1000
  {
  }

  predicate GapsAtMost(ticks: seq<int>, gap: int) {
    forall i :: 0 <= i < |ticks| - 1 ==> ticks[i] <= ticks[i + 1] <= ticks[i] + gap
  }

  predicate GapsAtLeast(ticks: seq<int>, gap: int) {
    forall i :: 0 <= i < |ticks| - 1 ==> ticks[i] + gap <= ticks[i + 1]
  }

  /** Ticks at most a second apart cannot step over a second: a discrete intermediate value theorem. */
  lemma {:induction false} SomeTickHits(ticks: seq<int>, durationMs: int, start: int, seconds: int)
    requires ticks != [] && GapsAtMost(ticks, 1000)
    requires Remaining(durationMs, start, ticks[0]) >= seconds >= Remaining(durationMs, start, ticks[|ticks| - 1])
    ensures exists i :: 0 <= i < |ticks| && Remaining(durationMs, start, ticks[i]) == seconds
  {
    var front := ticks[..|ticks| - 1];
    if Remaining(durationMs, start, ticks[|ticks| - 1]) < seconds {
      SomeTickHits(front, durationMs, start, seconds);
      var i :| 0 <= i < |front| && Remaining(durationMs, start, front[i]) == seconds;
      assert ticks[i] == front[i];
    }
  }

  lemma {:induction false} GapsAdd(ticks: seq<int>, i: nat, j: nat)
    requires GapsAtLeast(ticks, 1000) && i < j < |ticks|
    ensures ticks[i] + 1000 <= ticks[j]
  {
    if i + 1 < j {
      GapsAdd(ticks, i, j - 1);
    }
  }

  /** Ticks at least a second apart hit each second at most once. */
  lemma AtMostOneTickHits(ticks: seq<int>, durationMs: int, start: int, i: nat, j: nat)
    requires GapsAtLeast(ticks, 1000) && i < j < |ticks|
    ensures Remaining(durationMs, start, ticks[i]) != Remaining(durationMs, start, ticks[j])
  {
    GapsAdd(ticks, i, j);
  }

  /** The ticks see the time before the threshold and the time after it. */
  predicate Spans(ticks: seq<int>, durationMs: int, start: int, seconds: int) {
    ticks != [] && Remaining(durationMs, start, ticks[0]) >= seconds
    && seconds >= Remaining(durationMs, start, ticks[|ticks| - 1])
  }

  predicate HitsThreshold(ticks: seq<int>, durationMs: int, start: int, seconds: int) {
    exists i | 0 <= i < |ticks| :: Remaining(durationMs, start, ticks[i]) == seconds
  }

  /** Two ticks further apart than a second, by one millisecond even, can step over any threshold. */
  lemma LateTickMisses(durationMs: int, start: int, seconds: int, gap: int) returns (ticks: seq<int>)
    requires gap > 1000
    ensures GapsAtMost(ticks, gap) && Spans(ticks, durationMs, start, seconds)
    ensures !HitsThreshold(ticks, durationMs, start, seconds)
  {
    var last := durationMs + start - 1000 * (seconds + 1);
    ticks := [last, last + 1001];
    assert Remaining(durationMs, start, last) == seconds + 1;
    assert Remaining(durationMs, start, last + 1001) == seconds - 1;
  }

  /** Every threshold that is spanned is hit exactly with gaps of a second at most: the timer has no slack. */
  lemma AllThresholdsHitIff(durationMs: int, start: int, seconds: int, gap: int)
    ensures (forall ticks :: GapsAtMost(ticks, gap) && Spans(ticks, durationMs, start, seconds)
                             ==> HitsThreshold(ticks, durationMs, start, seconds))
            <==> gap <= 1000
  {
    if gap > 1000 {
      var ticks := LateTickMisses(durationMs, start, seconds, gap);
    } else {
      forall ticks | GapsAtMost(ticks, gap) && Spans(ticks, durationMs, start, seconds)
        ensures HitsThreshold(ticks, durationMs, start, seconds)
      {
        SomeTickHits(ticks, durationMs, start, seconds);
      }
    }
  }

  // ---------------------------------------------------------------- the service

  datatype Block = Block(id: BlockId, productionId: string, durationMs: int, startTime: Option<int>)

  datatype TimeTrigger = TimeTrigger(eventType: string, secondsBefore: int)

  datatype PolledRule = PolledRule(rule: Rule, productionId: string, triggers: seq<TimeTrigger>)

  const BEFORE_END := "timeline.before_end"

  predicate Hits(t: TimeTrigger, b: Block, now: int) {
    b.startTime.Some? && t.eventType == BEFORE_END && Remaining(b.durationMs, b.startTime.value, now) == t.secondsBefore
  }

  predicate HitsSome(triggers: seq<TimeTrigger>, n: nat, b: Block, now: int)
    requires n <= |triggers|
  {
    exists k :: 0 <= k < n && Hits(triggers[k], b, now)
  }

  /** What one tick launches: the rules of a block's production with a trigger due now and no row for the activation. */
  predicate Due(rows: seq<Row>, b: Block, r: PolledRule, n: nat, now: int)
    requires n <= |r.triggers|
  {
    && r.productionId == b.productionId && HitsSome(r.triggers, n, b, now)
    && !Logged(rows, Ticket(r.rule, b.id, b.startTime.value))
  }

  ghost predicate DueInBlock(rows: seq<Row>, b: Block, rules: seq<PolledRule>, n: nat, now: int, t: Ticket)
    requires n <= |rules|
  {
    b.startTime.Some? && t.block == b.id && t.activation == b.startTime.value &&
    exists j :: 0 <= j < n && rules[j].rule == t.rule && Due(rows, b, rules[j], |rules[j].triggers|, now)
  }

  /** Readings of a clock that strictly advances. */
  ghost predicate Ticking(at: nat -> int) {
    forall i: nat, j: nat :: i < j ==> at(i) < at(j)
  }

  lemma NextTwo(at: nat -> int, k: nat)
    requires Ticking(at)
    ensures at(k) < at(k + 1) < at(k + 2)
  {
  }

  function LaunchEvent(rule: Rule, origin: Origin): Event {
    match origin
    case ByTimer(block, activation) => LaunchTicket(Ticket(rule, block, activation))
    case ByEvent(contextId) => Launch(rule, contextId)
  }

  predicate AllSucceed(rule: Rule, succeeds: nat -> bool) {
    forall i: nat :: i < |rule.actions| ==> succeeds(i)
  }

  /**
   The row a run leaves: SUCCESS if all actions succeeded and the row could be written, otherwise ERROR; none if the
   write of the ERROR row fails. A SUCCESS row that could not be written counts as an error.
   */
  function FinalRows(r: RunId, id: RuleId, ok: bool, origin: Origin, mentions: set<BlockId>,
                     firstWrite: bool, secondWrite: bool, t1: int, t2: int): seq<Row>
  {
    if firstWrite then [Row(r, id, ok, if ok then SuccessMentions(origin) else mentions, t1)]
    else if ok && secondWrite then [Row(r, id, false, mentions, t2)]
    else []
  }

  /** The first n actions of a rule, in order. */
  function Calls(id: RuleId, n: nat): seq<(RuleId, nat)> {
    if n == 0 then [] else Calls(id, n - 1) + [(id, n - 1)]
  }

  /** The actions are called one by one, in order. */
  lemma {:induction false} CallsAreInOrder(id: RuleId, n: nat)
    ensures |Calls(id, n)| == n && forall i :: 0 <= i < n ==> Calls(id, n)[i] == (id, i)
  {
    if n > 0 {
      CallsAreInOrder(id, n - 1);
    }
  }

  /** The outcomes of the first k actions. */
  function Outcomes(succeeds: nat -> bool, k: nat): map<nat, bool> {
    map i: nat | i < k :: succeeds(i)
  }

  lemma NoOutcome(succeeds: nat -> bool)
    ensures Outcomes(succeeds, 0) == map[]
  {
  }

  lemma OutcomesKnown(succeeds: nat -> bool, k: nat)
    ensures forall i: nat :: i < k ==> i in Outcomes(succeeds, k) && Outcomes(succeeds, k)[i] == succeeds(i)
  {
  }

  lemma OneMoreOutcome(succeeds: nat -> bool, k: nat)
    ensures Outcomes(succeeds, k)[k := succeeds(k)] == Outcomes(succeeds, k + 1)
  {
  }

  /** How many actions are invoked: with delays those up to the first failure, without them all. */
  ghost predicate IsCount(rule: Rule, succeeds: nat -> bool, count: nat) {
    && count <= |rule.actions| && (!HasDelays(rule) ==> count == |rule.actions|)
    && (HasDelays(rule) ==> (forall i: nat :: i + 1 < count ==> succeeds(i))
                            && (count < |rule.actions| ==> count > 0 && !succeeds(count - 1)))
  }

  lemma LaunchEffect(s: State, rule: Rule, origin: Origin, t: int)
    requires s.now < t
    requires origin.ByTimer? ==> Ticket(rule, origin.block, origin.activation) in s.tickets
    ensures Enabled(s.(now := t), LaunchEvent(rule, origin))
    ensures var s' := Step(s, LaunchEvent(rule, origin), t);
            && Leads(s, [Timed(LaunchEvent(rule, origin), t)], s') && s'.rows == s.rows && s'.now == t
            && (rule.id in s.executing ==> s'.executing == s.executing && s'.nextRun == s.nextRun)
            && (rule.id !in s.executing ==>
                  && s'.executing == s.executing + {rule.id} && s'.nextRun == s.nextRun + 1
                  && Doing(s', s.nextRun, rule, origin, 0, map[]))
  {
    hide HasDelays, Leads;
    LeadsOne(s, LaunchEvent(rule, origin), t);
  }

  /** Run r has a rule and is at a stage of logging. */
  predicate Logging(s: State, r: RunId, rule: Rule, origin: Origin, phase: Phase) {
    r in s.runs && s.runs[r].rule == rule && s.runs[r].origin == origin && s.runs[r].phase == phase
  }

  /** Whether all actions succeeded can be seen from the first k outcomes. */
  ghost predicate Decides(rule: Rule, k: nat, ended: map<nat, bool>, ok: bool) {
    if ok then k == |rule.actions| && forall i: nat :: i in ended ==> ended[i]
    else exists i: nat :: i in ended && !ended[i]
  }

  lemma WriteEffect(s: State, r: RunId, rule: Rule, origin: Origin, k: nat, ended: map<nat, bool>,
                    ok: bool, written: bool, mentions: set<BlockId>, t: int)
    requires Doing(s, r, rule, origin, k, ended) && Decides(rule, k, ended, ok) && s.now < t
    ensures Enabled(s.(now := t), WriteLog(r, written, mentions))
    ensures var s' := Step(s, WriteLog(r, written, mentions), t);
            && s'.rows == s.rows + (if !written then []
                                    else [Row(r, rule.id, ok, if ok then SuccessMentions(origin) else mentions, t)])
            && Logging(s', r, rule, origin, if ok && !written then Retrying else Closing)
            && s'.executing == s.executing && s'.nextRun == s.nextRun && s'.now == t
  {
    hide HasDelays;
    var run := s.runs[r];
    if ok {
      assert AllOk(run);
    } else {
      assert SomeFailed(run);
      assert !AllOk(run) by {
        var i: nat :| i in ended && !ended[i];
      }
    }
  }

  lemma OutcomesDecide(rule: Rule, succeeds: nat -> bool, k: nat, failed: bool)
    requires k <= |rule.actions| && (!failed ==> k == |rule.actions|)
    requires failed <==> exists i: nat :: i < k && !succeeds(i)
    ensures Decides(rule, k, Outcomes(succeeds, k), !failed) && (failed <==> !AllSucceed(rule, succeeds))
  {
    if failed {
      var i: nat :| i < k && !succeeds(i);
      assert i in Outcomes(succeeds, k) && !Outcomes(succeeds, k)[i];
    }
  }

  lemma RetryEffect(s: State, r: RunId, rule: Rule, origin: Origin, written: bool, mentions: set<BlockId>, t: int)
    requires Logging(s, r, rule, origin, Retrying) && s.now < t
    ensures Enabled(s.(now := t), WriteLog(r, written, mentions))
    ensures var s' := Step(s, WriteLog(r, written, mentions), t);
            && s'.rows == s.rows + (if written then [Row(r, rule.id, false, mentions, t)] else [])
            && Logging(s', r, rule, origin, Closing)
            && s'.executing == s.executing && s'.nextRun == s.nextRun && s'.now == t
  {
  }

  lemma ReleaseEffect(s: State, r: RunId, rule: Rule, origin: Origin, t: int)
    requires Logging(s, r, rule, origin, Closing) && s.now < t
    ensures Enabled(s.(now := t), Release(r))
    ensures var s' := Step(s, Release(r), t);
            s'.rows == s.rows && s'.executing == s.executing - {rule.id} && s'.nextRun == s.nextRun
  {
  }

  /** The reading lies in the second that is this many whole seconds before the end of the block. */
  predicate InSecondBefore(b: Block, seconds: int, now: int)
    requires b.startTime.Some?
  {
    var end := b.startTime.value + b.durationMs;
    end - 1000 * (seconds + 1) < now <= end - 1000 * seconds
  }

  /** A rule of the list that asks to be launched in this second of the block. */
  predicate Asks(r: PolledRule, k: int, b: Block, now: int)
    requires b.startTime.Some?
  {
    && r.productionId == b.productionId && 0 <= k < |r.triggers|
    && r.triggers[k].eventType == "timeline.before_end" && InSecondBefore(b, r.triggers[k].secondsBefore, now)
  }

  /**
   A tick launches for a block exactly the rules of its production with a trigger for this second before its end, and
   only if no row since the activation mentions the block.
   */
  lemma DueIff(rows: seq<Row>, b: Block, rules: seq<PolledRule>, now: int, t: Ticket)
    requires b.startTime.Some?
    ensures DueInBlock(rows, b, rules, |rules|, now, t) <==>
            && t.block == b.id && t.activation == b.startTime.value && !Logged(rows, t)
            && exists j, k :: 0 <= j < |rules| && rules[j].rule == t.rule && Asks(rules[j], k, b, now)
  {
    hide Logged;
    if j :| 0 <= j < |rules| && rules[j].rule == t.rule && Due(rows, b, rules[j], |rules[j].triggers|, now) {
      var k :| 0 <= k < |rules[j].triggers| && Hits(rules[j].triggers[k], b, now);
      HitsMeans(rules[j].triggers[k], b, now);
      assert Asks(rules[j], k, b, now);
    }
    if j, k :| 0 <= j < |rules| && rules[j].rule == t.rule && Asks(rules[j], k, b, now) {
      HitsMeans(rules[j].triggers[k], b, now);
      assert HitsSome(rules[j].triggers, |rules[j].triggers|, b, now);
    }
  }

  lemma HitsMeans(t: TimeTrigger, b: Block, now: int)
    requires b.startTime.Some?
    ensures Hits(t, b, now) <==> t.eventType == "timeline.before_end" && InSecondBefore(b, t.secondsBefore, now)
  {
    RemainingCountsSeconds(b.durationMs, b.startTime.value, now);
  }

  /** With ticks at most a second apart a rule that is not logged is launched at one of them. */
  lemma SomeTickLaunches(ticks: seq<int>, rows: seq<Row>, b: Block, rules: seq<PolledRule>, j: nat, k: nat)
    requires b.startTime.Some? && j < |rules| && k < |rules[j].triggers| && rules[j].productionId == b.productionId
    requires rules[j].triggers[k].eventType == "timeline.before_end"
    requires GapsAtMost(ticks, 1000)
    requires Spans(ticks, b.durationMs, b.startTime.value, rules[j].triggers[k].secondsBefore)
    requires !Logged(rows, Ticket(rules[j].rule, b.id, b.startTime.value))
    ensures exists i :: 0 <= i < |ticks| &&
              DueInBlock(rows, b, rules, |rules|, ticks[i], Ticket(rules[j].rule, b.id, b.startTime.value))
  {
    hide Logged, DueInBlock;
    SomeTickHits(ticks, b.durationMs, b.startTime.value, rules[j].triggers[k].secondsBefore);
    var i :| 0 <= i < |ticks|
             && Remaining(b.durationMs, b.startTime.value, ticks[i]) == rules[j].triggers[k].secondsBefore;
    RemainingCountsSeconds(b.durationMs, b.startTime.value, ticks[i]);
    assert Asks(rules[j], k, b, ticks[i]);
    DueIff(rows, b, rules, ticks[i], Ticket(rules[j].rule, b.id, b.startTime.value));
  }

  class AutomationEngineService {
    var executingRules: set<RuleId>
    var rows: seq<Row>
    /** The actions handed to the executor, in order. */
    var invoked: seq<(RuleId, nat)>
    var nextRun: RunId
    /** The state of the machine of interleaved runs that this service is in. */
    ghost var machine: State

    ghost predicate Tied()
      reads this
    {
      machine.executing == executingRules && machine.rows == rows && machine.nextRun == nextRun
    }

    constructor ()
      ensures Tied() && machine == Initial && invoked == []
    {
      executingRules, rows, invoked, nextRun, machine := {}, [], [], 0, Initial;
    }

    /** The part of a tick for one block. */
    method CheckBlock(block: Block, allRules: seq<PolledRule>, now: int) returns (due: seq<Ticket>)
      ensures forall t :: t in due <==> DueInBlock(rows, block, allRules, |allRules|, now, t)
    {
      due := [];
      if block.startTime.None? {
        return;
      }
      var remainingSeconds := Remaining(block.durationMs, block.startTime.value, now);
      for j := 0 to |allRules|
        invariant forall t :: t in due <==> DueInBlock(rows, block, allRules, j, now, t)
      {
        var rule := allRules[j];
        var ticket := Ticket(rule.rule, block.id, block.startTime.value);
        ghost var before := due;
        if rule.productionId == block.productionId {
          for k := 0 to |rule.triggers|
            invariant forall t :: t in due <==> t in before || (t == ticket && Due(rows, block, rule, k, now))
          {
            var trigger := rule.triggers[k];
            if trigger.eventType == BEFORE_END {
              if remainingSeconds == trigger.secondsBefore {
                if !Logged(rows, ticket) {
                  due := due + [ticket];
                }
              }
            }
          }
        }
      }
    }

    /** `checkTimeTriggers` on the active blocks and enabled rules that the database returned: what it launches. */
    method CheckTimeTriggers(activeBlocks: seq<Block>, allRules: seq<PolledRule>, now: int) returns (due: seq<Ticket>)
      ensures forall t :: t in due <==>
                exists i :: 0 <= i < |activeBlocks| && DueInBlock(rows, activeBlocks[i], allRules, |allRules|, now, t)
    {
      due := [];
      for i := 0 to |activeBlocks|
        invariant forall t :: t in due <==>
                    exists h :: 0 <= h < i && DueInBlock(rows, activeBlocks[h], allRules, |allRules|, now, t)
      {
        var some := CheckBlock(activeBlocks[i], allRules, now);
        due := due + some;
      }
    }

    /**
     `executeActions`, run without interleaving; `succeeds` tells which actions succeed, `firstWrite` and
     `secondWrite` whether the writes of its log rows do. It is a run of the machine: skipped under the lock;
     otherwise the actions up to the first failure with delays, all of them without, one row, and the lock is free.
     */
    method ExecuteActions(rule: Rule, origin: Origin, succeeds: nat -> bool, errorMentions: set<BlockId>,
                          firstWrite: bool, secondWrite: bool, at: nat -> int)
      returns (count: nat, ghost events: seq<Timed>)
      requires Tied() && Ticking(at) && machine.now < at(0)
      requires origin.ByTimer? ==> Ticket(rule, origin.block, origin.activation) in machine.tickets
      modifies this
      ensures Tied() && Leads(old(machine), events, machine) && executingRules == old(executingRules)
      ensures rule.id in old(executingRules) ==> rows == old(rows) && invoked == old(invoked)
      ensures rule.id !in old(executingRules) ==>
                && IsCount(rule, succeeds, count)
                && invoked == old(invoked) + Calls(rule.id, count)
                && rows == old(rows) + FinalRows(old(nextRun), rule.id, AllSucceed(rule, succeeds), origin,
                                                 errorMentions, firstWrite, secondWrite,
                                                 at(2 * count + 1), at(2 * count + 2))
    {
      hide HasDelays, Leads, Doing, FinalRows, Step, Enabled, Ticking, AllSucceed, IsCount, Calls, LaunchEvent;
      ghost var m0 := machine;
      var r := nextRun;
      count := 0;
      LaunchEffect(m0, rule, origin, at(0));
      machine := Step(m0, LaunchEvent(rule, origin), at(0));
      events := [Timed(LaunchEvent(rule, origin), at(0))];
      if rule.id in executingRules {
        return;
      }
      executingRules, nextRun := executingRules + {rule.id}, nextRun + 1;
      ghost var m1 := machine;
      ghost var more;
      count, more := PerformActions(r, rule, origin, succeeds, errorMentions, firstWrite, secondWrite, at);
      LeadsOn(m0, events, m1, more, machine);
      events := events + more;
      executingRules := executingRules - {rule.id};
    }

    /** The `try` block of `executeActions` with its `catch`, and for the machine the release of the lock. */
    method PerformActions(r: RunId, rule: Rule, origin: Origin, succeeds: nat -> bool, errorMentions: set<BlockId>,
                          firstWrite: bool, secondWrite: bool, at: nat -> int)
      returns (count: nat, ghost events: seq<Timed>)
      requires Ticking(at) && machine.now == at(0) && Doing(machine, r, rule, origin, 0, map[]) && machine.rows == rows
      modifies this`invoked, this`machine, this`rows
      ensures Leads(old(machine), events, machine) && IsCount(rule, succeeds, count)
      ensures machine.executing == old(machine.executing) - {rule.id} && machine.nextRun == old(machine.nextRun)
      ensures machine.rows == rows && invoked == old(invoked) + Calls(rule.id, count)
      ensures rows == old(rows) + FinalRows(r, rule.id, AllSucceed(rule, succeeds), origin, errorMentions,
                                            firstWrite, secondWrite, at(2 * count + 1), at(2 * count + 2))
    {
      hide HasDelays, Leads, Doing, FinalRows, Step, Enabled, Decides, Ticking, AllSucceed, IsCount, Outcomes, Calls;
      ghost var m0 := machine;
      var failed;
      ghost var logs;
      failed, count, events := InvokeActions(rule, origin, succeeds, at, r);
      ghost var m1 := machine;
      var t1, t2 := at(2 * count + 1), at(2 * count + 2);
      ghost var t3 := at(2 * count + 3);
      NextTwo(at, 2 * count);
      NextTwo(at, 2 * count + 1);
      logs := WriteLogs(r, rule, origin, count, Outcomes(succeeds, count), !failed, errorMentions,
                        firstWrite, secondWrite, t1, t2);
      LeadsOn(m0, events, m1, logs, machine);
      ReleaseEffect(machine, r, rule, origin, t3);
      LeadsSnoc(m0, events + logs, machine, Release(r), t3);
      machine := Step(machine, Release(r), t3);
      events := events + logs + [Timed(Release(r), t3)];
    }

    /** The actions of a run, one after the other; with delays the first failure ends them. */
    method InvokeActions(rule: Rule, origin: Origin, succeeds: nat -> bool, at: nat -> int, ghost r: RunId)
      returns (failed: bool, count: nat, ghost events: seq<Timed>)
      requires Ticking(at) && machine.now == at(0) && Doing(machine, r, rule, origin, 0, map[])
      modifies this`invoked, this`machine
      ensures Leads(old(machine), events, machine) && machine.now == at(2 * count)
      ensures Doing(machine, r, rule, origin, count, Outcomes(succeeds, count))
      ensures machine.executing == old(machine.executing) && machine.rows == old(machine.rows)
              && machine.nextRun == old(machine.nextRun)
      ensures IsCount(rule, succeeds, count) && Decides(rule, count, Outcomes(succeeds, count), !failed)
      ensures failed <==> !AllSucceed(rule, succeeds)
      ensures invoked == old(invoked) + Calls(rule.id, count)
    {
      hide HasDelays, Leads, Doing, Decides, Ticking, AllSucceed, ActEvents, Outcomes;
      ghost var m0 := machine;
      var stopAtFailure, i := HasDelays(rule), 0;
      failed, events := false, [];
      LeadsNowhere(m0);
      NoOutcome(succeeds);
      while i < |rule.actions| && !(stopAtFailure && failed)
        invariant 0 <= i <= |rule.actions| && machine.now == at(2 * i)
        invariant failed <==> exists k: nat :: k < i && !succeeds(k)
        invariant stopAtFailure ==> forall k: nat :: k + 1 < i ==> succeeds(k)
        invariant invoked == old(invoked) + Calls(rule.id, i)
        invariant Leads(m0, events, machine) && Doing(machine, r, rule, origin, i, Outcomes(succeeds, i))
        invariant machine.executing == m0.executing && machine.rows == m0.rows && machine.nextRun == m0.nextRun
        decreases |rule.actions| - i
      {
        events := InvokeAction(rule, origin, succeeds, i, at, r, m0, events);
        if !succeeds(i) {
          failed := true;
        }
        i := i + 1;
      }
      count := i;
      OutcomesDecide(rule, succeeds, count, failed);
    }

    /** One action: invoked, and ended before the next one. */
    method InvokeAction(rule: Rule, origin: Origin, succeeds: nat -> bool, i: nat, ghost at: nat -> int, ghost r: RunId,
                        ghost m0: State, ghost before: seq<Timed>)
      returns (ghost events: seq<Timed>)
      requires Ticking(at) && machine.now == at(2 * i) && i < |rule.actions|
      requires Doing(machine, r, rule, origin, i, Outcomes(succeeds, i)) && Leads(m0, before, machine)
      requires HasDelays(rule) ==> forall k: nat :: k < i ==> succeeds(k)
      modifies this`invoked, this`machine
      ensures Leads(m0, events, machine) && Doing(machine, r, rule, origin, i + 1, Outcomes(succeeds, i + 1))
      ensures machine.executing == old(machine.executing) && machine.rows == old(machine.rows)
      ensures machine.nextRun == old(machine.nextRun) && machine.now == at(2 * i + 2)
      ensures invoked == old(invoked) + [(rule.id, i)]
    {
      hide HasDelays, Leads, Ticking, Outcomes, ActEvents;
      invoked := invoked + [(rule.id, i)];
      NextTwo(at, 2 * i);
      OutcomesKnown(succeeds, i);
      OneMoreOutcome(succeeds, i);
      ghost var ok, t1, t2 := succeeds(i), at(2 * i + 1), at(2 * i + 2);
      ghost var m := ActLeads(machine, r, rule, origin, i, Outcomes(succeeds, i), ok, t1, t2);
      events := before + ActEvents(rule, r, i, ok, t1, t2);
      LeadsOn(m0, before, machine, ActEvents(rule, r, i, ok, t1, t2), m);
      machine := m;
    }

    /** The log rows at the end of a run: an ERROR row is also the answer to a SUCCESS row that cannot be written. */
    method WriteLogs(r: RunId, rule: Rule, origin: Origin, ghost k: nat, ghost ended: map<nat, bool>, ok: bool,
                     mentions: set<BlockId>, firstWrite: bool, secondWrite: bool, t1: int, t2: int)
      returns (ghost events: seq<Timed>)
      requires machine.rows == rows && machine.now < t1 < t2
      requires Doing(machine, r, rule, origin, k, ended) && Decides(rule, k, ended, ok)
      modifies this`rows, this`machine
      ensures Leads(old(machine), events, machine) && machine.now <= t2 && Logging(machine, r, rule, origin, Closing)
      ensures machine.executing == old(machine.executing) && machine.nextRun == old(machine.nextRun)
      ensures machine.rows == rows
      ensures rows == old(rows) + FinalRows(r, rule.id, ok, origin, mentions, firstWrite, secondWrite, t1, t2)
    {
      hide Leads, Doing, Decides, Step, Enabled;
      ghost var m0 := machine;
      WriteEffect(m0, r, rule, origin, k, ended, ok, firstWrite, mentions, t1);
      LeadsOne(m0, WriteLog(r, firstWrite, mentions), t1);
      machine := Step(m0, WriteLog(r, firstWrite, mentions), t1);
      events := [Timed(WriteLog(r, firstWrite, mentions), t1)];
      var written := LogExecution(r, rule.id, ok, if ok then SuccessMentions(origin) else mentions, t1, firstWrite);
      if ok && !written {
        RetryEffect(machine, r, rule, origin, secondWrite, mentions, t2);
        LeadsSnoc(m0, events, machine, WriteLog(r, secondWrite, mentions), t2);
        machine := Step(machine, WriteLog(r, secondWrite, mentions), t2);
        events := events + [Timed(WriteLog(r, secondWrite, mentions), t2)];
        var _ := LogExecution(r, rule.id, false, mentions, t2, secondWrite);
      }
    }

    method LogExecution(r: RunId, ruleId: RuleId, ok: bool, mentions: set<BlockId>, now: int, accepted: bool)
      returns (written: bool)
      modifies this`rows
      ensures rows == old(rows) + (if accepted then [Row(r, ruleId, ok, mentions, now)] else []) && written == accepted
    {
      if accepted {
        rows := rows + [Row(r, ruleId, ok, mentions, now)];
      }
      written := accepted;
    }
  }
}

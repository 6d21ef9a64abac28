/**
 AutomationEngineService as interleaved runs: each method is cut at its awaits, and any other step may come between
 two segments. The database, the clock and the outcomes of actions and log writes are inputs of the steps.
 */
module AutomationEngine {
  import opened Wrappers

  type RuleId = string
  type BlockId = string
  type RunId = nat

  datatype Action = Action(id: string, delayMs: int)

  datatype Rule = Rule(id: RuleId, actions: seq<Action>)

  /** Launched by the poller for one activation of a block (its start time), or by an event with a payload id. */
  datatype Origin = ByTimer(block: BlockId, activation: int) | ByEvent(contextId: Option<BlockId>)

  /** Acting: actions are running. Retrying: the SUCCESS row could not be written. Closing: before the lock is freed. */
  datatype Phase = Acting | Retrying | Closing | Released

  datatype Run = Run(rule: Rule, origin: Origin, started: nat, ended: map<nat, bool>, phase: Phase, logFaults: nat)

  /** `mentions` are the blocks b for which the details contain "Block: b". */
  datatype Row = Row(run: RunId, ruleId: RuleId, ok: bool, mentions: set<BlockId>, createdAt: int)

  datatype ActionEvent = Started(run: RunId, index: nat) | Ended(run: RunId, index: nat, ok: bool)

  /** The poller found no row for this trigger and is about to launch the rule. */
  datatype Ticket = Ticket(rule: Rule, block: BlockId, activation: int)

  datatype State = State(
    executing: set<RuleId>,
    runs: map<RunId, Run>,
    nextRun: RunId,
    rows: seq<Row>,
    trace: seq<ActionEvent>,
    tickets: set<Ticket>,
    now: int)

  datatype Event =
    | Lookup(ticket: Ticket)
    | LaunchTicket(ticket: Ticket)
    | Launch(rule: Rule, contextId: Option<BlockId>)
    | StartNext(run: RunId)
    | End(run: RunId, index: nat, ok: bool)
    | WriteLog(run: RunId, written: bool, mentions: set<BlockId>)
    | Release(run: RunId)

  predicate HasDelays(rule: Rule) {
    exists i :: 0 <= i < |rule.actions| && rule.actions[i].delayMs > 0
  }

  predicate AllOk(run: Run) {
    forall i: nat :: i < |run.rule.actions| ==> i in run.ended && run.ended[i]
  }

  predicate SomeFailed(run: Run) {
    exists i :: i in run.ended && !run.ended[i]
  }

  /** The poller's query: a row of the rule that mentions the block, created after the activation. */
  predicate Logged(rows: seq<Row>, t: Ticket) {
    exists i :: 0 <= i < |rows| && rows[i].ruleId == t.rule.id
                && t.block in rows[i].mentions && rows[i].createdAt > t.activation
  }

  // ---------------------------------------------------------------- the steps

  function StartAll(run: RunId, n: nat): seq<ActionEvent> {
    seq(n, i requires 0 <= i < n => Started(run, i))
  }

  /** The start of `executeActions`: take the rule's lock, or skip. Without delays every action starts at once. */
  function Begin(s: State, rule: Rule, origin: Origin): State {
    if rule.id in s.executing then s
    else
      var n := if HasDelays(rule) then 0 else |rule.actions|;
      s.(executing := s.executing + {rule.id},
         runs := s.runs[s.nextRun := Run(rule, origin, n, map[], Acting, 0)],
         nextRun := s.nextRun + 1,
         trace := s.trace + StartAll(s.nextRun, n))
  }

  /** A launched run has started all its actions if none of them waits, and none otherwise; a locked rule is skipped. */
  lemma LaunchStarts(s: State, rule: Rule, origin: Origin)
    ensures var s' := Begin(s, rule, origin);
            if rule.id in s.executing then s' == s
            else
              && s.nextRun in s'.runs && s'.runs[s.nextRun].rule == rule && s'.runs[s.nextRun].origin == origin
              && s'.runs[s.nextRun].ended == map[] && s'.runs[s.nextRun].phase == Acting
              && (if forall i :: 0 <= i < |rule.actions| ==> rule.actions[i].delayMs <= 0
                  then s'.runs[s.nextRun].started == |rule.actions| && |s'.trace| == |s.trace| + |rule.actions|
                       && forall i: nat :: i < |rule.actions| ==> s'.trace[|s.trace| + i] == Started(s.nextRun, i)
                  else s'.runs[s.nextRun].started == 0 && s'.trace == s.trace)
  {
  }

  /** What a successful run writes into the details of its row. */
  function SuccessMentions(origin: Origin): set<BlockId> {
    match origin
    case ByTimer(b, _) => {b}
    case ByEvent(Some(id)) => {id}
    case ByEvent(None) => {}
  }

  predicate Succeeding(run: Run) {
    run.phase == Acting && AllOk(run)
  }

  function WriteStep(s: State, r: RunId, written: bool, mentions: set<BlockId>): State
    requires r in s.runs
  {
    var run := s.runs[r];
    if !written then
      var phase := if Succeeding(run) then Retrying else Closing;
      s.(runs := s.runs[r := run.(phase := phase, logFaults := run.logFaults + 1)])
    else
      var about := if Succeeding(run) then SuccessMentions(run.origin) else mentions;
      var row := Row(r, run.rule.id, Succeeding(run), about, s.now);
      s.(runs := s.runs[r := run.(phase := Closing)], rows := s.rows + [row])
  }

  predicate Enabled(s: State, e: Event) {
    match e
    case Lookup(t) => t.activation <= s.now && !Logged(s.rows, t)
    case LaunchTicket(t) => t in s.tickets
    case Launch(_, _) => true
    case StartNext(r) =>
      && r in s.runs && HasDelays(s.runs[r].rule) && s.runs[r].phase == Acting
      && s.runs[r].started < |s.runs[r].rule.actions|
      && forall i: nat :: i < s.runs[r].started ==> i in s.runs[r].ended && s.runs[r].ended[i]
    case End(r, i, _) => r in s.runs && i < s.runs[r].started && i !in s.runs[r].ended
    case WriteLog(r, _, _) =>
      && r in s.runs
      && (s.runs[r].phase == Retrying || (s.runs[r].phase == Acting && (AllOk(s.runs[r]) || SomeFailed(s.runs[r]))))
    case Release(r) => r in s.runs && s.runs[r].phase == Closing
  }

  /** One step; the clock has advanced to `at`, strictly. */
  function Step(s0: State, e: Event, at: int): State
    requires Enabled(s0.(now := at), e)
  {
    var s := s0.(now := at);
    match e
    case Lookup(t) => s.(tickets := s.tickets + {t})
    case LaunchTicket(t) => Begin(s.(tickets := s.tickets - {t}), t.rule, ByTimer(t.block, t.activation))
    case Launch(rule, id) => Begin(s, rule, ByEvent(id))
    case StartNext(r) =>
      s.(runs := s.runs[r := s.runs[r].(started := s.runs[r].started + 1)],
         trace := s.trace + [Started(r, s.runs[r].started)])
    case End(r, i, ok) =>
      s.(runs := s.runs[r := s.runs[r].(ended := s.runs[r].ended[i := ok])], trace := s.trace + [Ended(r, i, ok)])
    case WriteLog(r, written, mentions) => WriteStep(s, r, written, mentions)
    case Release(r) =>
      s.(runs := s.runs[r := s.runs[r].(phase := Released)], executing := s.executing - {s.runs[r].rule.id})
  }

  /** A row answers a lookup exactly if it is of the rule, mentions the block and came after the activation. */
  lemma LoggedByRow(rows: seq<Row>, row: Row, t: Ticket)
    ensures !Logged([], t)
    ensures Logged(rows + [row], t) <==>
            Logged(rows, t) || (row.ruleId == t.rule.id && t.block in row.mentions && row.createdAt > t.activation)
  {
    var more := rows + [row];
    assert forall i :: 0 <= i < |rows| ==> more[i] == rows[i];
    assert more[|rows|] == row;
  }

  /** A lookup is good for one launch: it leaves a ticket, which the launch uses up. */
  lemma TicketIsUsedOnce(s: State, e: Event, at: int, t: Ticket)
    requires Enabled(s.(now := at), e)
    ensures t in Step(s, e, at).tickets <==> (t in s.tickets && e != LaunchTicket(t)) || e == Lookup(t)
    ensures Step(s, e, at).now == at
    ensures e == Lookup(t) ==> !Logged(s.rows, t)
  {
  }

  /**
   A run that is logged first says SUCCESS if all its actions succeeded, and mentions the block it was launched for;
   otherwise it says ERROR, and some action has failed.
   */
  lemma LogTellsOutcome(s: State, r: RunId, mentions: set<BlockId>, at: int)
    requires Enabled(s, WriteLog(r, true, mentions)) && s.runs[r].phase == Acting
    ensures var (run, rows) := (s.runs[r], Step(s, WriteLog(r, true, mentions), at).rows);
            && |rows| == |s.rows| + 1 && rows[..|s.rows|] == s.rows
            && var row := rows[|s.rows|];
               && row.run == r && row.ruleId == run.rule.id && row.createdAt == at
               && (row.ok <==> forall i: nat :: i < |run.rule.actions| ==> i in run.ended && run.ended[i])
               && (row.ok && run.origin.ByTimer? ==> row.mentions == {run.origin.block})
               && (!row.ok ==> row.mentions == mentions && exists i :: i in run.ended && !run.ended[i])
  {
  }

  const Initial := State({}, map[], 0, [], [], {}, 0)

  // ---------------------------------------------------------------- the lock

  predicate Live(runs: map<RunId, Run>, r: RunId) {
    r in runs && runs[r].phase != Released
  }

  /** The lock set is exactly the rules of the runs in flight, and no rule has two of them. */
  ghost predicate LockInv(executing: set<RuleId>, runs: map<RunId, Run>, next: RunId) {
    && (forall r :: r in runs ==> r < next)
    && (forall r :: Live(runs, r) ==> runs[r].rule.id in executing)
    && (forall id :: id in executing ==> exists r :: Live(runs, r) && runs[r].rule.id == id)
    && (forall q, r :: Live(runs, q) && Live(runs, r) && runs[q].rule.id == runs[r].rule.id ==> q == r)
  }

  lemma LockSurvivesUpdate(executing: set<RuleId>, runs: map<RunId, Run>, next: RunId, r: RunId, run: Run)
    requires LockInv(executing, runs, next) && Live(runs, r) == (run.phase != Released) && r in runs
    requires run.rule == runs[r].rule
    ensures LockInv(executing, runs[r := run], next)
  {
    var runs' := runs[r := run];
    forall id | id in executing ensures exists q :: Live(runs', q) && runs'[q].rule.id == id {
      var q :| Live(runs, q) && runs[q].rule.id == id;
      assert Live(runs', q);
    }
  }

  lemma BeginKeepsLock(s: State, rule: Rule, origin: Origin)
    requires LockInv(s.executing, s.runs, s.nextRun)
    ensures var s' := Begin(s, rule, origin); LockInv(s'.executing, s'.runs, s'.nextRun)
  {
    var s' := Begin(s, rule, origin);
    if rule.id !in s.executing {
      assert Live(s'.runs, s.nextRun);
      forall id | id in s'.executing ensures exists q :: Live(s'.runs, q) && s'.runs[q].rule.id == id {
        if id != rule.id {
          var q :| Live(s.runs, q) && s.runs[q].rule.id == id;
          assert Live(s'.runs, q);
        }
      }
    }
  }

  lemma ReleaseKeepsLock(s: State, r: RunId)
    requires LockInv(s.executing, s.runs, s.nextRun) && Live(s.runs, r)
    ensures LockInv(s.executing - {s.runs[r].rule.id}, s.runs[r := s.runs[r].(phase := Released)], s.nextRun)
  {
    var executing', runs' := s.executing - {s.runs[r].rule.id}, s.runs[r := s.runs[r].(phase := Released)];
    forall id | id in executing' ensures exists q :: Live(runs', q) && runs'[q].rule.id == id {
      var q :| Live(s.runs, q) && s.runs[q].rule.id == id;
      assert Live(runs', q);
    }
  }

  lemma StepKeepsLock(s: State, e: Event, at: int)
    requires LockInv(s.executing, s.runs, s.nextRun) && Enabled(s.(now := at), e)
    ensures var s' := Step(s, e, at); LockInv(s'.executing, s'.runs, s'.nextRun)
  {
    var s' := Step(s, e, at);
    match e
    case Lookup(_) =>
    case LaunchTicket(t) =>
      BeginKeepsLock(s.(now := at, tickets := s.tickets - {t}), t.rule, ByTimer(t.block, t.activation));
    case Launch(rule, id) => BeginKeepsLock(s.(now := at), rule, ByEvent(id));
    case Release(r) => ReleaseKeepsLock(s.(now := at), r);
    case StartNext(r) => LockSurvivesUpdate(s.executing, s.runs, s.nextRun, r, s'.runs[r]);
    case End(r, _, _) => LockSurvivesUpdate(s.executing, s.runs, s.nextRun, r, s'.runs[r]);
    case WriteLog(r, _, _) => LockSurvivesUpdate(s.executing, s.runs, s.nextRun, r, s'.runs[r]);
  }

  // ---------------------------------------------------------------- one row for each run

  predicate IsLogged(run: Run) {
    run.phase == Closing || run.phase == Released
  }

  ghost predicate RowsInv(rows: seq<Row>, runs: map<RunId, Run>, now: int) {
    && (forall r :: r in runs && runs[r].origin.ByTimer? ==> runs[r].origin.activation <= now)
    && (forall r :: r in runs && runs[r].phase == Retrying ==> runs[r].logFaults > 0)
    && (forall i :: 0 <= i < |rows| ==> RowFits(rows[i], runs, now))
    && (forall i, j :: 0 <= i < j < |rows| ==> rows[i].run != rows[j].run)
    && (forall r :: r in runs && IsLogged(runs[r]) && runs[r].logFaults == 0 ==>
          exists i :: 0 <= i < |rows| && rows[i].run == r)
  }

  /** A row belongs to a run that has finished acting; it says SUCCESS when all actions did succeed. */
  ghost predicate RowFits(row: Row, runs: map<RunId, Run>, now: int) {
    && row.run in runs && row.ruleId == runs[row.run].rule.id && row.createdAt <= now && IsLogged(runs[row.run])
    && (if row.ok then AllOk(runs[row.run]) else SomeFailed(runs[row.run]) || runs[row.run].logFaults > 0)
    && (row.ok && runs[row.run].origin.ByTimer? ==>
          runs[row.run].origin.block in row.mentions && row.createdAt > runs[row.run].origin.activation)
  }

  /** Runs only move forward: more endings, later phases. */
  ghost predicate Advances(a: Run, b: Run) {
    && a.rule == b.rule && a.origin == b.origin && a.logFaults <= b.logFaults
    && (forall i :: i in a.ended ==> i in b.ended && a.ended[i] == b.ended[i])
    && (IsLogged(a) ==> IsLogged(b))
  }

  lemma RowsSurvive(rows: seq<Row>, runs: map<RunId, Run>, now: int, r: RunId, run: Run, at: int)
    requires RowsInv(rows, runs, now) && r in runs && Advances(runs[r], run) && now <= at
    requires IsLogged(run) == IsLogged(runs[r]) && run.logFaults == runs[r].logFaults
    requires run.phase == Retrying ==> runs[r].phase == Retrying
    ensures RowsInv(rows, runs[r := run], at)
  {
  }

  lemma RowsSurviveLaunch(rows: seq<Row>, runs: map<RunId, Run>, now: int, r: RunId, run: Run)
    requires RowsInv(rows, runs, now) && r !in runs && run.phase == Acting
    requires run.origin.ByTimer? ==> run.origin.activation <= now
    ensures RowsInv(rows, runs[r := run], now)
  {
    hide AllOk, SomeFailed;
    forall i | 0 <= i < |rows| ensures RowFits(rows[i], runs[r := run], now) {
      assert RowFits(rows[i], runs, now);
    }
  }

  lemma BeginKeepsRows(s: State, rule: Rule, origin: Origin)
    requires RowsInv(s.rows, s.runs, s.now) && LockInv(s.executing, s.runs, s.nextRun)
    requires origin.ByTimer? ==> origin.activation <= s.now
    ensures var s' := Begin(s, rule, origin); RowsInv(s'.rows, s'.runs, s'.now)
  {
    hide RowsInv, HasDelays, StartAll;
    var s' := Begin(s, rule, origin);
    if rule.id !in s.executing {
      RowsSurviveLaunch(s.rows, s.runs, s.now, s.nextRun, s'.runs[s.nextRun]);
    }
  }

  lemma WriteKeepsRows(s: State, r: RunId, written: bool, mentions: set<BlockId>, at: int)
    requires RowsInv(s.rows, s.runs, s.now) && s.now < at && Enabled(s.(now := at), WriteLog(r, written, mentions))
    ensures var s' := WriteStep(s.(now := at), r, written, mentions); RowsInv(s'.rows, s'.runs, s'.now)
  {
    var s' := WriteStep(s.(now := at), r, written, mentions);
    forall i | 0 <= i < |s.rows| ensures RowFits(s.rows[i], s'.runs, at) && s.rows[i].run != r {
      assert RowFits(s.rows[i], s.runs, s.now);
    }
    if written {
      assert s'.rows[|s.rows|].run == r;
      forall q | q in s'.runs && IsLogged(s'.runs[q]) && s'.runs[q].logFaults == 0
        ensures exists i :: 0 <= i < |s'.rows| && s'.rows[i].run == q
      {
        if q != r {
          var i :| 0 <= i < |s.rows| && s.rows[i].run == q;
          assert s'.rows[i].run == q;
        }
      }
    }
  }

  ghost predicate TicketsInv(tickets: set<Ticket>, now: int) {
    forall t :: t in tickets ==> t.activation <= now
  }

  lemma StepKeepsRows(s: State, e: Event, at: int)
    requires LockInv(s.executing, s.runs, s.nextRun) && RowsInv(s.rows, s.runs, s.now) && TicketsInv(s.tickets, s.now)
    requires s.now < at && Enabled(s.(now := at), e)
    ensures var s' := Step(s, e, at); RowsInv(s'.rows, s'.runs, s'.now) && TicketsInv(s'.tickets, s'.now)
  {
    var s' := Step(s, e, at);
    assert RowsInv(s.rows, s.runs, at) by {
      forall i | 0 <= i < |s.rows| ensures RowFits(s.rows[i], s.runs, at) {
        assert RowFits(s.rows[i], s.runs, s.now);
      }
    }
    match e
    case Lookup(_) =>
    case LaunchTicket(t) =>
      BeginKeepsRows(s.(now := at, tickets := s.tickets - {t}), t.rule, ByTimer(t.block, t.activation));
    case Launch(rule, id) => BeginKeepsRows(s.(now := at), rule, ByEvent(id));
    case Release(r) => RowsSurvive(s.rows, s.runs, s.now, r, s'.runs[r], at);
    case StartNext(r) => RowsSurvive(s.rows, s.runs, s.now, r, s'.runs[r], at);
    case End(r, _, _) => RowsSurvive(s.rows, s.runs, s.now, r, s'.runs[r], at);
    case WriteLog(r, written, mentions) => WriteKeepsRows(s, r, written, mentions, at);
  }

  // ---------------------------------------------------------------- at most one success for each activation

  predicate SameTrigger(a: Run, b: Run) {
    a.origin.ByTimer? && a.origin == b.origin && a.rule.id == b.rule.id
  }

  predicate Succeeded(rows: seq<Row>, runs: map<RunId, Run>, i: int) {
    0 <= i < |rows| && rows[i].ok && rows[i].run in runs
  }

  /** No two SUCCESS rows for one rule and one activation of a block. */
  ghost predicate OncePerActivation(rows: seq<Row>, runs: map<RunId, Run>) {
    forall i, j :: i < j && Succeeded(rows, runs, i) && Succeeded(rows, runs, j) ==>
      !SameTrigger(runs[rows[i].run], runs[rows[j].run])
  }

  /** A run that has not written its row yet has no predecessor that succeeded for the same activation. */
  ghost predicate NoPredecessor(rows: seq<Row>, runs: map<RunId, Run>) {
    forall i, r :: Succeeded(rows, runs, i) && r in runs && !IsLogged(runs[r]) ==>
      !SameTrigger(runs[rows[i].run], runs[r])
  }

  ghost predicate Inv(s: State) {
    && LockInv(s.executing, s.runs, s.nextRun)
    && RowsInv(s.rows, s.runs, s.now)
    && TicketsInv(s.tickets, s.now)
  }

  /** A run launched for this trigger and this activation has succeeded. */
  predicate AlreadySucceeded(rows: seq<Row>, runs: map<RunId, Run>, t: Ticket) {
    exists i | 0 <= i < |rows| :: Succeeded(rows, runs, i) && LaunchedFor(runs[rows[i].run], t)
  }

  predicate LaunchedFor(run: Run, t: Ticket) {
    run.rule.id == t.rule.id && run.origin == ByTimer(t.block, t.activation)
  }

  /** A launch that takes the lock although an earlier run has done the same work. */
  predicate Duplicates(s: State, e: Event) {
    e.LaunchTicket? && e.ticket.rule.id !in s.executing && AlreadySucceeded(s.rows, s.runs, e.ticket)
  }

  ghost predicate Safe(rows: seq<Row>, runs: map<RunId, Run>) {
    OncePerActivation(rows, runs) && NoPredecessor(rows, runs)
  }

  /** The lookup that a launch relies on still holds when the rule is launched. */
  predicate Fresh(s: State, e: Event) {
    e.LaunchTicket? ==> !Logged(s.rows, e.ticket)
  }

  lemma SuccessIsLogged(s: State, t: Ticket)
    requires Inv(s) && AlreadySucceeded(s.rows, s.runs, t)
    ensures Logged(s.rows, t)
  {
    var i :| 0 <= i < |s.rows| && Succeeded(s.rows, s.runs, i) && LaunchedFor(s.runs[s.rows[i].run], t);
    assert RowFits(s.rows[i], s.runs, s.now);
  }

  /** A lookup that still holds rules out a duplicate; one that does not may be harmless all the same. */
  lemma FreshIsNoDuplicate(s: State, e: Event)
    requires Inv(s) && Fresh(s, e)
    ensures !Duplicates(s, e)
  {
    if e.LaunchTicket? && AlreadySucceeded(s.rows, s.runs, e.ticket) {
      SuccessIsLogged(s, e.ticket);
    }
  }

  lemma BeginKeepsOnce(s: State, rule: Rule, origin: Origin)
    requires Inv(s) && Safe(s.rows, s.runs)
    requires origin.ByTimer? ==> !Duplicates(s, LaunchTicket(Ticket(rule, origin.block, origin.activation)))
    ensures var s' := Begin(s, rule, origin); Safe(s'.rows, s'.runs)
  {
    hide HasDelays, StartAll;
    var s' := Begin(s, rule, origin);
    if rule.id !in s.executing {
      forall i ensures Succeeded(s'.rows, s'.runs, i) <==> Succeeded(s.rows, s.runs, i)
        ensures Succeeded(s.rows, s.runs, i) ==> s'.runs[s.rows[i].run] == s.runs[s.rows[i].run]
      {
        OldRow(s, i);
      }
      if origin.ByTimer? {
        var t := Ticket(rule, origin.block, origin.activation);
        assert forall i :: Succeeded(s.rows, s.runs, i) ==> !LaunchedFor(s.runs[s.rows[i].run], t);
      }
    }
  }

  lemma OldRow(s: State, i: int)
    requires Inv(s)
    ensures 0 <= i < |s.rows| ==> s.rows[i].run in s.runs && s.rows[i].run != s.nextRun
  {
    if 0 <= i < |s.rows| {
      assert RowFits(s.rows[i], s.runs, s.now);
    }
  }

  /** Exactly the launches after which a second success for one activation is under way. */
  lemma LaunchStaysSafeIff(s: State, t: Ticket)
    requires Inv(s) && Safe(s.rows, s.runs)
    ensures var s' := Begin(s, t.rule, ByTimer(t.block, t.activation));
            Safe(s'.rows, s'.runs) <==> !Duplicates(s, LaunchTicket(t))
  {
    var s' := Begin(s, t.rule, ByTimer(t.block, t.activation));
    if Duplicates(s, LaunchTicket(t)) {
      var i :| 0 <= i < |s.rows| && Succeeded(s.rows, s.runs, i) && LaunchedFor(s.runs[s.rows[i].run], t);
      OldRow(s, i);
      assert Succeeded(s'.rows, s'.runs, i) && SameTrigger(s'.runs[s'.rows[i].run], s'.runs[s.nextRun]);
    } else {
      BeginKeepsOnce(s, t.rule, ByTimer(t.block, t.activation));
    }
  }

  lemma UpdateKeepsOnce(rows: seq<Row>, runs: map<RunId, Run>, r: RunId, run: Run)
    requires Safe(rows, runs)
    requires r in runs && run.rule == runs[r].rule && run.origin == runs[r].origin
    requires IsLogged(runs[r]) ==> IsLogged(run)
    ensures Safe(rows, runs[r := run])
  {
  }

  lemma WriteKeepsOnce(s: State, r: RunId, mentions: set<BlockId>)
    requires Inv(s) && Safe(s.rows, s.runs)
    requires Enabled(s, WriteLog(r, true, mentions))
    ensures var s' := WriteStep(s, r, true, mentions); Safe(s'.rows, s'.runs)
  {
    var s', n := WriteStep(s, r, true, mentions), |s.rows|;
    UpdateKeepsOnce(s.rows, s.runs, r, s'.runs[r]);
    assert forall i :: i < n ==> (Succeeded(s'.rows, s'.runs, i) <==> Succeeded(s.rows, s.runs, i));
    forall i, j | i < j && Succeeded(s'.rows, s'.runs, i) && Succeeded(s'.rows, s'.runs, j)
      ensures !SameTrigger(s'.runs[s'.rows[i].run], s'.runs[s'.rows[j].run])
    {
      assert Succeeded(s.rows, s.runs, i);
      if j < n {
        assert Succeeded(s.rows, s'.runs, i) && Succeeded(s.rows, s'.runs, j);
      }
    }
    forall i, q | Succeeded(s'.rows, s'.runs, i) && q in s'.runs && !IsLogged(s'.runs[q])
      ensures !SameTrigger(s'.runs[s'.rows[i].run], s'.runs[q])
    {
      if i < n {
        assert Succeeded(s.rows, s'.runs, i);
      } else {
        assert Live(s.runs, q) && Live(s.runs, r);
      }
    }
  }

  /** Exactly the steps after which a second success for one activation is under way or on record. */
  lemma StepStaysSafeIff(s: State, e: Event, at: int)
    requires Inv(s) && Safe(s.rows, s.runs)
    requires s.now < at && Enabled(s.(now := at), e)
    ensures var s' := Step(s, e, at); Safe(s'.rows, s'.runs) <==> !Duplicates(s, e)
  {
    var s' := Step(s, e, at);
    LaterKeepsInv(s, at);
    hide Inv, Begin, OncePerActivation, NoPredecessor;
    match e
    case Lookup(_) =>
    case LaunchTicket(t) =>
      FewerTickets(s.(now := at), t);
      LaunchStaysSafeIff(s.(now := at, tickets := s.tickets - {t}), t);
    case Launch(rule, id) => BeginKeepsOnce(s.(now := at), rule, ByEvent(id));
    case Release(r) => UpdateKeepsOnce(s.rows, s.runs, r, s'.runs[r]);
    case StartNext(r) => UpdateKeepsOnce(s.rows, s.runs, r, s'.runs[r]);
    case End(r, i, ok) => UpdateKeepsOnce(s.rows, s.runs, r, s'.runs[r]);
    case WriteLog(r, written, mentions) =>
      if written {
        WriteKeepsOnce(s.(now := at), r, mentions);
      } else {
        UpdateKeepsOnce(s.rows, s.runs, r, s'.runs[r]);
      }
  }

  lemma LaterKeepsInv(s: State, at: int)
    requires Inv(s) && s.now <= at
    ensures Inv(s.(now := at))
  {
    forall i | 0 <= i < |s.rows| ensures RowFits(s.rows[i], s.runs, at) {
      assert RowFits(s.rows[i], s.runs, s.now);
    }
  }

  lemma FewerTickets(s: State, t: Ticket)
    requires Inv(s)
    ensures Inv(s.(tickets := s.tickets - {t}))
  {
  }

  // ---------------------------------------------------------------- the order of actions

  /** The part of the trace that belongs to one run. */
  function Project(trace: seq<ActionEvent>, r: RunId): seq<ActionEvent> {
    if trace == [] then []
    else
      var last := trace[|trace| - 1];
      Project(trace[..|trace| - 1], r) + if last.run == r then [last] else []
  }

  /** The first n actions one after the other, each ended before the next one starts. */
  function OneByOne(r: RunId, n: nat, ended: map<nat, bool>): seq<ActionEvent>
    requires forall i: nat :: i < n ==> i in ended
  {
    if n == 0 then [] else OneByOne(r, n - 1, ended) + [Started(r, n - 1), Ended(r, n - 1, ended[n - 1])]
  }

  /**
   A run of a rule with delays: its trace is a prefix of the ordered list, no two actions overlap, and nothing was
   started after a failure. `closed` actions have ended; at most one more is open.
   */
  ghost predicate InOrder(r: RunId, run: Run, mine: seq<ActionEvent>, closed: nat) {
    && run.started <= |run.rule.actions| && closed <= run.started <= closed + 1
    && (forall i: nat :: i in run.ended <==> i < closed)
    && (forall i: nat :: i + 1 < run.started ==> run.ended[i])
    && mine == OneByOne(r, closed, run.ended) + if run.started == closed then [] else [Started(r, closed)]
  }

  ghost predicate OrderInv(runs: map<RunId, Run>, next: RunId, trace: seq<ActionEvent>) {
    && (forall r :: r in runs ==> r < next)
    && (forall r :: r in runs && HasDelays(runs[r].rule) ==>
         exists closed: nat :: InOrder(r, runs[r], Project(trace, r), closed))
    && (forall k :: 0 <= k < |trace| ==> trace[k].run < next)
  }

  lemma ProjectSnoc(trace: seq<ActionEvent>, e: ActionEvent, r: RunId)
    ensures Project(trace + [e], r) == if e.run == r then Project(trace, r) + [e] else Project(trace, r)
  {
  }

  lemma {:induction false} ProjectStartAll(trace: seq<ActionEvent>, q: RunId, n: nat, r: RunId)
    requires q != r
    ensures Project(trace + StartAll(q, n), r) == Project(trace, r)
  {
    hide Project;
    if n == 0 {
      assert trace + StartAll(q, 0) == trace;
    } else {
      ProjectStartAll(trace, q, n - 1, r);
      ProjectSnoc(trace + StartAll(q, n - 1), Started(q, n - 1), r);
      assert StartAll(q, n) == StartAll(q, n - 1) + [Started(q, n - 1)];
      assert trace + StartAll(q, n) == trace + StartAll(q, n - 1) + [Started(q, n - 1)];
    }
  }

  lemma {:induction false} ProjectFuture(trace: seq<ActionEvent>, r: RunId)
    requires forall k :: 0 <= k < |trace| ==> trace[k].run < r
    ensures Project(trace, r) == []
  {
    if trace != [] {
      ProjectFuture(trace[..|trace| - 1], r);
    }
  }

  lemma {:induction false} OneByOneDepends(r: RunId, n: nat, a: map<nat, bool>, b: map<nat, bool>)
    requires forall i: nat :: i < n ==> i in a && i in b && a[i] == b[i]
    ensures OneByOne(r, n, a) == OneByOne(r, n, b)
  {
    if n > 0 {
      OneByOneDepends(r, n - 1, a, b);
    }
  }

  lemma BeginKeepsOrder(s: State, rule: Rule, origin: Origin)
    requires OrderInv(s.runs, s.nextRun, s.trace)
    ensures var s' := Begin(s, rule, origin); OrderInv(s'.runs, s'.nextRun, s'.trace)
  {
    var s' := Begin(s, rule, origin);
    if rule.id !in s.executing {
      forall r | r in s'.runs && HasDelays(s'.runs[r].rule)
        ensures exists closed: nat :: InOrder(r, s'.runs[r], Project(s'.trace, r), closed)
      {
        if r == s.nextRun {
          assert s'.trace == s.trace;
          ProjectFuture(s.trace, r);
          assert InOrder(r, s'.runs[r], [], 0);
        } else {
          ProjectStartAll(s.trace, s.nextRun, |s'.trace| - |s.trace|, r);
          var closed: nat :| InOrder(r, s.runs[r], Project(s.trace, r), closed);
        }
      }
    }
  }

  /** A step of run r that appends one event of r: the other runs keep their order, and r's new order is given. */
  lemma AppendKeepsOrder(s: State, r: RunId, run: Run, e: ActionEvent)
    requires OrderInv(s.runs, s.nextRun, s.trace) && r in s.runs && e.run == r && run.rule == s.runs[r].rule
    requires HasDelays(run.rule) ==> exists closed: nat :: InOrder(r, run, Project(s.trace, r) + [e], closed)
    ensures OrderInv(s.runs[r := run], s.nextRun, s.trace + [e])
  {
    forall q | q in s.runs && HasDelays(s.runs[q].rule) && q != r
      ensures exists closed: nat :: InOrder(q, s.runs[q], Project(s.trace + [e], q), closed)
    {
      ProjectSnoc(s.trace, e, q);
    }
    ProjectSnoc(s.trace, e, r);
  }

  lemma StartKeepsOrder(s: State, r: RunId)
    requires OrderInv(s.runs, s.nextRun, s.trace) && Enabled(s, StartNext(r))
    ensures OrderInv(s.runs[r := s.runs[r].(started := s.runs[r].started + 1)], s.nextRun,
                     s.trace + [Started(r, s.runs[r].started)])
  {
    var run := s.runs[r];
    var closed: nat :| InOrder(r, run, Project(s.trace, r), closed);
    assert closed !in run.ended;
    assert InOrder(r, run.(started := run.started + 1), Project(s.trace, r) + [Started(r, run.started)], closed);
    AppendKeepsOrder(s, r, run.(started := run.started + 1), Started(r, run.started));
  }

  lemma EndKeepsOrder(s: State, r: RunId, i: nat, ok: bool)
    requires OrderInv(s.runs, s.nextRun, s.trace) && Enabled(s, End(r, i, ok))
    ensures OrderInv(s.runs[r := s.runs[r].(ended := s.runs[r].ended[i := ok])], s.nextRun, s.trace + [Ended(r, i, ok)])
  {
    var run := s.runs[r];
    var run' := run.(ended := run.ended[i := ok]);
    if HasDelays(run.rule) {
      var closed: nat :| InOrder(r, run, Project(s.trace, r), closed);
      assert i == closed;
      OneByOneDepends(r, closed, run.ended, run'.ended);
      assert InOrder(r, run', Project(s.trace, r) + [Ended(r, i, ok)], closed + 1);
    }
    AppendKeepsOrder(s, r, run', Ended(r, i, ok));
  }

  lemma PhaseKeepsOrder(s: State, r: RunId, run: Run)
    requires OrderInv(s.runs, s.nextRun, s.trace) && r in s.runs
    requires run.rule == s.runs[r].rule && run.started == s.runs[r].started && run.ended == s.runs[r].ended
    ensures OrderInv(s.runs[r := run], s.nextRun, s.trace)
  {
    if HasDelays(run.rule) {
      var closed: nat :| InOrder(r, s.runs[r], Project(s.trace, r), closed);
      assert InOrder(r, run, Project(s.trace, r), closed);
    }
  }

  lemma StepKeepsOrder(s: State, e: Event, at: int)
    requires OrderInv(s.runs, s.nextRun, s.trace) && Enabled(s.(now := at), e)
    ensures var s' := Step(s, e, at); OrderInv(s'.runs, s'.nextRun, s'.trace)
  {
    var s1, s' := s.(now := at), Step(s, e, at);
    match e
    case Lookup(_) =>
    case LaunchTicket(t) => BeginKeepsOrder(s1.(tickets := s.tickets - {t}), t.rule, ByTimer(t.block, t.activation));
    case Launch(rule, id) => BeginKeepsOrder(s1, rule, ByEvent(id));
    case StartNext(r) => StartKeepsOrder(s1, r);
    case End(r, i, ok) => EndKeepsOrder(s1, r, i, ok);
    case WriteLog(r, _, _) => PhaseKeepsOrder(s1, r, s'.runs[r]);
    case Release(r) => PhaseKeepsOrder(s1, r, s'.runs[r]);
  }

  // ---------------------------------------------------------------- whole runs of the engine

  datatype Timed = Timed(event: Event, at: int)

  ghost predicate Possible(s: State, events: seq<Timed>)
    decreases |events|
  {
    events == [] ||
    (s.now < events[0].at && Enabled(s.(now := events[0].at), events[0].event)
     && Possible(Step(s, events[0].event, events[0].at), events[1..]))
  }

  ghost function Execute(s: State, events: seq<Timed>): State
    requires Possible(s, events)
    decreases |events|
  {
    if events == [] then s else Execute(Step(s, events[0].event, events[0].at), events[1..])
  }

  ghost predicate NoDuplicates(s: State, events: seq<Timed>)
    requires Possible(s, events)
    decreases |events|
  {
    events != [] ==>
      !Duplicates(s, events[0].event) && NoDuplicates(Step(s, events[0].event, events[0].at), events[1..])
  }

  ghost predicate AlwaysSafe(s: State, events: seq<Timed>)
    requires Possible(s, events)
    decreases |events|
  {
    Safe(s.rows, s.runs) && (events != [] ==> AlwaysSafe(Step(s, events[0].event, events[0].at), events[1..]))
  }

  ghost predicate AllFresh(s: State, events: seq<Timed>)
    requires Possible(s, events)
    decreases |events|
  {
    events != [] ==> Fresh(s, events[0].event) && AllFresh(Step(s, events[0].event, events[0].at), events[1..])
  }

  lemma {:induction false} ExecuteKeepsInv(s: State, events: seq<Timed>)
    requires Inv(s) && OrderInv(s.runs, s.nextRun, s.trace) && Possible(s, events)
    ensures var s' := Execute(s, events); Inv(s') && OrderInv(s'.runs, s'.nextRun, s'.trace)
    decreases |events|
  {
    if events != [] {
      var e, at := events[0].event, events[0].at;
      StepKeepsLock(s, e, at);
      StepKeepsRows(s, e, at);
      StepKeepsOrder(s, e, at);
      ExecuteKeepsInv(Step(s, e, at), events[1..]);
    }
  }

  lemma StepKeepsInv(s: State, e: Event, at: int)
    requires Inv(s) && s.now < at && Enabled(s.(now := at), e)
    ensures Inv(Step(s, e, at))
  {
    StepKeepsLock(s, e, at);
    StepKeepsRows(s, e, at);
  }

  /** Throughout a run no activation succeeds twice, and no run is under way to that end, exactly without duplicates. */
  lemma {:induction false} ExecuteStaysSafeIff(s: State, events: seq<Timed>)
    requires Inv(s) && Safe(s.rows, s.runs) && Possible(s, events)
    ensures AlwaysSafe(s, events) <==> NoDuplicates(s, events)
    ensures NoDuplicates(s, events) ==> Safe(Execute(s, events).rows, Execute(s, events).runs)
    decreases |events|
  {
    hide Inv, Safe, Step, Enabled, Duplicates;
    if events != [] {
      var e, at := events[0].event, events[0].at;
      StepKeepsInv(s, e, at);
      StepStaysSafeIff(s, e, at);
      if Safe(Step(s, e, at).rows, Step(s, e, at).runs) {
        ExecuteStaysSafeIff(Step(s, e, at), events[1..]);
      }
    }
  }

  lemma {:induction false} FreshRunsHaveNoDuplicates(s: State, events: seq<Timed>)
    requires Inv(s) && Possible(s, events) && AllFresh(s, events)
    ensures NoDuplicates(s, events)
    decreases |events|
  {
    hide Inv, Step, Enabled, Duplicates, Fresh;
    if events != [] {
      FreshIsNoDuplicate(s, events[0].event);
      StepKeepsInv(s, events[0].event, events[0].at);
      FreshRunsHaveNoDuplicates(Step(s, events[0].event, events[0].at), events[1..]);
    }
  }

  /**
   In every reachable state: the lock set is the rules in flight, rows fit their runs, delayed actions are in order.
   */
  lemma ReachableStates(events: seq<Timed>)
    requires Possible(Initial, events)
    ensures var s := Execute(Initial, events); Inv(s) && OrderInv(s.runs, s.nextRun, s.trace)
  {
    ExecuteKeepsInv(Initial, events);
  }

  /**
   At most one SUCCESS row for each rule and activation, over every interleaving without a duplicate launch; lookups
   that still hold at the launch are enough for that.
   */
  lemma AtMostOneSuccess(events: seq<Timed>)
    requires Possible(Initial, events)
    ensures AlwaysSafe(Initial, events) <==> NoDuplicates(Initial, events)
    ensures AllFresh(Initial, events) ==> NoDuplicates(Initial, events)
    ensures NoDuplicates(Initial, events) ==>
              OncePerActivation(Execute(Initial, events).rows, Execute(Initial, events).runs)
  {
    ExecuteStaysSafeIff(Initial, events);
    if AllFresh(Initial, events) {
      FreshRunsHaveNoDuplicates(Initial, events);
    }
  }
}

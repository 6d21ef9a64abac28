/**
 ObsConnectionManager and ObsStateStore. Instances are shared by reference between the store, connect attempts and
 timer callbacks, so they live in a heap of their own: an attempt or a callback may hold one that was replaced.
 */
module ObsConnections {
  import opened Wrappers

  type ConnId = string
  type ProdId = string
  type InstId = nat
  type TimerId = nat

  datatype Config = Config(url: string, password: Option<string>)

  /** `conn` and `prod` are what the listeners of the instance close over. */
  datatype Instance = Instance(
    conn: ConnId, prod: ProdId, config: Config,
    isConnected: bool, reconnectAttempts: nat, reconnectTimeout: Option<TimerId>, listening: bool)

  datatype Timer = Timer(conn: ConnId, prod: ProdId, config: Config, inst: InstId, delay: nat)

  datatype State = State(
    heap: map<InstId, Instance>,
    nextInst: InstId,
    connections: map<ConnId, InstId>,
    productionMap: map<ProdId, set<ConnId>>,
    primaryMap: map<ProdId, ConnId>,
    timers: map<TimerId, Timer>,
    nextTimer: TimerId,
    attempts: set<InstId>)

  datatype Event =
    | Connect(conn: ConnId, prod: ProdId, config: Config, isPrimary: bool)
    | Succeed(inst: InstId)
    | Fail(inst: InstId)
    | Close(inst: InstId)
    | HeartbeatFail(inst: InstId)
    | Fire(timer: TimerId)
    | Disconnect(prod: ProdId)
    | ManualReconnect(conn: ConnId, prod: ProdId)

  // ---------------------------------------------------------------- backoff

  function Pow2(n: nat): nat {
    if n == 0 then 1 else 2 * Pow2(n - 1)
  }

  /** `Math.min(Math.pow(2, attempts) * 1000, 30_000)`. */
  function Backoff(attempts: nat): nat {
    if Pow2(attempts) * 1000 < 30_000 then Pow2(attempts) * 1000 else 30_000
  }

  lemma {:induction false} Pow2Grows(m: nat, n: nat)
    requires m <= n
    ensures Pow2(m) <= Pow2(n)
  {
    if m < n {
      Pow2Grows(m, n - 1);
    }
  }

  /** The delays are 2, 4, 8 and 16 seconds, and 30 seconds from the fifth attempt on. */
  lemma BackoffSchedule(n: nat)
    ensures Backoff(1) == 2000 && Backoff(2) == 4000 && Backoff(3) == 8000 && Backoff(4) == 16000
    ensures n >= 5 ==> Backoff(n) == 30_000
  {
    assert Pow2(3) == 8;
    assert Pow2(5) == 32;
    if n >= 5 {
      Pow2Grows(5, n);
    }
  }

  // ---------------------------------------------------------------- the steps

  function ConnIds(s: State, p: ProdId): set<ConnId> {
    if p in s.productionMap then s.productionMap[p] else {}
  }

  predicate Stored(s: State, c: ConnId) {
    c in s.connections && s.connections[c] in s.heap
  }

  function Entry(s: State, c: ConnId): Instance
    requires Stored(s, c)
  {
    s.heap[s.connections[c]]
  }

  function ClearTimeout(timers: map<TimerId, Timer>, handle: Option<TimerId>): map<TimerId, Timer> {
    if handle.Some? then timers - {handle.value} else timers
  }

  /** `teardownInstance`: the handle stays in the instance, but its timer is dead. */
  function TeardownStep(s: State, c: ConnId): State
    requires Stored(s, c)
  {
    s.(timers := ClearTimeout(s.timers, Entry(s, c).reconnectTimeout),
       heap := s.heap[s.connections[c] := Entry(s, c).(listening := false)],
       connections := s.connections - {c})
  }

  predicate Skips(s: State, c: ConnId, config: Config) {
    Stored(s, c) && Entry(s, c).config == config && (Entry(s, c).isConnected || Entry(s, c).reconnectTimeout.Some?)
  }

  /** `connectObsById` up to its first await. */
  function ConnectStep(s: State, c: ConnId, p: ProdId, config: Config, isPrimary: bool): State {
    if Skips(s, c, config) then s
    else
      var attempts := if Stored(s, c) then Entry(s, c).reconnectAttempts else 0;
      var s1 := if Stored(s, c) then TeardownStep(s, c) else s;
      s1.(productionMap := s1.productionMap[p := ConnIds(s1, p) + {c}],
          primaryMap := if isPrimary then s1.primaryMap[p := c] else s1.primaryMap,
          heap := s1.heap[s1.nextInst := Instance(c, p, config, false, attempts, None, true)],
          nextInst := s1.nextInst + 1,
          connections := s1.connections[c := s1.nextInst],
          attempts := s1.attempts + {s1.nextInst})
  }

  /** `scheduleReconnect`: for whatever entry is stored now. */
  function ScheduleStep(s: State, c: ConnId, p: ProdId, config: Config): State {
    if !Stored(s, c) || Entry(s, c).reconnectTimeout.Some? then s
    else
      var n := Entry(s, c).reconnectAttempts + 1;
      var entry := Entry(s, c).(reconnectAttempts := n, reconnectTimeout := Some(s.nextTimer));
      s.(heap := s.heap[s.connections[c] := entry],
         timers := s.timers[s.nextTimer := Timer(c, p, config, s.connections[c], Backoff(n))],
         nextTimer := s.nextTimer + 1)
  }

  function SucceedStep(s: State, i: InstId): State
    requires i in s.heap
  {
    s.(attempts := s.attempts - {i},
       timers := ClearTimeout(s.timers, s.heap[i].reconnectTimeout),
       heap := s.heap[i := s.heap[i].(isConnected := true, reconnectAttempts := 0, reconnectTimeout := None)])
  }

  function FireStep(s: State, t: TimerId): State
    requires t in s.timers && s.timers[t].inst in s.heap
  {
    var timer := s.timers[t];
    ConnectStep(s.(timers := s.timers - {t},
                   heap := s.heap[timer.inst := s.heap[timer.inst].(reconnectTimeout := None)]),
                timer.conn, timer.prod, timer.config, false)
  }

  /** The entries of the listed connections torn down. */
  function TornDown(s: State, ids: set<ConnId>): State {
    s.(timers := map t | t in s.timers && s.timers[t].conn !in ids :: s.timers[t],
       heap := map i | i in s.heap ::
         if s.heap[i].conn in ids && s.heap[i].conn in s.connections && s.connections[s.heap[i].conn] == i
         then s.heap[i].(listening := false) else s.heap[i],
       connections := s.connections - ids)
  }

  function DisconnectStep(s: State, p: ProdId): State {
    TornDown(s, ConnIds(s, p)).(productionMap := s.productionMap - {p}, primaryMap := s.primaryMap - {p})
  }

  function ManualStep(s: State, c: ConnId, p: ProdId): State {
    if !Stored(s, c) then s
    else
      var entry := Entry(s, c).(reconnectAttempts := 0, reconnectTimeout := None);
      ConnectStep(s.(timers := ClearTimeout(s.timers, Entry(s, c).reconnectTimeout),
                     heap := s.heap[s.connections[c] := entry]),
                  c, p, Entry(s, c).config, true)
  }

  predicate Enabled(s: State, e: Event, home: map<ConnId, ProdId>) {
    match e
    case Connect(c, p, _, _) => c in home && home[c] == p
    case Succeed(i) => i in s.attempts && i in s.heap
    case Fail(i) => i in s.attempts && i in s.heap
    case Close(i) => i in s.heap && s.heap[i].listening
    case HeartbeatFail(i) => i in s.heap
    case Fire(t) => t in s.timers && s.timers[t].inst in s.heap
    case Disconnect(_) => true
    case ManualReconnect(c, p) => c in home && home[c] == p
  }

  function Step(s: State, e: Event, home: map<ConnId, ProdId>): State
    requires Enabled(s, e, home)
  {
    match e
    case Connect(c, p, config, isPrimary) => ConnectStep(s, c, p, config, isPrimary)
    case Succeed(i) => SucceedStep(s, i)
    case Fail(i) => ScheduleStep(s.(attempts := s.attempts - {i}), s.heap[i].conn, s.heap[i].prod, s.heap[i].config)
    case Close(i) =>
      ScheduleStep(s.(heap := s.heap[i := s.heap[i].(isConnected := false)]),
                   s.heap[i].conn, s.heap[i].prod, s.heap[i].config)
    case HeartbeatFail(i) => s.(heap := s.heap[i := s.heap[i].(isConnected := false)])
    case Fire(t) => FireStep(s, t)
    case Disconnect(p) => DisconnectStep(s, p)
    case ManualReconnect(c, p) => ManualStep(s, c, p)
  }

  const Empty := State(map[], 0, map[], map[], map[], map[], 0, {})

  // ---------------------------------------------------------------- the invariant

  /**
   A stored entry belongs to its id, listens, is listed in its production, and a handle it holds is live and its own.
   */
  ghost predicate EntryInv(s: State, c: ConnId) {
    c in s.connections ==>
      && Stored(s, c)
      && Entry(s, c).conn == c && Entry(s, c).listening && c in ConnIds(s, Entry(s, c).prod)
      && (Entry(s, c).reconnectTimeout.Some? ==>
            var t := Entry(s, c).reconnectTimeout.value;
            t in s.timers && s.timers[t].inst == s.connections[c])
  }

  /** A live timer is held by the entry that is stored under its connection id. */
  ghost predicate TimerInv(s: State, t: TimerId) {
    t in s.timers ==>
      && t < s.nextTimer
      && Stored(s, s.timers[t].conn) && s.connections[s.timers[t].conn] == s.timers[t].inst
      && s.heap[s.timers[t].inst].reconnectTimeout == Some(t)
  }

  /** An instance that is not stored any more does not listen; every connection id keeps to one production. */
  ghost predicate InstanceInv(s: State, i: InstId, home: map<ConnId, ProdId>) {
    i in s.heap ==>
      && i < s.nextInst
      && s.heap[i].conn in home && home[s.heap[i].conn] == s.heap[i].prod
      && (s.heap[i].listening ==> s.heap[i].conn in s.connections && s.connections[s.heap[i].conn] == i)
      && (s.heap[i].reconnectTimeout.Some? ==>
            var t := s.heap[i].reconnectTimeout.value;
            t < s.nextTimer && (t in s.timers ==> s.timers[t].inst == i))
  }

  ghost predicate Inv(s: State, home: map<ConnId, ProdId>) {
    && (forall c :: EntryInv(s, c))
    && (forall t :: TimerInv(s, t))
    && (forall i :: InstanceInv(s, i, home))
    && (forall t :: t in s.timers ==> s.timers[t].conn in home && home[s.timers[t].conn] == s.timers[t].prod)
  }

  lemma TeardownKeepsInv(s: State, c: ConnId, home: map<ConnId, ProdId>)
    requires Inv(s, home) && Stored(s, c)
    ensures Inv(TeardownStep(s, c), home)
  {
    var s' := TeardownStep(s, c);
    assert EntryInv(s, c);
    forall d ensures EntryInv(s', d) { assert EntryInv(s, d); }
    forall t ensures TimerInv(s', t) { assert TimerInv(s, t); }
    forall i ensures InstanceInv(s', i, home) { assert InstanceInv(s, i, home); }
  }

  lemma ConnectKeepsInv(s: State, c: ConnId, p: ProdId, config: Config, isPrimary: bool, home: map<ConnId, ProdId>)
    requires Inv(s, home) && c in home && home[c] == p
    ensures Inv(ConnectStep(s, c, p, config, isPrimary), home)
  {
    if !Skips(s, c, config) {
      var s1 := if Stored(s, c) then TeardownStep(s, c) else s;
      assert EntryInv(s, c);
      if Stored(s, c) {
        TeardownKeepsInv(s, c, home);
      }
      var s' := ConnectStep(s, c, p, config, isPrimary);
      assert InstanceInv(s1, s1.nextInst, home);
      forall d ensures EntryInv(s', d) { assert EntryInv(s1, d); }
      forall t ensures TimerInv(s', t) { assert TimerInv(s1, t); }
      forall i ensures InstanceInv(s', i, home) { assert InstanceInv(s1, i, home); }
    }
  }

  lemma ScheduleKeepsInv(s: State, c: ConnId, p: ProdId, config: Config, home: map<ConnId, ProdId>)
    requires Inv(s, home) && c in home && home[c] == p
    ensures Inv(ScheduleStep(s, c, p, config), home)
  {
    var s' := ScheduleStep(s, c, p, config);
    assert EntryInv(s, c) && TimerInv(s, s.nextTimer);
    forall d ensures EntryInv(s', d) { assert EntryInv(s, d); }
    forall t ensures TimerInv(s', t) { assert TimerInv(s, t); }
    forall i ensures InstanceInv(s', i, home) { assert InstanceInv(s, i, home); }
  }

  /** Clearing an instance's own timer and forgetting the handle, whether or not the instance is still stored. */
  lemma DisarmKeepsInv(s: State, i: InstId, inst: Instance, home: map<ConnId, ProdId>)
    requires Inv(s, home) && i in s.heap
    requires inst.conn == s.heap[i].conn && inst.prod == s.heap[i].prod && inst.listening == s.heap[i].listening
    requires inst.reconnectTimeout.None?
    ensures Inv(s.(timers := ClearTimeout(s.timers, s.heap[i].reconnectTimeout), heap := s.heap[i := inst]), home)
  {
    var s' := s.(timers := ClearTimeout(s.timers, s.heap[i].reconnectTimeout), heap := s.heap[i := inst]);
    assert InstanceInv(s, i, home);
    forall d ensures EntryInv(s', d) { assert EntryInv(s, d); }
    forall t ensures TimerInv(s', t) { assert TimerInv(s, t); }
    forall j ensures InstanceInv(s', j, home) { assert InstanceInv(s, j, home); }
  }

  /** The connection flag plays no part in the invariant. */
  lemma FlagKeepsInv(s: State, i: InstId, connected: bool, home: map<ConnId, ProdId>)
    requires Inv(s, home) && i in s.heap
    ensures Inv(s.(heap := s.heap[i := s.heap[i].(isConnected := connected)]), home)
  {
    var s' := s.(heap := s.heap[i := s.heap[i].(isConnected := connected)]);
    forall d ensures EntryInv(s', d) { assert EntryInv(s, d); }
    forall t ensures TimerInv(s', t) { assert TimerInv(s, t); }
    forall j ensures InstanceInv(s', j, home) { assert InstanceInv(s, j, home); }
  }

  lemma TornDownKeepsInv(s: State, ids: set<ConnId>, home: map<ConnId, ProdId>)
    requires Inv(s, home)
    ensures Inv(TornDown(s, ids), home)
  {
    var s' := TornDown(s, ids);
    forall d ensures EntryInv(s', d) {
      assert EntryInv(s, d);
      if d in s'.connections && Entry(s, d).reconnectTimeout.Some? {
        var t := Entry(s, d).reconnectTimeout.value;
        assert TimerInv(s, t) && EntryInv(s, s.timers[t].conn);
      }
    }
    forall t ensures TimerInv(s', t) { assert TimerInv(s, t); }
    forall j ensures InstanceInv(s', j, home) { assert InstanceInv(s, j, home); }
  }

  lemma DisconnectKeepsInv(s: State, p: ProdId, home: map<ConnId, ProdId>)
    requires Inv(s, home)
    ensures Inv(DisconnectStep(s, p), home)
  {
    var s1, s' := TornDown(s, ConnIds(s, p)), DisconnectStep(s, p);
    TornDownKeepsInv(s, ConnIds(s, p), home);
    forall d ensures EntryInv(s', d) { assert EntryInv(s1, d) && EntryInv(s, d); }
    forall t ensures TimerInv(s', t) { assert TimerInv(s1, t); }
    forall j ensures InstanceInv(s', j, home) { assert InstanceInv(s1, j, home); }
  }

  lemma StepKeepsInv(s: State, e: Event, home: map<ConnId, ProdId>)
    requires Inv(s, home) && Enabled(s, e, home)
    ensures Inv(Step(s, e, home), home)
  {
    match e
    case Connect(c, p, config, isPrimary) => ConnectKeepsInv(s, c, p, config, isPrimary, home);
    case Succeed(i) =>
      AttemptsKeepInv(s, s.attempts - {i}, home);
      DisarmKeepsInv(s.(attempts := s.attempts - {i}), i,
                     s.heap[i].(isConnected := true, reconnectAttempts := 0, reconnectTimeout := None), home);
    case Fail(i) =>
      assert InstanceInv(s, i, home);
      AttemptsKeepInv(s, s.attempts - {i}, home);
      ScheduleKeepsInv(s.(attempts := s.attempts - {i}), s.heap[i].conn, s.heap[i].prod, s.heap[i].config, home);
    case Close(i) =>
      assert InstanceInv(s, i, home);
      FlagKeepsInv(s, i, false, home);
      ScheduleKeepsInv(s.(heap := s.heap[i := s.heap[i].(isConnected := false)]),
                       s.heap[i].conn, s.heap[i].prod, s.heap[i].config, home);
    case HeartbeatFail(i) => FlagKeepsInv(s, i, false, home);
    case Fire(t) =>
      var timer := s.timers[t];
      assert TimerInv(s, t);
      DisarmKeepsInv(s, timer.inst, s.heap[timer.inst].(reconnectTimeout := None), home);
      ConnectKeepsInv(s.(timers := s.timers - {t},
                         heap := s.heap[timer.inst := s.heap[timer.inst].(reconnectTimeout := None)]),
                      timer.conn, timer.prod, timer.config, false, home);
    case Disconnect(p) => DisconnectKeepsInv(s, p, home);
    case ManualReconnect(c, p) =>
      if Stored(s, c) {
        var inst := Entry(s, c).(reconnectAttempts := 0, reconnectTimeout := None);
        DisarmKeepsInv(s, s.connections[c], inst, home);
        ConnectKeepsInv(s.(timers := ClearTimeout(s.timers, Entry(s, c).reconnectTimeout),
                           heap := s.heap[s.connections[c] := inst]),
                        c, p, Entry(s, c).config, true, home);
      }
  }

  lemma AttemptsKeepInv(s: State, attempts: set<InstId>, home: map<ConnId, ProdId>)
    requires Inv(s, home)
    ensures Inv(s.(attempts := attempts), home)
  {
    var s' := s.(attempts := attempts);
    forall d ensures EntryInv(s', d) { assert EntryInv(s, d); }
    forall t ensures TimerInv(s', t) { assert TimerInv(s, t); }
    forall j ensures InstanceInv(s', j, home) { assert InstanceInv(s, j, home); }
  }

  ghost predicate Possible(s: State, events: seq<Event>, home: map<ConnId, ProdId>)
    decreases |events|
  {
    events == [] || (Enabled(s, events[0], home) && Possible(Step(s, events[0], home), events[1..], home))
  }

  ghost function Run(s: State, events: seq<Event>, home: map<ConnId, ProdId>): State
    requires Possible(s, events, home)
    decreases |events|
  {
    if events == [] then s else Run(Step(s, events[0], home), events[1..], home)
  }

  lemma {:induction false} RunKeepsInv(s: State, events: seq<Event>, home: map<ConnId, ProdId>)
    requires Inv(s, home) && Possible(s, events, home)
    ensures Inv(Run(s, events, home), home)
    decreases |events|
  {
    if events != [] {
      StepKeepsInv(s, events[0], home);
      RunKeepsInv(Step(s, events[0], home), events[1..], home);
    }
  }

  /**
   In every reachable state each live timer is held by the entry now stored under its connection id, and an id has
   at most one. Attempts may have failed or succeeded long after their entry was replaced or removed.
   */
  lemma TimersBelongToStoredEntries(events: seq<Event>, home: map<ConnId, ProdId>, t: TimerId, u: TimerId)
    requires Possible(Empty, events, home)
    ensures var s := Run(Empty, events, home);
            && (t in s.timers ==> Stored(s, s.timers[t].conn) && Entry(s, s.timers[t].conn).reconnectTimeout == Some(t))
            && (t in s.timers && u in s.timers && s.timers[t].conn == s.timers[u].conn ==> t == u)
  {
    RunKeepsInv(Empty, events, home);
    var s := Run(Empty, events, home);
    assert TimerInv(s, t) && TimerInv(s, u);
  }

  /** After disconnectObs the production has no live timer and no stored entry, in every reachable state. */
  lemma DisconnectLeavesNothing(events: seq<Event>, home: map<ConnId, ProdId>, p: ProdId)
    requires Possible(Empty, events, home)
    ensures Enabled(Run(Empty, events, home), Disconnect(p), home)
    ensures var s := Step(Run(Empty, events, home), Disconnect(p), home);
            && ConnIds(s, p) == {} && p !in s.primaryMap
            && (forall t :: t in s.timers ==> s.timers[t].prod != p)
            && (forall c :: c in s.connections && c in home ==> home[c] != p)
  {
    RunKeepsInv(Empty, events, home);
    var s := Run(Empty, events, home);
    var s' := DisconnectStep(s, p);
    forall c | c in s'.connections && c in home ensures home[c] != p {
      assert EntryInv(s, c) && InstanceInv(s, s.connections[c], home);
    }
    forall t | t in s'.timers ensures s'.timers[t].prod != p {
      assert TimerInv(s, t) && EntryInv(s, s.timers[t].conn) && InstanceInv(s, s.timers[t].inst, home);
    }
  }

  /** Only connections of a production are listed under it. */
  ghost predicate ListsOwn(s: State, home: map<ConnId, ProdId>) {
    forall p, c :: c in ConnIds(s, p) ==> c in home && home[c] == p
  }

  lemma {:induction false} RunListsOwn(s: State, events: seq<Event>, home: map<ConnId, ProdId>)
    requires Inv(s, home) && ListsOwn(s, home) && Possible(s, events, home)
    ensures ListsOwn(Run(s, events, home), home)
    decreases |events|
  {
    hide Inv;
    if events != [] {
      StepKeepsInv(s, events[0], home);
      StepListsOwn(s, events[0], home);
      RunListsOwn(Step(s, events[0], home), events[1..], home);
    }
  }

  lemma StepListsOwn(s: State, e: Event, home: map<ConnId, ProdId>)
    requires Inv(s, home) && ListsOwn(s, home) && Enabled(s, e, home)
    ensures ListsOwn(Step(s, e, home), home)
  {
    var s' := Step(s, e, home);
    if e.Fire? {
      assert s.timers[e.timer].conn in home && home[s.timers[e.timer].conn] == s.timers[e.timer].prod;
    }
    forall p, c | c in ConnIds(s', p) ensures c in home && home[c] == p {
      if c in ConnIds(s, p) {
        assert home[c] == p;
      }
    }
  }

  /** And the entries and timers of every other production are as they were. */
  lemma DisconnectSparesOthers(events: seq<Event>, home: map<ConnId, ProdId>, p: ProdId, c: ConnId, t: TimerId)
    requires Possible(Empty, events, home) && c in home && home[c] != p
    ensures Enabled(Run(Empty, events, home), Disconnect(p), home)
    ensures var s := Run(Empty, events, home);
            var s' := Step(s, Disconnect(p), home);
            && (Stored(s, c) ==> Stored(s', c) && s'.connections[c] == s.connections[c] && Entry(s', c) == Entry(s, c))
            && (t in s.timers && s.timers[t].conn == c ==> t in s'.timers && s'.timers[t] == s.timers[t])
            && (c in ConnIds(s, home[c]) <==> c in ConnIds(s', home[c]))
            && (home[c] in s.primaryMap <==> home[c] in s'.primaryMap)
            && (home[c] in s.primaryMap ==> s'.primaryMap[home[c]] == s.primaryMap[home[c]])
  {
    RunKeepsInv(Empty, events, home);
    RunListsOwn(Empty, events, home);
    var s := Run(Empty, events, home);
    assert c !in ConnIds(s, p) && EntryInv(s, c);
  }

  // ---------------------------------------------------------------- a server that stays down

  /** The entry of the connection waits for its n-th reconnect attempt. */
  ghost predicate Waiting(s: State, c: ConnId, n: nat, t: TimerId) {
    && Stored(s, c) && !Entry(s, c).isConnected && Entry(s, c).reconnectAttempts == n
    && Entry(s, c).reconnectTimeout == Some(t) && t in s.timers
    && s.timers[t].inst == s.connections[c] && s.timers[t].conn == c && s.timers[t].delay == Backoff(n)
  }

  /**
   Each round trip through timer and failed attempt makes the entry wait once more, one step further in the schedule.
   */
  lemma FailedCycleBacksOff(s: State, c: ConnId, n: nat, t: TimerId, home: map<ConnId, ProdId>)
    requires Inv(s, home) && Waiting(s, c, n, t)
    ensures Enabled(s, Fire(t), home)
    ensures var s1 := Step(s, Fire(t), home);
            Enabled(s1, Fail(s.nextInst), home) &&
            var s2 := Step(s1, Fail(s.nextInst), home); Waiting(s2, c, n + 1, s.nextTimer) && Inv(s2, home)
  {
    StepKeepsInv(s, Fire(t), home);
    var s1 := Step(s, Fire(t), home);
    StepKeepsInv(s1, Fail(s.nextInst), home);
  }

  ghost function Cycles(s: State, c: ConnId, n: nat, t: TimerId, k: nat, home: map<ConnId, ProdId>): State
    requires Inv(s, home) && Waiting(s, c, n, t)
    decreases k
  {
    if k == 0 then s
    else
      FailedCycleBacksOff(s, c, n, t, home);
      Cycles(Step(Step(s, Fire(t), home), Fail(s.nextInst), home), c, n + 1, s.nextTimer, k - 1, home)
  }

  /**
   A server that stays down is retried for ever: after k failed rounds the entry waits with the delay of step n + k.
   */
  lemma {:induction false} RetriesForever(s: State, c: ConnId, n: nat, t: TimerId, k: nat, home: map<ConnId, ProdId>)
    returns (u: TimerId)
    requires Inv(s, home) && Waiting(s, c, n, t)
    ensures Waiting(Cycles(s, c, n, t, k, home), c, n + k, u)
    decreases k
  {
    hide Waiting, Inv, Step, Enabled;
    if k == 0 {
      u := t;
    } else {
      FailedCycleBacksOff(s, c, n, t, home);
      u := RetriesForever(Step(Step(s, Fire(t), home), Fail(s.nextInst), home), c, n + 1, s.nextTimer, k - 1, home);
    }
  }

  /** A first connect that fails waits for reconnect attempt 1. */
  lemma FirstFailureWaits(s: State, c: ConnId, p: ProdId, config: Config, isPrimary: bool, home: map<ConnId, ProdId>)
    requires Inv(s, home) && c !in s.connections && c in home && home[c] == p
    ensures var s1 := ConnectStep(s, c, p, config, isPrimary);
            Inv(s1, home) && Enabled(s1, Fail(s.nextInst), home) &&
            Waiting(Step(s1, Fail(s.nextInst), home), c, 1, s.nextTimer)
  {
    ConnectKeepsInv(s, c, p, config, isPrimary, home);
  }

  /**
   What a connect that is not skipped leaves: a new entry under way, the old entry's timer dead, the rest as before.
   */
  lemma ConnectReplacesEntry(s: State, c: ConnId, p: ProdId, config: Config, isPrimary: bool, other: ConnId,
                             home: map<ConnId, ProdId>)
    requires Inv(s, home) && !Skips(s, c, config) && other != c
    ensures var s' := ConnectStep(s, c, p, config, isPrimary);
            && Stored(s', c) && s'.connections[c] == s.nextInst && s.nextInst in s'.attempts
            && Entry(s', c).config == config && Entry(s', c).listening && Entry(s', c).reconnectTimeout.None?
            && (forall t :: t in s'.timers <==> t in s.timers && s.timers[t].conn != c)
            && (other in s.connections <==> other in s'.connections)
            && (other in s.connections ==> Stored(s, other) && Stored(s', other) && Entry(s', other) == Entry(s, other))
            && c in ConnIds(s', p)
            && (forall q :: q in s'.primaryMap && s'.primaryMap[q] == c && !isPrimary ==> q in s.primaryMap)
            && (isPrimary ==> p in s'.primaryMap && s'.primaryMap[p] == c)
  {
    var s' := ConnectStep(s, c, p, config, isPrimary);
    assert EntryInv(s, c) && EntryInv(s, other) && InstanceInv(s, s.nextInst, home);
    forall t ensures t in s'.timers <==> t in s.timers && s.timers[t].conn != c {
      assert TimerInv(s, t);
      assert t in s.timers ==> EntryInv(s, s.timers[t].conn);
    }
  }

  /** A connect changes anything exactly unless the entry has this configuration and is connected or waiting already. */
  lemma ConnectSkipsIff(s: State, c: ConnId, p: ProdId, config: Config, isPrimary: bool)
    ensures ConnectStep(s, c, p, config, isPrimary) == s <==>
            && Stored(s, c) && Entry(s, c).config == config
            && (Entry(s, c).isConnected || Entry(s, c).reconnectTimeout.Some?)
  {
    assert !Skips(s, c, config) ==> ConnectStep(s, c, p, config, isPrimary).nextInst == s.nextInst + 1;
  }

  /**
   A successful attempt makes its instance connected, without failed attempts and without a timer; stored under its
   id it stays as it is when the same connect comes again.
   */
  lemma SuccessConnects(s: State, i: InstId, p: ProdId, isPrimary: bool, j: InstId, home: map<ConnId, ProdId>)
    requires Inv(s, home) && i in s.attempts && i in s.heap
    ensures var s' := SucceedStep(s, i);
            var c := s.heap[i].conn;
            && s'.heap[i] == s.heap[i].(isConnected := true, reconnectAttempts := 0, reconnectTimeout := None)
            && i !in s'.attempts && (forall t :: t in s'.timers ==> s'.timers[t].inst != i)
            && (j != i && j in s.heap ==> j in s'.heap && s'.heap[j] == s.heap[j])
            && (c in s.connections && s.connections[c] == i ==>
                  Stored(s', c) && Entry(s', c).isConnected
                  && ConnectStep(s', c, p, s.heap[i].config, isPrimary) == s')
  {
    forall t | t in SucceedStep(s, i).timers ensures SucceedStep(s, i).timers[t].inst != i {
      assert TimerInv(s, t) && InstanceInv(s, i, home);
    }
  }

  /** A close of a listening instance ends its connection and makes its entry wait; a failed heartbeat only ends it. */
  lemma LossDisconnects(s: State, i: InstId, home: map<ConnId, ProdId>)
    requires Inv(s, home) && i in s.heap
    ensures Enabled(s, HeartbeatFail(i), home)
    ensures Step(s, HeartbeatFail(i), home) == s.(heap := s.heap[i := s.heap[i].(isConnected := false)])
    ensures s.heap[i].listening ==>
              Enabled(s, Close(i), home) &&
              var s' := Step(s, Close(i), home);
              i in s'.heap && !s'.heap[i].isConnected && s'.heap[i].reconnectTimeout.Some?
              && s'.connections == s.connections
  {
    assert InstanceInv(s, i, home);
  }

  /** Connecting for good restarts the schedule: the next close waits two seconds again. */
  lemma SuccessRestartsSchedule(s: State, c: ConnId, home: map<ConnId, ProdId>)
    requires Inv(s, home) && Stored(s, c) && s.connections[c] in s.attempts
    ensures var i := s.connections[c];
            var s1 := SucceedStep(s, i);
            Enabled(s1, Close(i), home) && Waiting(Step(s1, Close(i), home), c, 1, s.nextTimer)
  {
    assert EntryInv(s, c);
  }

  /** So does reconnecting by hand, whatever number of attempts had failed. */
  lemma ManualReconnectRestartsSchedule(s: State, c: ConnId, p: ProdId, home: map<ConnId, ProdId>)
    requires Inv(s, home) && Stored(s, c) && !Entry(s, c).isConnected && c in home && home[c] == p
    ensures var s1 := ManualStep(s, c, p);
            Enabled(s1, Fail(s.nextInst), home) && Waiting(Step(s1, Fail(s.nextInst), home), c, 1, s.nextTimer)
  {
    StepKeepsInv(s, ManualReconnect(c, p), home);
    assert InstanceInv(s, s.nextInst, home);
  }
}

/** The methods of ObsConnectionManager and ObsStateStore on mutable fields, each proved against its step. */
module ObsManager {
  import opened Wrappers
  import opened ObsConnections

  class ObsConnectionManager {
    var heap: map<InstId, Instance>
    var nextInst: InstId
    var connections: map<ConnId, InstId>
    var productionMap: map<ProdId, set<ConnId>>
    var primaryMap: map<ProdId, ConnId>
    var timers: map<TimerId, Timer>
    var nextTimer: TimerId
    var attempts: set<InstId>

    ghost function Snapshot(): State
      reads this
    {
      State(heap, nextInst, connections, productionMap, primaryMap, timers, nextTimer, attempts)
    }

    constructor ()
      ensures Snapshot() == Empty
    {
      heap, nextInst, connections, productionMap, primaryMap := map[], 0, map[], map[], map[];
      timers, nextTimer, attempts := map[], 0, {};
    }

    method ClearTimer(handle: Option<TimerId>)
      modifies this`timers
      ensures timers == ClearTimeout(old(timers), handle)
    {
      if handle.Some? {
        timers := timers - {handle.value};
      }
    }

    method TeardownInstance(connectionId: ConnId)
      requires Stored(Snapshot(), connectionId)
      modifies this
      ensures Snapshot() == TeardownStep(old(Snapshot()), connectionId)
    {
      var i := connections[connectionId];
      ClearTimer(heap[i].reconnectTimeout);
      heap := heap[i := heap[i].(listening := false)];
      connections := connections - {connectionId};
    }

    method AddToProduction(productionId: ProdId, connectionId: ConnId)
      modifies this`productionMap
      ensures productionMap ==
          old(productionMap)[productionId := ConnIds(old(Snapshot()), productionId) + {connectionId}]
    {
      if productionId !in productionMap {
        productionMap := productionMap[productionId := {}];
      }
      productionMap := productionMap[productionId := productionMap[productionId] + {connectionId}];
    }

    /** `connectObsById` up to the await of `obs.connect`; the attempt is then in flight. */
    method ConnectObsById(connectionId: ConnId, productionId: ProdId, config: Config, isPrimary: bool)
      requires connectionId in connections ==> connections[connectionId] in heap
      modifies this
      ensures Snapshot() == ConnectStep(old(Snapshot()), connectionId, productionId, config, isPrimary)
    {
      hide ClearTimeout, ConnIds;
      var reconnectAttempts := 0;
      if connectionId in connections {
        var existing := heap[connections[connectionId]];
        var isSameConfig := existing.config == config;
        if isSameConfig && (existing.isConnected || existing.reconnectTimeout.Some?) {
          return;
        }
        reconnectAttempts := existing.reconnectAttempts;
        TeardownInstance(connectionId);
      }
      AddToProduction(productionId, connectionId);
      if isPrimary {
        primaryMap := primaryMap[productionId := connectionId];
      }
      var i := nextInst;
      nextInst := nextInst + 1;
      heap := heap[i := Instance(connectionId, productionId, config, false, reconnectAttempts, None, true)];
      connections := connections[connectionId := i];
      attempts := attempts + {i};
    }

    method ScheduleReconnect(connectionId: ConnId, productionId: ProdId, config: Config)
      requires connectionId in connections ==> connections[connectionId] in heap
      modifies this
      ensures Snapshot() == ScheduleStep(old(Snapshot()), connectionId, productionId, config)
    {
      if connectionId !in connections {
        return;
      }
      var i := connections[connectionId];
      if heap[i].reconnectTimeout.Some? {
        return;
      }
      heap := heap[i := heap[i].(reconnectAttempts := heap[i].reconnectAttempts + 1)];
      var delay := Backoff(heap[i].reconnectAttempts);
      timers := timers[nextTimer := Timer(connectionId, productionId, config, i, delay)];
      heap := heap[i := heap[i].(reconnectTimeout := Some(nextTimer))];
      nextTimer := nextTimer + 1;
    }

    /** `obs.connect` resolves. */
    method OnConnected(i: InstId)
      requires i in heap
      modifies this
      ensures Snapshot() == SucceedStep(old(Snapshot()), i)
    {
      attempts := attempts - {i};
      heap := heap[i := heap[i].(isConnected := true)];
      heap := heap[i := heap[i].(reconnectAttempts := 0)];
      if heap[i].reconnectTimeout.Some? {
        ClearTimer(heap[i].reconnectTimeout);
        heap := heap[i := heap[i].(reconnectTimeout := None)];
      }
    }

    /** The callback of a reconnect timer. */
    method OnTimer(t: TimerId)
      requires t in timers && timers[t].inst in heap
      requires timers[t].conn in connections ==> connections[timers[t].conn] in heap
      modifies this
      ensures Snapshot() == FireStep(old(Snapshot()), t)
    {
      var timer := timers[t];
      timers := timers - {t};
      heap := heap[timer.inst := heap[timer.inst].(reconnectTimeout := None)];
      ConnectObsById(timer.conn, timer.prod, timer.config, false);
    }

    method ManualReconnect(connectionId: ConnId, productionId: ProdId)
      requires connectionId in connections ==> connections[connectionId] in heap
      modifies this
      ensures Snapshot() == ManualStep(old(Snapshot()), connectionId, productionId)
    {
      if connectionId !in connections {
        return;
      }
      hide ConnectStep;
      var i := connections[connectionId];
      heap := heap[i := heap[i].(reconnectAttempts := 0)];
      ClearTimer(heap[i].reconnectTimeout);
      heap := heap[i := heap[i].(reconnectTimeout := None)];
      assert heap == old(heap)[i := old(heap)[i].(reconnectAttempts := 0, reconnectTimeout := None)];
      ConnectObsById(connectionId, productionId, heap[i].config, true);
    }

    method DisconnectObs(productionId: ProdId, ghost home: map<ConnId, ProdId>)
      requires Inv(Snapshot(), home)
      modifies this
      ensures Snapshot() == DisconnectStep(old(Snapshot()), productionId)
    {
      hide Inv, TornDown;
      ghost var s0 := Snapshot();
      var rest := if productionId in productionMap then productionMap[productionId] else {};
      ghost var done: set<ConnId> := {};
      NothingTornDown(s0);
      while rest != {}
        invariant rest !! done && rest + done == ConnIds(s0, productionId)
        invariant Snapshot() == TornDown(s0, done) && productionMap == s0.productionMap && primaryMap == s0.primaryMap
        decreases |rest|
      {
        var connectionId :| connectionId in rest;
        TearDownOneMore(s0, done, connectionId, home);
        if connectionId in connections {
          TeardownInstance(connectionId);
        }
        rest := rest - {connectionId};
        done := done + {connectionId};
      }
      assert done == ConnIds(s0, productionId);
      productionMap := productionMap - {productionId};
      primaryMap := primaryMap - {productionId};
    }

    /** A connected instance of the production, the primary one first. */
    method GetInstance(productionId: ProdId) returns (i: Option<InstId>)
      requires forall c :: c in connections ==> connections[c] in heap
      ensures i.Some? ==> i.value in heap && heap[i.value].isConnected
      ensures i.Some? ==> Serves(Snapshot(), productionId, i.value)
      ensures IsUp(Snapshot(), PrimaryOf(Snapshot(), productionId)) ==>
                i == Some(connections[PrimaryOf(Snapshot(), productionId).value])
      ensures i.None? ==> !IsUp(Snapshot(), PrimaryOf(Snapshot(), productionId))
      ensures i.None? ==> forall c :: c in ConnIds(Snapshot(), productionId) ==> !IsUp(Snapshot(), Some(c))
    {
      if productionId in primaryMap {
        var primaryId := primaryMap[productionId];
        if primaryId in connections && heap[connections[primaryId]].isConnected {
          return Some(connections[primaryId]);
        }
      }
      var rest := if productionId in productionMap then productionMap[productionId] else {};
      while rest != {}
        invariant rest <= ConnIds(Snapshot(), productionId)
        invariant forall c :: c in ConnIds(Snapshot(), productionId) - rest ==> !IsUp(Snapshot(), Some(c))
        decreases |rest|
      {
        var connId :| connId in rest;
        if connId in connections && heap[connections[connId]].isConnected {
          return Some(connections[connId]);
        }
        rest := rest - {connId};
      }
      i := None;
    }
  }

  function PrimaryOf(s: State, p: ProdId): Option<ConnId> {
    if p in s.primaryMap then Some(s.primaryMap[p]) else None
  }

  /** The instance is stored under the production's primary id or under an id of its list. */
  predicate Serves(s: State, p: ProdId, i: InstId) {
    || (PrimaryOf(s, p).Some? && PrimaryOf(s, p).value in s.connections && s.connections[PrimaryOf(s, p).value] == i)
    || (exists c | c in ConnIds(s, p) :: c in s.connections && s.connections[c] == i)
  }

  predicate IsUp(s: State, c: Option<ConnId>) {
    c.Some? && Stored(s, c.value) && Entry(s, c.value).isConnected
  }

  /** After its attempt succeeded the stored entry is up, and getInstance finds one for its production. */
  lemma SuccessIsUp(s: State, i: InstId, home: map<ConnId, ProdId>)
    requires Inv(s, home) && i in s.attempts && i in s.heap
    requires s.heap[i].conn in s.connections && s.connections[s.heap[i].conn] == i
    ensures var s' := SucceedStep(s, i);
            IsUp(s', Some(s.heap[i].conn)) && s.heap[i].conn in ConnIds(s', s.heap[i].prod)
  {
    assert EntryInv(s, s.heap[i].conn);
  }

  lemma NothingTornDown(s: State)
    ensures TornDown(s, {}) == s
  {
  }

  lemma TimersOneMore(s: State, done: set<ConnId>, c: ConnId, home: map<ConnId, ProdId>)
    requires Inv(s, home) && c in s.connections && Stored(s, c)
    ensures TornDown(s, done + {c}).timers == ClearTimeout(TornDown(s, done).timers, Entry(s, c).reconnectTimeout)
  {
    var a, b := TornDown(s, done).timers, TornDown(s, done + {c}).timers;
    assert EntryInv(s, c);
    forall t ensures t in b <==> t in a && Entry(s, c).reconnectTimeout != Some(t) {
      assert TimerInv(s, t);
      if t in s.timers {
        assert EntryInv(s, s.timers[t].conn);
      }
    }
  }

  lemma HeapOneMore(s: State, done: set<ConnId>, c: ConnId, home: map<ConnId, ProdId>)
    requires Inv(s, home) && c in s.connections && Stored(s, c) && c !in done
    ensures TornDown(s, done).heap[s.connections[c]] == Entry(s, c)
    ensures TornDown(s, done + {c}).heap == TornDown(s, done).heap[s.connections[c] := Entry(s, c).(listening := false)]
  {
    assert EntryInv(s, c);
    var a, b := TornDown(s, done).heap, TornDown(s, done + {c}).heap;
    forall i | i in s.heap && i != s.connections[c] ensures b[i] == a[i] {
    }
  }

  /** Tearing down a set of entries can be done one entry at a time, in any order. */
  lemma TearDownOneMore(s: State, done: set<ConnId>, c: ConnId, home: map<ConnId, ProdId>)
    requires Inv(s, home) && c !in done
    ensures c in TornDown(s, done).connections <==> c in s.connections
    ensures c in s.connections ==> Stored(s, c) && Stored(TornDown(s, done), c)
    ensures c in s.connections ==> TornDown(s, done + {c}) == TeardownStep(TornDown(s, done), c)
    ensures c !in s.connections ==> TornDown(s, done + {c}) == TornDown(s, done)
  {
    var a, b := TornDown(s, done), TornDown(s, done + {c});
    assert EntryInv(s, c);
    if c in s.connections {
      TimersOneMore(s, done, c, home);
      HeapOneMore(s, done, c, home);
      assert b.connections == a.connections - {c};
    } else {
      forall t | t in s.timers ensures s.timers[t].conn != c {
        assert TimerInv(s, t);
      }
      assert b.timers == a.timers && b.heap == a.heap && b.connections == a.connections;
    }
  }
}

/** PresenceService: who is online, on which sockets, in which production, and who is in the reconnect grace window. */
module Presence {
  import opened Wrappers

  type SocketId = string
  type UserId = string
  type ProductionId = string
  type TimerId = nat

  datatype UserPresence = UserPresence(userId: UserId, userName: string, lastSeen: int, status: string)

  datatype Pending = Pending(timer: TimerId, lastPresence: UserPresence, productionId: Option<ProductionId>)

  /** What the callback of a grace timer closes over. */
  datatype GraceTimer = GraceTimer(userId: UserId, productionId: Option<ProductionId>)

  /** The four indexes of the service, and the timers that are live in the runtime. */
  datatype State = State(
    activeSockets: map<SocketId, UserPresence>,
    userToSockets: Index,
    productionToSockets: Index,
    reconnecting: map<UserId, Pending>,
    timers: map<TimerId, GraceTimer>,
    nextTimer: TimerId)

  const Empty := State(map[], map[], map[], map[], map[], 0)

  datatype Event =
    | Upsert(client: SocketId, data: UserPresence, production: Option<ProductionId>, now: int)
    | Associate(client: SocketId, productionId: ProductionId)
    | Remove(client: SocketId, from: Option<ProductionId>)
    | Fire(timer: TimerId)
    | Touch(client: SocketId, status: string, now: int)

  // ---------------------------------------------------------------- the invariant

  type Index = map<string, set<SocketId>>

  predicate Indexed(index: Index, u: UserId, c: SocketId) {
    u in index && c in index[u]
  }

  predicate Uses(active: map<SocketId, UserPresence>, u: UserId, c: SocketId) {
    u != "" && c in active && active[c].userId == u
  }

  /** userToSockets is the inverse of activeSockets. Anonymous sockets (empty user id) are not indexed. */
  ghost predicate Inverse(index: Index, active: map<SocketId, UserPresence>) {
    forall u, c :: Indexed(index, u, c) <==> Uses(active, u, c)
  }

  ghost predicate NoEmptySets(index: Index) {
    forall k :: k in index ==> index[k] != {}
  }

  /** Nobody is online and in grace at once. */
  ghost predicate OnlineOrGrace(reconnecting: map<UserId, Pending>, index: Index) {
    forall u :: u in reconnecting ==> u != "" && u !in index
  }

  /** Live timers and grace entries correspond one to one. */
  ghost predicate TimersMatch(reconnecting: map<UserId, Pending>, timers: map<TimerId, GraceTimer>, next: TimerId) {
    && (forall u :: u in reconnecting ==>
          && reconnecting[u].timer in timers
          && timers[reconnecting[u].timer] == GraceTimer(u, reconnecting[u].productionId))
    && (forall t :: t in timers ==>
          t < next && timers[t].userId in reconnecting && reconnecting[timers[t].userId].timer == t)
  }

  ghost predicate Inv(s: State) {
    && Inverse(s.userToSockets, s.activeSockets)
    && NoEmptySets(s.userToSockets) && NoEmptySets(s.productionToSockets)
    && OnlineOrGrace(s.reconnecting, s.userToSockets)
    && TimersMatch(s.reconnecting, s.timers, s.nextTimer)
  }

  // ---------------------------------------------------------------- the steps

  function SocketsOf(index: Index, key: string): set<SocketId> {
    if key in index then index[key] else {}
  }

  /** A set-valued index with one more socket under a key. */
  function Added(index: Index, key: string, client: SocketId): Index {
    index[key := SocketsOf(index, key) + {client}]
  }

  /** A set-valued index without one socket; keys whose set becomes empty go too. */
  function Without(index: Index, client: SocketId): Index {
    map k | k in index && (client in index[k] ==> index[k] != {client}) :: index[k] - {client}
  }

  function CancelGrace(s: State, u: UserId): State {
    if u in s.reconnecting
    then s.(timers := s.timers - {s.reconnecting[u].timer}, reconnecting := s.reconnecting - {u})
    else s
  }

  function AssociateStep(s: State, client: SocketId, p: ProductionId): State {
    s.(productionToSockets := Added(s.productionToSockets, p, client))
  }

  function UpsertStep(s: State, client: SocketId, data: UserPresence, p: Option<ProductionId>, now: int): State {
    var s1 := if data.userId != "" then CancelGrace(s, data.userId) else s;
    var s2 := s1.(activeSockets := s1.activeSockets[client := data.(lastSeen := now)]);
    var s3 := if data.userId != ""
              then s2.(userToSockets := Added(s2.userToSockets, data.userId, client))
              else s2;
    if p.Some? && p.value != "" then AssociateStep(s3, client, p.value) else s3
  }

  function StartGrace(s: State, last: UserPresence, p: Option<ProductionId>): State {
    var s1 := CancelGrace(s, last.userId);
    s1.(timers := s1.timers[s1.nextTimer := GraceTimer(last.userId, p)],
        reconnecting := s1.reconnecting[last.userId := Pending(s1.nextTimer, last, p)],
        nextTimer := s1.nextTimer + 1)
  }

  /** The last socket of an identified user goes: the user leaves the online index. */
  predicate IsLastSocket(s: State, client: SocketId) {
    client in s.activeSockets && s.activeSockets[client].userId in s.userToSockets
    && s.activeSockets[client].userId != "" && s.userToSockets[s.activeSockets[client].userId] <= {client}
  }

  function RemoveStep(s: State, client: SocketId, from: Option<ProductionId>): State {
    var s1 := if IsLastSocket(s, client) then StartGrace(s, s.activeSockets[client], from) else s;
    var u := if client in s.activeSockets then s.activeSockets[client].userId else "";
    s1.(userToSockets :=
          (if u == "" || u !in s.userToSockets then s.userToSockets
           else if s.userToSockets[u] <= {client} then s.userToSockets - {u}
           else s.userToSockets[u := s.userToSockets[u] - {client}]),
        activeSockets := s.activeSockets - {client},
        productionToSockets := Without(s.productionToSockets, client))
  }

  function FireStep(s: State, t: TimerId): State
    requires t in s.timers
  {
    s.(timers := s.timers - {t}, reconnecting := s.reconnecting - {s.timers[t].userId})
  }

  function TouchStep(s: State, client: SocketId, status: string, now: int): State {
    if client in s.activeSockets
    then s.(activeSockets := s.activeSockets[client := s.activeSockets[client].(status := status, lastSeen := now)])
    else s
  }

  /** A production the socket is in, or None if it is in none. */
  predicate IsProductionOf(s: State, client: SocketId, p: Option<ProductionId>) {
    match p
    case None => forall q :: q in s.productionToSockets ==> client !in s.productionToSockets[q]
    case Some(q) => q in s.productionToSockets && client in s.productionToSockets[q]
  }

  /** The socket is new, anonymous so far, or keeps its user: the gateway takes the id from the verified token. */
  predicate KeepsUser(s: State, client: SocketId, data: UserPresence) {
    client in s.activeSockets && s.activeSockets[client].userId != "" ==> s.activeSockets[client].userId == data.userId
  }

  ghost predicate Enabled(s: State, e: Event) {
    match e
    case Upsert(c, d, _, _) => KeepsUser(s, c, d)
    case Remove(c, from) => IsProductionOf(s, c, from)
    case Fire(t) => t in s.timers
    case _ => true
  }

  function Step(s: State, e: Event): State
    requires e.Fire? ==> e.timer in s.timers
  {
    match e
    case Upsert(c, d, p, now) => UpsertStep(s, c, d, p, now)
    case Associate(c, p) => AssociateStep(s, c, p)
    case Remove(c, from) => RemoveStep(s, c, from)
    case Fire(t) => FireStep(s, t)
    case Touch(c, status, now) => TouchStep(s, c, status, now)
  }

  // ---------------------------------------------------------------- what every step keeps

  lemma CancelKeepsInv(s: State, u: UserId)
    requires Inv(s)
    ensures Inv(CancelGrace(s, u)) && u !in CancelGrace(s, u).reconnecting
  {
  }

  lemma AssociateKeepsInv(s: State, client: SocketId, p: ProductionId)
    requires Inv(s)
    ensures Inv(AssociateStep(s, client, p))
  {
  }

  /** Registering a socket for a user keeps the inverse index exactly when the socket keeps its user. */
  lemma IndexedUpsert(index: Index, active: map<SocketId, UserPresence>, c: SocketId, d: UserPresence)
    requires Inverse(index, active)
    ensures var index' := if d.userId == "" then index else Added(index, d.userId, c);
            Inverse(index', active[c := d]) <==>
            (c in active && active[c].userId != "" ==> active[c].userId == d.userId)
  {
    var index' := if d.userId == "" then index else Added(index, d.userId, c);
    var active' := active[c := d];
    if c in active && active[c].userId != "" && active[c].userId != d.userId {
      assert Uses(active, active[c].userId, c);
      assert Indexed(index', active[c].userId, c) && !Uses(active', active[c].userId, c);
    } else {
      forall u, k ensures Indexed(index', u, k) <==> Uses(active', u, k) {
        assert Indexed(index, u, k) <==> Uses(active, u, k);
      }
    }
  }

  /**
   Re-identifying a socket keeps the indexes consistent exactly when the socket keeps its user. The service
   does not check this itself: with another user id the old user's set would go on holding the socket.
   */
  lemma UpsertKeepsInvIff(s: State, client: SocketId, data: UserPresence, p: Option<ProductionId>, now: int)
    requires Inv(s)
    ensures Inv(UpsertStep(s, client, data, p, now)) <==> KeepsUser(s, client, data)
  {
    var s1 := if data.userId != "" then CancelGrace(s, data.userId) else s;
    var r := UpsertStep(s, client, data, p, now);
    CancelKeepsInv(s, data.userId);
    IndexedUpsert(s.userToSockets, s.activeSockets, client, data.(lastSeen := now));
    UpsertShape(s, client, data, p, now);
    AddedIsNotEmpty(s.userToSockets, data.userId, client);
    hide Inverse, NoEmptySets, TimersMatch, UpsertStep, CancelGrace;
    forall u | u in r.reconnecting ensures u != "" && u !in r.userToSockets {
      assert u in s1.reconnecting && u !in s1.userToSockets;
    }
    assert OnlineOrGrace(r.reconnecting, r.userToSockets);
  }

  /** What an upsert does to the parts of the state. */
  lemma UpsertShape(s: State, client: SocketId, data: UserPresence, p: Option<ProductionId>, now: int)
    ensures var s1 := if data.userId != "" then CancelGrace(s, data.userId) else s;
            var r := UpsertStep(s, client, data, p, now);
            && r.reconnecting == s1.reconnecting && r.timers == s1.timers && r.nextTimer == s1.nextTimer
            && s1.userToSockets == s.userToSockets && (data.userId != "" ==> data.userId !in s1.reconnecting)
            && r.activeSockets == s.activeSockets[client := data.(lastSeen := now)]
            && r.userToSockets == (if data.userId == "" then s.userToSockets
                                   else Added(s.userToSockets, data.userId, client))
            && r.productionToSockets == (if p.Some? && p.value != "" then Added(s.productionToSockets, p.value, client)
                                         else s.productionToSockets)
            && (NoEmptySets(s.productionToSockets) ==> NoEmptySets(r.productionToSockets))
  {
  }

  lemma AddedIsNotEmpty(index: Index, key: string, client: SocketId)
    requires NoEmptySets(index)
    ensures NoEmptySets(Added(index, key, client))
  {
  }

  lemma RemoveKeepsInv(s: State, client: SocketId, from: Option<ProductionId>)
    requires Inv(s)
    ensures Inv(RemoveStep(s, client, from))
  {
    var s' := RemoveStep(s, client, from);
    if IsLastSocket(s, client) {
      CancelKeepsInv(s, s.activeSockets[client].userId);
    }
    forall u, c ensures Indexed(s'.userToSockets, u, c) <==> Uses(s'.activeSockets, u, c) {
      assert Indexed(s.userToSockets, u, c) <==> Uses(s.activeSockets, u, c);
    }
  }

  /** A timer that fires removes its own grace entry and no other. */
  lemma FireRemovesOwnEntry(s: State, t: TimerId)
    requires Inv(s) && t in s.timers
    ensures Inv(FireStep(s, t))
    ensures forall u :: u in s.reconnecting ==>
              (u in FireStep(s, t).reconnecting <==> s.reconnecting[u].timer != t)
  {
  }

  lemma TouchKeepsInv(s: State, client: SocketId, status: string, now: int)
    requires Inv(s)
    ensures Inv(TouchStep(s, client, status, now))
  {
  }

  lemma StepKeepsInv(s: State, e: Event)
    requires Inv(s) && Enabled(s, e)
    ensures Inv(Step(s, e))
  {
    match e
    case Upsert(c, d, p, now) => UpsertKeepsInvIff(s, c, d, p, now);
    case Associate(c, p) => AssociateKeepsInv(s, c, p);
    case Remove(c, from) => RemoveKeepsInv(s, c, from);
    case Fire(t) => FireRemovesOwnEntry(s, t);
    case Touch(c, status, now) => TouchKeepsInv(s, c, status, now);
  }

  ghost predicate Possible(s: State, events: seq<Event>)
    decreases |events|
  {
    events == [] || (Enabled(s, events[0]) && Possible(Step(s, events[0]), events[1..]))
  }

  ghost function Run(s: State, events: seq<Event>): State
    requires Possible(s, events)
    decreases |events|
  {
    if events == [] then s else Run(Step(s, events[0]), events[1..])
  }

  lemma {:induction false} RunKeepsInv(s: State, events: seq<Event>)
    requires Inv(s) && Possible(s, events)
    ensures Inv(Run(s, events))
    decreases |events|
  {
    if events != [] {
      StepKeepsInv(s, events[0]);
      RunKeepsInv(Step(s, events[0]), events[1..]);
    }
  }

  /** Every reachable state is consistent. */
  lemma ReachableIsConsistent(events: seq<Event>)
    requires Possible(Empty, events)
    ensures Inv(Run(Empty, events))
  {
    RunKeepsInv(Empty, events);
  }

  // ---------------------------------------------------------------- who is where

  /** Joining lists the socket in the production, its user with it, and changes no other list. */
  lemma JoinedIsListed(s: State, c: SocketId, p: ProductionId, u: UserId, q: ProductionId, d: SocketId)
    ensures var s' := Step(s, Associate(c, p));
            && c in SocketsOf(s'.productionToSockets, p)
            && (Uses(s.activeSockets, u, c) ==> OnlineIn(s', p, u))
            && (d != c || q != p ==>
                  (d in SocketsOf(s'.productionToSockets, q) <==> d in SocketsOf(s.productionToSockets, q)))
            && s' == s.(productionToSockets := s'.productionToSockets)
  {
    if Uses(s.activeSockets, u, c) {
      assert c in SocketsOf(Step(s, Associate(c, p)).productionToSockets, p);
    }
  }

  /** An upsert shows the new presence on its socket, ends the user's grace, and joins the production it names. */
  lemma UpsertedIsOnline(s: State, c: SocketId, data: UserPresence, p: Option<ProductionId>, now: int, d: SocketId,
                         q: ProductionId)
    ensures var s' := Step(s, Upsert(c, data, p, now));
            && c in s'.activeSockets && s'.activeSockets[c] == data.(lastSeen := now)
            && (d != c ==> (d in s'.activeSockets <==> d in s.activeSockets))
            && (d != c && d in s.activeSockets ==> s'.activeSockets[d] == s.activeSockets[d])
            && (data.userId != "" ==> c in SocketsOf(s'.userToSockets, data.userId) && data.userId !in s'.reconnecting)
            && (data.userId != "" && p.Some? && p.value != "" ==> OnlineIn(s', p.value, data.userId))
            && (d in SocketsOf(s'.productionToSockets, q) <==>
                  d in SocketsOf(s.productionToSockets, q) || (d == c && p == Some(q) && q != ""))
  {
    var s' := UpsertStep(s, c, data, p, now);
    UpsertShape(s, c, data, p, now);
    hide UpsertStep, CancelGrace;
    if data.userId != "" && p.Some? && p.value != "" {
      assert c in SocketsOf(s'.productionToSockets, p.value) && Uses(s'.activeSockets, data.userId, c);
    }
  }

  /** A removed socket is gone from every list; the other sockets stay where they are. */
  lemma RemovedIsGone(s: State, c: SocketId, from: Option<ProductionId>, d: SocketId, key: string)
    requires Inv(s)
    ensures var s' := Step(s, Remove(c, from));
            && c !in s'.activeSockets && c !in SocketsOf(s'.productionToSockets, key)
            && c !in SocketsOf(s'.userToSockets, key)
            && (d != c ==>
                  && (d in s'.activeSockets <==> d in s.activeSockets)
                  && (d in s.activeSockets ==> s'.activeSockets[d] == s.activeSockets[d])
                  && (d in SocketsOf(s'.productionToSockets, key) <==> d in SocketsOf(s.productionToSockets, key))
                  && (d in SocketsOf(s'.userToSockets, key) <==> d in SocketsOf(s.userToSockets, key)))
  {
    RemoveKeepsInv(s, c, from);
    assert Indexed(s.userToSockets, key, c) <==> Uses(s.activeSockets, key, c);
  }

  /** A grace window starts exactly when a user's last socket goes, with the presence and production it had. */
  lemma GraceStartsIff(s: State, c: SocketId, from: Option<ProductionId>, u: UserId)
    requires Inv(s)
    ensures var s' := Step(s, Remove(c, from));
            var last := Uses(s.activeSockets, u, c) && SocketsOf(s.userToSockets, u) == {c};
            && (u in s'.reconnecting <==> u in s.reconnecting || last)
            && (last ==> s'.reconnecting[u].lastPresence == s.activeSockets[c])
            && (last ==> s'.reconnecting[u].productionId == from)
            && (u in s.reconnecting && !last ==> s'.reconnecting[u] == s.reconnecting[u])
  {
    assert Indexed(s.userToSockets, u, c) <==> Uses(s.activeSockets, u, c);
    if c in s.activeSockets {
      var v := s.activeSockets[c].userId;
      assert Indexed(s.userToSockets, v, c) <==> Uses(s.activeSockets, v, c);
    }
  }

  /** A touch writes status and time of its socket and nothing else. */
  lemma TouchedIsSeen(s: State, c: SocketId, status: string, now: int, d: SocketId)
    ensures var s' := Step(s, Touch(c, status, now));
            && s' == s.(activeSockets := s'.activeSockets) && s'.activeSockets.Keys == s.activeSockets.Keys
            && (c in s.activeSockets ==> s'.activeSockets[c].status == status && s'.activeSockets[c].lastSeen == now
                                         && s'.activeSockets[c].userId == s.activeSockets[c].userId
                                         && s'.activeSockets[c].userName == s.activeSockets[c].userName)
            && (d != c && d in s.activeSockets ==> s'.activeSockets[d] == s.activeSockets[d])
  {
  }

  // ---------------------------------------------------------------- the grace window

  /** The user comes back on some socket, or the user's own timer fires. */
  predicate EndsGrace(s: State, e: Event, u: UserId) {
    || (e.Upsert? && e.data.userId == u)
    || (e.Fire? && e.timer in s.timers && s.timers[e.timer].userId == u)
  }

  ghost predicate NeverEndsGrace(s: State, events: seq<Event>, u: UserId)
    requires Possible(s, events)
    decreases |events|
  {
    events != [] ==> !EndsGrace(s, events[0], u) && NeverEndsGrace(Step(s, events[0]), events[1..], u)
  }

  /** A step ends a user's grace exactly if it is the user's return or the user's own timer, and alters it never. */
  lemma GraceEndsIff(s: State, e: Event, u: UserId)
    requires Inv(s) && Enabled(s, e) && u in s.reconnecting
    ensures u !in Step(s, e).reconnecting <==> EndsGrace(s, e, u)
    ensures !EndsGrace(s, e, u) ==> Step(s, e).reconnecting[u] == s.reconnecting[u]
  {
    if e.Remove? && IsLastSocket(s, e.client) {
      assert s.activeSockets[e.client].userId != u;
    }
  }

  /** Nothing but the user's return or the user's own timer ends a grace window, whatever others do meanwhile. */
  lemma {:induction false} GraceSurvivesRun(s: State, events: seq<Event>, u: UserId)
    requires Inv(s) && Possible(s, events) && u in s.reconnecting && NeverEndsGrace(s, events, u)
    ensures u in Run(s, events).reconnecting && Run(s, events).reconnecting[u] == s.reconnecting[u]
    decreases |events|
  {
    if events != [] {
      GraceEndsIff(s, events[0], u);
      StepKeepsInv(s, events[0]);
      GraceSurvivesRun(Step(s, events[0]), events[1..], u);
    }
  }

  // ---------------------------------------------------------------- the member list

  ghost predicate OnlineIn(s: State, p: ProductionId, u: UserId) {
    exists c :: c in SocketsOf(s.productionToSockets, p) && Uses(s.activeSockets, u, c)
  }

  predicate GraceIn(s: State, p: ProductionId, u: UserId) {
    u in s.reconnecting && s.reconnecting[u].productionId == Some(p)
  }

  /** One entry for each member: online users with a presence of theirs, users in grace as RECONNECTING. */
  ghost predicate IsMemberList(s: State, p: ProductionId, members: map<UserId, UserPresence>) {
    && (forall u :: u in members <==> OnlineIn(s, p, u) || GraceIn(s, p, u))
    && (forall u :: OnlineIn(s, p, u) ==>
          exists c :: c in SocketsOf(s.productionToSockets, p) && Uses(s.activeSockets, u, c)
                      && members[u] == s.activeSockets[c])
    && (forall u :: GraceIn(s, p, u) && !OnlineIn(s, p, u) ==>
          members[u] == s.reconnecting[u].lastPresence.(status := "RECONNECTING"))
  }

  /**
   A user whose last socket closes is still listed in that socket's production, as RECONNECTING, in every
   state until the user returns or the grace timer fires.
   */
  lemma ListedDuringGrace(s: State, client: SocketId, p: ProductionId, events: seq<Event>,
                          members: map<UserId, UserPresence>)
    requires Inv(s) && IsLastSocket(s, client) && IsProductionOf(s, client, Some(p))
    requires var s1 := RemoveStep(s, client, Some(p)); var u := s.activeSockets[client].userId;
             Possible(s1, events) && NeverEndsGrace(s1, events, u) && IsMemberList(Run(s1, events), p, members)
    ensures var u := s.activeSockets[client].userId;
            u in members && members[u] == s.activeSockets[client].(status := "RECONNECTING")
  {
    var s1, u := RemoveStep(s, client, Some(p)), s.activeSockets[client].userId;
    RemoveKeepsInv(s, client, Some(p));
    GraceSurvivesRun(s1, events, u);
    RunKeepsInv(s1, events);
    var s2 := Run(s1, events);
    assert GraceIn(s2, p, u) && u !in s2.userToSockets;
    forall c ensures !Uses(s2.activeSockets, u, c) {
      assert !Indexed(s2.userToSockets, u, c);
    }
  }

  // ---------------------------------------------------------------- the service

  class PresenceService {
    var activeSockets: map<SocketId, UserPresence>
    var userToSockets: map<UserId, set<SocketId>>
    var productionToSockets: map<ProductionId, set<SocketId>>
    var reconnecting: map<UserId, Pending>
    var timers: map<TimerId, GraceTimer>
    var nextTimer: TimerId

    ghost function Snapshot(): State
      reads this
    {
      State(activeSockets, userToSockets, productionToSockets, reconnecting, timers, nextTimer)
    }

    constructor ()
      ensures Snapshot() == Empty && Inv(Snapshot())
    {
      activeSockets, userToSockets, productionToSockets := map[], map[], map[];
      reconnecting, timers, nextTimer := map[], map[], 0;
    }

    method UpsertPresence(clientId: SocketId, data: UserPresence, productionId: Option<ProductionId>, now: int)
      modifies this
      ensures Snapshot() == Step(old(Snapshot()), Upsert(clientId, data, productionId, now))
    {
      if data.userId != "" {
        if data.userId in reconnecting {
          timers := timers - {reconnecting[data.userId].timer};
          reconnecting := reconnecting - {data.userId};
        }
      }
      assert Snapshot() == (if data.userId != "" then CancelGrace(old(Snapshot()), data.userId) else old(Snapshot()));
      UpsertShape(old(Snapshot()), clientId, data, productionId, now);
      hide CancelGrace, UpsertStep;
      activeSockets := activeSockets[clientId := data.(lastSeen := now)];
      if data.userId != "" {
        if data.userId !in userToSockets {
          userToSockets := userToSockets[data.userId := {}];
        }
        userToSockets := userToSockets[data.userId := userToSockets[data.userId] + {clientId}];
      }
      if productionId.Some? && productionId.value != "" {
        AssociateWithProduction(clientId, productionId.value);
      }
    }

    method AssociateWithProduction(clientId: SocketId, productionId: ProductionId)
      modifies this
      ensures Snapshot() == Step(old(Snapshot()), Associate(clientId, productionId))
    {
      if productionId !in productionToSockets {
        productionToSockets := productionToSockets[productionId := {}];
      }
      productionToSockets := productionToSockets[productionId := productionToSockets[productionId] + {clientId}];
    }

    method RemovePresence(clientId: SocketId) returns (ghost from: Option<ProductionId>)
      modifies this
      ensures IsProductionOf(old(Snapshot()), clientId, from)
      ensures Snapshot() == Step(old(Snapshot()), Remove(clientId, from))
    {
      hide Without, IsProductionOf;
      var production := GetProductionForSocket(clientId);
      from := production;
      if clientId in activeSockets {
        var data := activeSockets[clientId];
        if data.userId != "" {
          if data.userId in userToSockets {
            assert IsLastSocket(Snapshot(), clientId) <==> userToSockets[data.userId] - {clientId} == {};
            userToSockets := userToSockets[data.userId := userToSockets[data.userId] - {clientId}];
            if userToSockets[data.userId] == {} {
              userToSockets := userToSockets - {data.userId};
              assert userToSockets == old(userToSockets) - {data.userId};
              StartReconnectGrace(data.userId, data, production);
            }
          }
        }
        activeSockets := activeSockets - {clientId};
      }
      DropFromProductions(clientId);
    }

    method DropFromProductions(clientId: SocketId)
      modifies this`productionToSockets
      ensures productionToSockets == Without(old(productionToSockets), clientId)
    {
      ghost var before := productionToSockets;
      var rest := productionToSockets.Keys;
      while rest != {}
        invariant rest <= before.Keys
        invariant forall p :: p in productionToSockets <==>
                    p in before && (p in rest || clientId !in before[p] || before[p] != {clientId})
        invariant forall p :: p in productionToSockets ==>
                    productionToSockets[p] == if p in rest then before[p] else before[p] - {clientId}
        decreases |rest|
      {
        var p :| p in rest;
        if clientId in productionToSockets[p] {
          productionToSockets := productionToSockets[p := productionToSockets[p] - {clientId}];
          if productionToSockets[p] == {} {
            productionToSockets := productionToSockets - {p};
          }
        }
        rest := rest - {p};
      }
      assert productionToSockets == Without(before, clientId);
    }

    method StartReconnectGrace(userId: UserId, lastPresence: UserPresence, productionId: Option<ProductionId>)
      requires userId == lastPresence.userId
      modifies this
      ensures Snapshot() == StartGrace(old(Snapshot()), lastPresence, productionId)
    {
      if userId in reconnecting {
        timers := timers - {reconnecting[userId].timer};
      }
      var timer := nextTimer;
      nextTimer := nextTimer + 1;
      timers := timers[timer := GraceTimer(userId, productionId)];
      reconnecting := reconnecting[userId := Pending(timer, lastPresence, productionId)];
    }

    /** The runtime runs the callback of a live timer. */
    method FireTimer(timer: TimerId) returns (broadcast: Option<ProductionId>)
      requires timer in timers
      modifies this
      ensures Snapshot() == Step(old(Snapshot()), Fire(timer)) && broadcast == old(timers[timer].productionId)
    {
      var callback := timers[timer];
      timers := timers - {timer};
      reconnecting := reconnecting - {callback.userId};
      broadcast := callback.productionId;
    }

    method UpdateStatus(clientId: SocketId, status: string, now: int)
      modifies this
      ensures Snapshot() == Step(old(Snapshot()), Touch(clientId, status, now))
    {
      if clientId in activeSockets {
        activeSockets := activeSockets[clientId := activeSockets[clientId].(status := status, lastSeen := now)];
      }
    }

    method Heartbeat(clientId: SocketId, now: int)
      modifies this
      ensures var o := old(Snapshot());
              Snapshot() == if clientId in o.activeSockets
                            then TouchStep(o, clientId,
                                           if o.activeSockets[clientId].status == "OFFLINE" then "IDLE"
                                           else o.activeSockets[clientId].status, now)
                            else o
    {
      if clientId in activeSockets {
        var data := activeSockets[clientId].(lastSeen := now);
        if data.status == "OFFLINE" {
          data := data.(status := "IDLE");
        }
        activeSockets := activeSockets[clientId := data];
      }
    }

    method GetProductionForSocket(clientId: SocketId) returns (p: Option<ProductionId>)
      ensures IsProductionOf(Snapshot(), clientId, p)
      ensures p.Some? ==> p.value in productionToSockets && clientId in productionToSockets[p.value]
      ensures p.None? ==> forall q :: q in productionToSockets ==> clientId !in productionToSockets[q]
    {
      var rest := productionToSockets.Keys;
      while rest != {}
        invariant rest <= productionToSockets.Keys
        invariant forall q :: q in productionToSockets && q !in rest ==> clientId !in productionToSockets[q]
        decreases |rest|
      {
        var q :| q in rest;
        if clientId in productionToSockets[q] {
          return Some(q);
        }
        rest := rest - {q};
      }
      p := None;
    }

    method GetPresenceForProduction(productionId: ProductionId) returns (members: map<UserId, UserPresence>)
      ensures IsMemberList(Snapshot(), productionId, members)
    {
      var socketIds := SocketsOf(productionToSockets, productionId);
      members := map[];
      var rest := socketIds;
      while rest != {}
        invariant rest <= socketIds
        invariant forall c :: c in socketIds - rest && c in activeSockets && activeSockets[c].userId != "" ==>
                    activeSockets[c].userId in members
        invariant forall u :: u in members ==>
                    exists c :: c in socketIds && Uses(activeSockets, u, c) && members[u] == activeSockets[c]
        decreases |rest|
      {
        var sid :| sid in rest;
        if sid in activeSockets && activeSockets[sid].userId != "" {
          members := members[activeSockets[sid].userId := activeSockets[sid]];
        }
        rest := rest - {sid};
      }
      ghost var online := members;
      assert forall u :: u in online <==> OnlineIn(Snapshot(), productionId, u);
      var users := reconnecting.Keys;
      while users != {}
        invariant users <= reconnecting.Keys
        invariant online.Keys <= members.Keys && forall u :: u in online ==> members[u] == online[u]
        invariant forall u :: u in members <==> u in online || (u !in users && GraceIn(Snapshot(), productionId, u))
        invariant forall u :: u in members && u !in online ==>
                    members[u] == reconnecting[u].lastPresence.(status := "RECONNECTING")
        decreases |users|
      {
        var u :| u in users;
        if reconnecting[u].productionId == Some(productionId) && u !in members {
          members := members[u := reconnecting[u].lastPresence.(status := "RECONNECTING")];
        }
        users := users - {u};
      }
    }
  }
}

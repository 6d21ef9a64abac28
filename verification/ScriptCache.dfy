/**
 HocuspocusService with Redis configured: Redis holds the hot copy of a document, Postgres the durable one, and
 pendingFlush the documents to copy. Every await ends a step. A document's content is one opaque value.
 */
module ScriptCache {
  import opened Wrappers

  type Doc = string
  type Content = seq<int>

  /** The flush is reading or writing a document: the batch still to do, and what was read and not yet written. */
  datatype State = State(
    redis: map<Doc, Content>,
    db: map<Doc, Content>,
    pending: set<Doc>,
    marking: multiset<Doc>,
    batch: seq<Doc>,
    inFlight: Option<(Doc, Content)>,
    stored: map<Doc, Content>)

  datatype Event =
    | StoreWrite(doc: Doc, content: Content)
    | StoreFault(doc: Doc, content: Content)
    | StoreMark(doc: Doc)
    | FlushStart(batch: seq<Doc>)
    | FlushRead(ok: bool)
    | FlushWrite(ok: bool)
    | Expire(doc: Doc)
    | Restart

  predicate Idle(s: State) {
    s.batch == [] && s.inFlight.None?
  }

  predicate NoDuplicates(docs: seq<Doc>) {
    forall i, j :: 0 <= i < j < |docs| ==> docs[i] != docs[j]
  }

  ghost predicate Enabled(s: State, e: Event) {
    match e
    case StoreWrite(_, _) => true
    case StoreFault(_, _) => true
    case StoreMark(d) => d in s.marking
    case FlushStart(batch) =>
      Idle(s) && s.pending != {} && NoDuplicates(batch) && forall d :: d in batch <==> d in s.pending
    case FlushRead(_) => s.batch != [] && s.inFlight.None?
    case FlushWrite(_) => s.inFlight.Some?
    case Expire(d) => d in s.redis
    case Restart => true
  }

  /** `stored` is history, not state of the service: the last content handed to onStoreDocument. */
  function Step(s: State, e: Event): State
    requires e.FlushRead? ==> s.batch != []
    requires e.FlushWrite? ==> s.inFlight.Some?
  {
    match e
    case StoreWrite(d, c) =>
      s.(redis := s.redis[d := c], stored := s.stored[d := c], marking := s.marking + multiset{d})
    case StoreFault(d, c) => s.(stored := s.stored[d := c], marking := s.marking + multiset{d})
    case StoreMark(d) => s.(marking := s.marking - multiset{d}, pending := s.pending + {d})
    case FlushStart(batch) => s.(batch := batch, pending := {})
    case FlushRead(ok) =>
      var d, s1 := s.batch[0], s.(batch := s.batch[1..]);
      if !ok then s1.(pending := s1.pending + {d})
      else if d in s.redis then s1.(inFlight := Some((d, s.redis[d])))
      else s1
    case FlushWrite(ok) =>
      var (d, c) := s.inFlight.value;
      if ok then s.(inFlight := None, db := s.db[d := c]) else s.(inFlight := None, pending := s.pending + {d})
    case Expire(d) => s.(redis := s.redis - {d})
    case Restart => s.(pending := {}, marking := multiset{}, batch := [], inFlight := None)
  }

  /** `onLoadDocument`: Redis first, then Postgres, then an empty document. */
  function Load(s: State, d: Doc): Option<Content> {
    if d in s.redis then Some(s.redis[d]) else if d in s.db then Some(s.db[d]) else None
  }

  function Lookup(m: map<Doc, Content>, d: Doc): Option<Content> {
    if d in m then Some(m[d]) else None
  }

  // ---------------------------------------------------------------- nothing is lost

  /** Some later step will look at the document again. */
  predicate Queued(s: State, d: Doc) {
    d in s.pending || d in s.batch || d in s.marking
  }

  predicate InFlight(s: State, d: Doc) {
    s.inFlight.Some? && s.inFlight.value.0 == d
  }

  ghost predicate DocInv(s: State, d: Doc) {
    && Load(s, d) == Lookup(s.stored, d)
    && (!Queued(s, d) ==>
          if InFlight(s, d) then Some(s.inFlight.value.1) == Lookup(s.stored, d)
          else Lookup(s.db, d) == Lookup(s.stored, d))
    && (InFlight(s, d) && d !in s.redis ==> Some(s.inFlight.value.1) == Lookup(s.stored, d))
  }

  /** A document whose copies differ is queued or in flight; what a load returns is the last stored state. */
  ghost predicate Inv(s: State) {
    forall d :: DocInv(s, d)
  }

  /** The durable copy is up to date, and no older content is about to overwrite it. */
  predicate CaughtUp(s: State, d: Doc) {
    d in s.redis && Lookup(s.db, d) == Some(s.redis[d]) && (InFlight(s, d) ==> s.inFlight.value.1 == s.redis[d])
  }

  /** Postgres has what Redis has. */
  ghost predicate Durable(s: State) {
    forall d :: d in s.redis ==> Lookup(s.db, d) == Some(s.redis[d])
  }

  /**
   Redis accepted the stores, and did not drop a document whose durable copy was behind; the service, which forgets
   its queue, did not restart while one was.
   */
  ghost predicate Healthy(s: State, e: Event) {
    match e
    case StoreFault(_, _) => false
    case Expire(d) => CaughtUp(s, d)
    case Restart => Durable(s)
    case _ => true
  }

  lemma StepKeepsDoc(s: State, e: Event, d: Doc)
    requires DocInv(s, d) && Enabled(s, e) && Healthy(s, e)
    ensures DocInv(Step(s, e), d)
  {
    var s' := Step(s, e);
    match e
    case FlushStart(batch) => assert d in batch <==> d in s.pending;
    case FlushRead(_) => assert s.batch == [s.batch[0]] + s.batch[1..];
    case _ =>
  }

  /** When Redis refuses a store, the invariant survives exactly when the content was the readable one already. */
  lemma StoreFaultKeepsInvIff(s: State, d: Doc, c: Content)
    requires Inv(s)
    ensures Inv(Step(s, StoreFault(d, c))) <==> Load(s, d) == Some(c)
  {
    var s' := Step(s, StoreFault(d, c));
    assert DocInv(s, d) && (DocInv(s', d) <==> Load(s, d) == Some(c));
    forall e | e != d ensures DocInv(s', e) {
      assert DocInv(s, e);
    }
  }

  /** When Redis drops a document, the invariant survives exactly when the durable copy had caught up. */
  lemma ExpiryKeepsInvIff(s: State, d: Doc)
    requires Inv(s) && d in s.redis
    ensures Inv(Step(s, Expire(d))) <==> CaughtUp(s, d)
  {
    var s' := Step(s, Expire(d));
    assert DocInv(s, d) && (CaughtUp(s, d) <==> DocInv(s', d));
    forall e | e != d ensures DocInv(s', e) {
      assert DocInv(s, e);
    }
  }

  /** A restart, which keeps both stores but forgets the queue, is harmless exactly when Postgres has caught up. */
  lemma RestartKeepsInvIff(s: State)
    requires Inv(s)
    ensures Inv(Step(s, Restart)) <==> Durable(s)
  {
    var s' := Step(s, Restart);
    forall d ensures DocInv(s', d) <==> d in s.redis ==> Lookup(s.db, d) == Some(s.redis[d]) {
      assert DocInv(s, d);
    }
    if Durable(s) {
      forall d ensures DocInv(s', d) {
        assert d in s.redis ==> Lookup(s.db, d) == Some(s.redis[d]);
      }
    } else {
      var d :| d in s.redis && Lookup(s.db, d) != Some(s.redis[d]);
      assert !DocInv(s', d);
    }
  }

  /** That is so after the last flush of a shutdown, if nothing failed in it and no store was under way. */
  lemma ShutdownIsDurable(s: State)
    requires Inv(s) && Idle(s) && s.pending == {} && s.marking == multiset{}
    ensures Durable(s) && Inv(Step(s, Restart))
  {
    forall d | d in s.redis ensures Lookup(s.db, d) == Some(s.redis[d]) {
      assert DocInv(s, d);
    }
    RestartKeepsInvIff(s);
  }

  ghost predicate Possible(s: State, events: seq<Event>)
    decreases |events|
  {
    events == [] || (Enabled(s, events[0]) && Possible(Step(s, events[0]), events[1..]))
  }

  ghost predicate AllHealthy(s: State, events: seq<Event>)
    requires Possible(s, events)
    decreases |events|
  {
    events != [] ==> Healthy(s, events[0]) && AllHealthy(Step(s, events[0]), events[1..])
  }

  ghost function Run(s: State, events: seq<Event>): State
    requires Possible(s, events)
    decreases |events|
  {
    if events == [] then s else Run(Step(s, events[0]), events[1..])
  }

  lemma {:induction false} RunKeepsInv(s: State, events: seq<Event>)
    requires Inv(s) && Possible(s, events) && AllHealthy(s, events)
    ensures Inv(Run(s, events))
    decreases |events|
  {
    if events != [] {
      forall d ensures DocInv(Step(s, events[0]), d) {
        assert DocInv(s, d);
        StepKeepsDoc(s, events[0], d);
      }
      RunKeepsInv(Step(s, events[0]), events[1..]);
    }
  }

  /** Before anything was stored: Redis is empty, and the last stored states are the durable ones. */
  function Initial(db: map<Doc, Content>): State {
    State(map[], db, {}, multiset{}, [], None, db)
  }

  /** In every reachable state each load returns the last stored state, and only queued documents may differ. */
  lemma LoadsReturnLastStored(db: map<Doc, Content>, events: seq<Event>, d: Doc)
    requires Possible(Initial(db), events) && AllHealthy(Initial(db), events)
    ensures var s := Run(Initial(db), events);
            && Load(s, d) == Lookup(s.stored, d)
            && (Lookup(s.db, d) != Lookup(s.stored, d) ==> Queued(s, d) || InFlight(s, d))
  {
    forall e ensures DocInv(Initial(db), e) {
    }
    RunKeepsInv(Initial(db), events);
    assert DocInv(Run(Initial(db), events), d);
  }

  /** When nothing is queued or in flight, Postgres holds the last stored state of every document. */
  lemma QuiescentMeansDurable(db: map<Doc, Content>, events: seq<Event>)
    requires Possible(Initial(db), events) && AllHealthy(Initial(db), events)
    requires var s := Run(Initial(db), events); Idle(s) && s.pending == {} && s.marking == multiset{}
    ensures Run(Initial(db), events).db == Run(Initial(db), events).stored
  {
    var s := Run(Initial(db), events);
    forall d ensures Lookup(s.db, d) == Lookup(s.stored, d) {
      LoadsReturnLastStored(db, events, d);
    }
    assert forall d :: d in s.db <==> Lookup(s.db, d).Some?;
    assert forall d :: d in s.stored <==> Lookup(s.stored, d).Some?;
    assert forall d :: d in s.db ==> Lookup(s.db, d) == Some(s.db[d]);
    assert forall d :: d in s.stored ==> Lookup(s.stored, d) == Some(s.stored[d]);
  }

  /**
   No step but a restart loses a document from the queue: everything pending or in the batch stays queued until it is
   written.
   */
  lemma FlushDropsOnlyWrittenDocs(s: State, e: Event, d: Doc)
    requires !e.Restart? && Enabled(s, e) && (Queued(s, d) || InFlight(s, d))
    requires e == FlushRead(true) && s.batch[0] == d ==> d in s.redis
    ensures Queued(Step(s, e), d) || InFlight(Step(s, e), d) || (e == FlushWrite(true) && InFlight(s, d))
  {
  }

  /**
   The warning that a store which Redis refused "will still persist to DB" is not what happens: the flush copies
   what Redis has, so the refused content never arrives although the queue ends empty.
   */
  lemma RefusedStoreIsLost(d: Doc, c: Content)
    ensures var events := [StoreFault(d, c), StoreMark(d), FlushStart([d]), FlushRead(true)];
            Possible(Initial(map[]), events) &&
            var s := Run(Initial(map[]), events);
            Idle(s) && !Queued(s, d) && d !in s.db && Lookup(s.stored, d) == Some(c) && Load(s, d) == None
  {
    hide Possible, Run, Step;
    var s1 := Step(Initial(map[]), StoreFault(d, c));
    var s2 := Step(s1, StoreMark(d));
    var s3 := Step(s2, FlushStart([d]));
    RefusedStep(d, c);
    var e3 := [FlushRead(true)];
    var e2 := [FlushStart([d]), FlushRead(true)];
    var e1 := [StoreMark(d), FlushStart([d]), FlushRead(true)];
    Unroll(s3, e3);
    Unroll(s2, e2);
    Unroll(s1, e1);
    Unroll(Initial(map[]), [StoreFault(d, c), StoreMark(d), FlushStart([d]), FlushRead(true)]);
    assert [StoreFault(d, c), StoreMark(d), FlushStart([d]), FlushRead(true)][1..] == e1;
    assert e1[1..] == e2 && e2[1..] == e3 && e3[1..] == [];
    Unroll(Step(s3, FlushRead(true)), []);
  }

  lemma Unroll(s: State, events: seq<Event>)
    ensures events == [] ==> Possible(s, events) && Run(s, events) == s
    ensures events != [] && Enabled(s, events[0]) ==>
              (Possible(s, events) <==> Possible(Step(s, events[0]), events[1..]))
    ensures events != [] && Possible(s, events) ==>
        Enabled(s, events[0]) && Run(s, events) == Run(Step(s, events[0]), events[1..])
  {
  }

  lemma RefusedStep(d: Doc, c: Content)
    ensures var s0 := Initial(map[]);
            var s1 := Step(s0, StoreFault(d, c));
            var s2 := Step(s1, StoreMark(d));
            var s3 := Step(s2, FlushStart([d]));
            && Enabled(s0, StoreFault(d, c)) && Enabled(s1, StoreMark(d)) && Enabled(s2, FlushStart([d]))
            && Enabled(s3, FlushRead(true))
            && var s4 := Step(s3, FlushRead(true));
               Idle(s4) && !Queued(s4, d) && d !in s4.db && Lookup(s4.stored, d) == Some(c) && Load(s4, d) == None
  {
  }

  // ---------------------------------------------------------------- the service

  /** The events of one round of the flush loop on the first document of the batch. */
  function RoundEvents(s: State, canRead: bool, canWrite: bool): seq<Event>
    requires s.batch != []
  {
    [FlushRead(canRead)] + if canRead && s.batch[0] in s.redis then [FlushWrite(canWrite)] else []
  }

  /** The state after one round. */
  function AfterRound(s: State, canRead: bool, canWrite: bool): State
    requires s.batch != []
  {
    var d := s.batch[0];
    var s1 := s.(batch := s.batch[1..]);
    if canRead && d in s.redis && canWrite then s1.(db := s.db[d := s.redis[d]])
    else if canRead && d !in s.redis then s1
    else s1.(pending := s.pending + {d})
  }

  /** A run of the machine without refused stores and expiries. */
  ghost predicate Leads(s: State, events: seq<Event>, s': State) {
    Possible(s, events) && AllHealthy(s, events) && Run(s, events) == s'
  }

  lemma LeadsOne(s: State, e: Event)
    requires Enabled(s, e) && Healthy(s, e)
    ensures Leads(s, [e], Step(s, e))
  {
  }

  lemma {:induction false} LeadsOn(s: State, a: seq<Event>, m: State, b: seq<Event>, s': State)
    requires Leads(s, a, m) && Leads(m, b, s')
    ensures Leads(s, a + b, s')
    decreases |a|
  {
    if a == [] {
      assert a + b == b;
    } else {
      LeadsOn(Step(s, a[0]), a[1..], m, b, s');
      assert (a + b)[1..] == a[1..] + b;
    }
  }

  lemma RoundLeads(s: State, canRead: bool, canWrite: bool)
    requires s.batch != [] && s.inFlight.None?
    ensures Leads(s, RoundEvents(s, canRead, canWrite), AfterRound(s, canRead, canWrite))
  {
    var s1 := Step(s, FlushRead(canRead));
    LeadsOne(s, FlushRead(canRead));
    if s1.inFlight.Some? {
      LeadsOne(s1, FlushWrite(canWrite));
      LeadsOn(s, [FlushRead(canRead)], s1, [FlushWrite(canWrite)], AfterRound(s, canRead, canWrite));
    }
  }

  class HocuspocusService {
    var redis: map<Doc, Content>
    var db: map<Doc, Content>
    var pendingFlush: set<Doc>
    /** History: the last content handed to onStoreDocument. */
    ghost var stored: map<Doc, Content>

    /** Between calls no store and no flush is under way. */
    ghost function Snapshot(): State
      reads this
    {
      Flushing([])
    }

    /** While a flush still has these documents to do. */
    ghost function Flushing(batch: seq<Doc>): State
      reads this
    {
      State(redis, db, pendingFlush, multiset{}, batch, None, stored)
    }

    constructor (db: map<Doc, Content>)
      ensures Snapshot() == Initial(db)
    {
      this.db, redis, pendingFlush, stored := db, map[], {}, db;
    }

    method OnLoadDocument(documentName: Doc, redisAnswers: bool) returns (content: Option<Content>)
      ensures redisAnswers ==> content == Load(Snapshot(), documentName)
      ensures !redisAnswers ==> content == Lookup(db, documentName)
    {
      if redisAnswers && documentName in redis {
        return Some(redis[documentName]);
      }
      content := if documentName in db then Some(db[documentName]) else None;
    }

    method OnStoreDocument(documentName: Doc, content: Content, redisAccepts: bool)
      modifies this
      ensures var write := if redisAccepts then StoreWrite(documentName, content)
                           else StoreFault(documentName, content);
              Snapshot() == Step(Step(old(Snapshot()), write), StoreMark(documentName))
    {
      stored := stored[documentName := content];
      if redisAccepts {
        redis := redis[documentName := content];
      }
      pendingFlush := pendingFlush + {documentName};
    }

    /** One round of the flush loop; an exception of Redis or Postgres queues the document again. */
    method FlushDocument(documentName: Doc, canRead: bool, canWrite: bool,
                         ghost rest: seq<Doc>, ghost s0: State, ghost before: seq<Event>)
      returns (ghost events: seq<Event>)
      requires Leads(s0, before, Flushing([documentName] + rest))
      modifies this`db, this`pendingFlush
      ensures Leads(s0, events, Flushing(rest))
      ensures pendingFlush ==
              old(pendingFlush) + if canRead && (documentName in redis ==> canWrite) then {} else {documentName}
      ensures db == if canRead && documentName in redis && canWrite
                    then old(db)[documentName := redis[documentName]] else old(db)
    {
      hide Leads, Step, RoundEvents;
      ghost var mid := Flushing([documentName] + rest);
      RoundLeads(mid, canRead, canWrite);
      if canRead {
        if documentName in redis {
          if canWrite {
            db := db[documentName := redis[documentName]];
          } else {
            pendingFlush := pendingFlush + {documentName};
          }
        }
      } else {
        pendingFlush := pendingFlush + {documentName};
      }
      assert ([documentName] + rest)[1..] == rest;
      events := before + RoundEvents(mid, canRead, canWrite);
      LeadsOn(s0, before, mid, RoundEvents(mid, canRead, canWrite), Flushing(rest));
    }

    /** `[...this.pendingFlush]`, in some order. */
    method Batch() returns (batch: seq<Doc>)
      ensures NoDuplicates(batch) && forall d :: d in batch <==> d in pendingFlush
    {
      batch := [];
      var rest := pendingFlush;
      while rest != {}
        invariant rest <= pendingFlush && NoDuplicates(batch)
        invariant forall d :: d in batch <==> d in pendingFlush && d !in rest
        decreases |rest|
      {
        var d :| d in rest;
        batch := batch + [d];
        rest := rest - {d};
      }
    }

    /**
     `flushPendingToDB` without interleaving, for given sets of documents that Redis and Postgres fail on: a run of
     the machine. Exactly the documents that hit a fault are pending again; all others are as durable as Redis knows.
     */
    method FlushPendingToDB(unreadable: set<Doc>, unwritable: set<Doc>) returns (ghost events: seq<Event>)
      modifies this`db, this`pendingFlush
      ensures Leads(old(Snapshot()), events, Snapshot())
      ensures forall d :: d in pendingFlush <==> d in old(pendingFlush) && Fails(d, unreadable, unwritable, redis)
      ensures db == Copied(old(db), redis, old(pendingFlush) - unreadable - unwritable)
    {
      events := [];
      if pendingFlush == {} {
        return;
      }
      hide Copied, Leads, Step, RoundEvents;
      ghost var s0, before, db0 := Snapshot(), pendingFlush, db;
      ghost var copied: set<Doc> := {};
      CopyNothing(db0, redis);
      var batch := Batch();
      FlushStartLeads(s0, batch);
      events := [FlushStart(batch)];
      pendingFlush := {};
      for i := 0 to |batch|
        invariant forall d :: d in pendingFlush <==> d in batch[..i] && Fails(d, unreadable, unwritable, redis)
        invariant forall d :: d in copied <==> d in batch[..i] && d !in unreadable && d !in unwritable
        invariant db == Copied(db0, redis, copied)
        invariant Leads(s0, events, Flushing(batch[i..]))
      {
        var d := batch[i];
        CopyOneMore(db0, redis, copied, d);
        assert batch[i..] == [d] + batch[i + 1..] && batch[..i + 1] == batch[..i] + [d];
        events := FlushDocument(d, d !in unreadable, d !in unwritable, batch[i + 1..], s0, events);
        if d !in unreadable && d !in unwritable {
          copied := copied + {d};
        }
      }
      assert batch[..|batch|] == batch && batch[|batch|..] == [];
      assert copied == before - unreadable - unwritable;
    }
  }

  lemma FlushStartLeads(s: State, batch: seq<Doc>)
    requires Enabled(s, FlushStart(batch))
    ensures Leads(s, [FlushStart(batch)], s.(batch := batch, pending := {}))
  {
  }

  predicate Fails(d: Doc, unreadable: set<Doc>, unwritable: set<Doc>, redis: map<Doc, Content>) {
    d in unreadable || (d in unwritable && d in redis)
  }

  /** The map `to` with the listed documents overwritten from `from`, where it has them. */
  function Copied(to: map<Doc, Content>, from: map<Doc, Content>, docs: set<Doc>): map<Doc, Content> {
    to + map d | d in docs && d in from :: from[d]
  }

  lemma CopyNothing(to: map<Doc, Content>, from: map<Doc, Content>)
    ensures Copied(to, from, {}) == to
  {
  }

  lemma CopyOneMore(to: map<Doc, Content>, from: map<Doc, Content>, docs: set<Doc>, d: Doc)
    ensures Copied(to, from, docs + {d}) ==
            if d in from then Copied(to, from, docs)[d := from[d]] else Copied(to, from, docs)
  {
  }
}

/** TimelineService: the blocks of all productions and their life cycle. Every service call is one step. */
module Timeline {
  import opened Wrappers

  type BlockId = string
  type ProductionId = string

  datatype Status = PENDING | ACTIVE | COMPLETED

  /** What create and update may set; `order` is one of the columns. */
  datatype Details = Details(title: string, durationMs: int, order: int)

  datatype Block = Block(productionId: ProductionId, details: Details, status: Status,
                         startTime: Option<int>, endTime: Option<int>)

  type Blocks = map<BlockId, Block>

  datatype TimelineError = NotFound | AlreadyActive | DatabaseError

  /** `startBlock` reads the clock when it closes the active blocks and again for the new start. */
  datatype Call =
    | Create(id: BlockId, productionId: ProductionId, dto: Details)
    | Update(id: BlockId, productionId: ProductionId, dto: Details)
    | Delete(id: BlockId, productionId: ProductionId)
    | Reorder(productionId: ProductionId, blockIds: seq<BlockId>)
    | Start(id: BlockId, productionId: ProductionId, closedAt: int, startedAt: int)
    | Complete(id: BlockId, productionId: ProductionId, now: int)
    | Reset(id: BlockId, productionId: ProductionId)

  /** `findFirst({ where: { id, productionId } })`. */
  predicate Owns(t: Blocks, id: BlockId, productionId: ProductionId) {
    id in t && t[id].productionId == productionId
  }

  function CloseActive(t: Blocks, productionId: ProductionId, now: int): Blocks {
    map id | id in t ::
      if t[id].productionId == productionId && t[id].status == ACTIVE
      then t[id].(status := COMPLETED, endTime := Some(now)) else t[id]
  }

  function StartStep(t: Blocks, id: BlockId, productionId: ProductionId, closedAt: int, startedAt: int)
    : (Blocks, Result<(), TimelineError>)
  {
    if !Owns(t, id, productionId) then (t, Err(NotFound))
    else if t[id].status == ACTIVE then (t, Err(AlreadyActive))
    else
      var started := t[id].(status := ACTIVE, startTime := Some(startedAt), endTime := None);
      (CloseActive(t, productionId, closedAt)[id := started], Ok(()))
  }

  /** The listed blocks get their positions as order; the last position counts for an id listed twice. */
  function Reordered(t: Blocks, blockIds: seq<BlockId>): (r: Blocks)
    requires forall id :: id in blockIds ==> id in t
    ensures r.Keys == t.Keys
  {
    if blockIds == [] then t
    else
      var front, last := blockIds[..|blockIds| - 1], blockIds[|blockIds| - 1];
      var r := Reordered(t, front);
      r[last := WithOrder(r[last], |front|)]
  }

  function WithOrder(b: Block, order: int): Block {
    b.(details := b.details.(order := order))
  }

  function Step(t: Blocks, c: Call): (Blocks, Result<(), TimelineError>) {
    match c
    case Create(id, productionId, dto) =>
      if id in t then (t, Err(DatabaseError)) else (t[id := Block(productionId, dto, PENDING, None, None)], Ok(()))
    case Update(id, productionId, dto) =>
      if !Owns(t, id, productionId) then (t, Err(NotFound)) else (t[id := t[id].(details := dto)], Ok(()))
    case Delete(id, productionId) =>
      if !Owns(t, id, productionId) then (t, Err(NotFound)) else (t - {id}, Ok(()))
    case Reorder(_, blockIds) =>
      if exists id :: id in blockIds && id !in t then (t, Err(DatabaseError)) else (Reordered(t, blockIds), Ok(()))
    case Start(id, productionId, closedAt, startedAt) => StartStep(t, id, productionId, closedAt, startedAt)
    case Complete(id, productionId, now) =>
      if !Owns(t, id, productionId) then (t, Err(NotFound))
      else (t[id := t[id].(status := COMPLETED, endTime := Some(now))], Ok(()))
    case Reset(id, productionId) =>
      if !Owns(t, id, productionId) then (t, Err(NotFound))
      else (t[id := t[id].(status := PENDING, startTime := None, endTime := None)], Ok(()))
  }

  // ---------------------------------------------------------------- runs under a clock

  /** The latest clock reading of a call. */
  function ClockAfter(clock: int, c: Call): int {
    if c.Start? then c.startedAt else if c.Complete? then c.now else clock
  }

  /** Clock readings never go back. */
  predicate Timely(clock: int, c: Call) {
    (c.Start? ==> clock <= c.closedAt <= c.startedAt) && (c.Complete? ==> clock <= c.now)
  }

  datatype State = State(blocks: Blocks, clock: int)

  function StateStep(s: State, c: Call): State {
    State(Step(s.blocks, c).0, ClockAfter(s.clock, c))
  }

  function Run(s: State, calls: seq<Call>): State {
    if calls == [] then s else StateStep(Run(s, calls[..|calls| - 1]), calls[|calls| - 1])
  }

  ghost predicate Possible(s: State, calls: seq<Call>) {
    forall k :: 0 <= k < |calls| ==> Timely(Run(s, calls[..k]).clock, calls[k])
  }

  lemma PossibleFront(s: State, calls: seq<Call>)
    requires calls != [] && Possible(s, calls)
    ensures var front, last := calls[..|calls| - 1], calls[|calls| - 1];
            Possible(s, front) && Timely(Run(s, front).clock, last)
  {
    var front := calls[..|calls| - 1];
    assert forall k :: 0 <= k < |front| ==> front[k] == calls[k] && front[..k] == calls[..k];
  }

  // ---------------------------------------------------------------- status and timestamps

  /** The timestamps determine the status. */
  function StatusFromTimes(b: Block): Status {
    if b.endTime.Some? then COMPLETED else if b.startTime.Some? then ACTIVE else PENDING
  }

  predicate BlockInv(b: Block, clock: int) {
    && b.status == StatusFromTimes(b)
    && (b.startTime.Some? ==> b.startTime.value <= clock)
    && (b.endTime.Some? ==> b.endTime.value <= clock && (b.startTime.Some? ==> b.startTime.value <= b.endTime.value))
  }

  ghost predicate BlocksInv(t: Blocks, clock: int) {
    forall id :: id in t ==> BlockInv(t[id], clock)
  }

  predicate BothActive(t: Blocks, a: BlockId, b: BlockId) {
    a in t && b in t && t[a].status == ACTIVE && t[b].status == ACTIVE
  }

  ghost predicate OneActive(t: Blocks) {
    forall a, b :: BothActive(t, a, b) && t[a].productionId == t[b].productionId ==> a == b
  }

  ghost predicate Inv(s: State) {
    BlocksInv(s.blocks, s.clock) && OneActive(s.blocks)
  }

  /** Reordering changes nothing but the order column. */
  lemma {:induction false} ReorderKeepsRest(t: Blocks, blockIds: seq<BlockId>)
    requires forall id :: id in blockIds ==> id in t
    ensures var r := Reordered(t, blockIds);
            forall id :: id in t ==>
              r[id] == WithOrder(t[id], r[id].details.order) && (id !in blockIds ==> r[id] == t[id])
  {
    if blockIds != [] {
      ReorderKeepsRest(t, blockIds[..|blockIds| - 1]);
    }
  }

  /** A list without duplicates becomes the order of its blocks. */
  lemma {:induction false} ReorderSetsPositions(t: Blocks, blockIds: seq<BlockId>, k: nat)
    requires forall id :: id in blockIds ==> id in t
    requires k < |blockIds| && forall j :: k < j < |blockIds| ==> blockIds[j] != blockIds[k]
    ensures Reordered(t, blockIds)[blockIds[k]].details.order == k
  {
    if k < |blockIds| - 1 {
      ReorderSetsPositions(t, blockIds[..|blockIds| - 1], k);
    }
  }

  lemma StartKeeps(t: Blocks, clock: int, id: BlockId, productionId: ProductionId, closedAt: int, startedAt: int)
    requires BlocksInv(t, clock) && OneActive(t) && clock <= closedAt <= startedAt
    ensures var later := StartStep(t, id, productionId, closedAt, startedAt).0;
            BlocksInv(later, startedAt) && OneActive(later)
  {
    StartKeepsOneActive(t, id, productionId, closedAt, startedAt);
    hide OneActive;
    var later := StartStep(t, id, productionId, closedAt, startedAt).0;
    forall i | i in later ensures BlockInv(later[i], startedAt) {
      assert BlockInv(t[i], clock);
    }
  }

  lemma StartKeepsOneActive(t: Blocks, id: BlockId, productionId: ProductionId, closedAt: int, startedAt: int)
    requires OneActive(t)
    ensures OneActive(StartStep(t, id, productionId, closedAt, startedAt).0)
  {
  }

  /** Only columns outside the life cycle differ. */
  predicate SameLife(a: Block, b: Block) {
    a.productionId == b.productionId && a.status == b.status && a.startTime == b.startTime && a.endTime == b.endTime
  }

  predicate AllSameLife(t: Blocks, r: Blocks) {
    r.Keys == t.Keys && forall id :: id in t ==> SameLife(t[id], r[id])
  }

  lemma SameLifeKeeps(t: Blocks, r: Blocks, clock: int)
    requires BlocksInv(t, clock) && OneActive(t) && AllSameLife(t, r)
    ensures BlocksInv(r, clock) && OneActive(r)
  {
    forall id | id in r ensures BlockInv(r[id], clock) {
      assert BlockInv(t[id], clock) && SameLife(t[id], r[id]);
    }
    forall a, b | BothActive(r, a, b) && r[a].productionId == r[b].productionId ensures a == b {
      assert SameLife(t[a], r[a]) && SameLife(t[b], r[b]);
      assert BothActive(t, a, b);
    }
  }

  /** A block that is not active may be written at any time. */
  lemma PutInactiveKeeps(t: Blocks, clock: int, later: int, id: BlockId, b: Block)
    requires BlocksInv(t, clock) && OneActive(t) && clock <= later && BlockInv(b, later) && b.status != ACTIVE
    ensures BlocksInv(t[id := b], later) && OneActive(t[id := b])
  {
    hide BlockInv;
    var r := t[id := b];
    forall i | i in r ensures BlockInv(r[i], later) {
      if i != id {
        LaterKeepsBlock(t[i], clock, later);
      }
    }
    forall i, j | BothActive(r, i, j) && r[i].productionId == r[j].productionId ensures i == j {
      assert BothActive(t, i, j);
    }
  }

  lemma LaterKeepsBlock(b: Block, clock: int, later: int)
    requires BlockInv(b, clock) && clock <= later
    ensures BlockInv(b, later)
  {
  }

  lemma DeleteKeeps(t: Blocks, clock: int, id: BlockId)
    requires BlocksInv(t, clock) && OneActive(t)
    ensures BlocksInv(t - {id}, clock) && OneActive(t - {id})
  {
    forall i, j | BothActive(t - {id}, i, j) && t[i].productionId == t[j].productionId ensures i == j {
      assert BothActive(t, i, j);
    }
  }

  lemma OtherStepsKeep(t: Blocks, clock: int, c: Call)
    requires BlocksInv(t, clock) && OneActive(t) && Timely(clock, c) && !c.Start? && Step(t, c).1.Ok?
    ensures var later := Step(t, c).0; BlocksInv(later, ClockAfter(clock, c)) && OneActive(later)
  {
    var later := Step(t, c).0;
    match c
    case Create(id, _, _) =>
      hide BlocksInv, OneActive;
      PutInactiveKeeps(t, clock, clock, id, later[id]);
    case Update(_, _, _) =>
      hide BlocksInv, OneActive;
      SameLifeKeeps(t, later, clock);
    case Delete(id, _) => DeleteKeeps(t, clock, id);
    case Reorder(_, blockIds) =>
      hide BlocksInv, OneActive;
      ReorderKeepsRest(t, blockIds);
      SameLifeKeeps(t, later, clock);
    case Complete(id, _, now) =>
      assert BlockInv(t[id], clock);
      hide BlocksInv, OneActive;
      PutInactiveKeeps(t, clock, now, id, later[id]);
    case Reset(id, _) =>
      hide BlocksInv, OneActive;
      PutInactiveKeeps(t, clock, clock, id, later[id]);
  }

  lemma LaterKeepsBlocks(t: Blocks, clock: int, later: int)
    requires BlocksInv(t, clock) && clock <= later
    ensures BlocksInv(t, later)
  {
    hide BlockInv;
    forall i | i in t ensures BlockInv(t[i], later) {
      LaterKeepsBlock(t[i], clock, later);
    }
  }

  lemma StepKeepsInv(s: State, c: Call)
    requires Inv(s) && Timely(s.clock, c)
    ensures Inv(StateStep(s, c))
  {
    hide BlocksInv, OneActive, StartStep, Step;
    if Step(s.blocks, c).1.Err? {
      RefusedCallsChangeNothing(s.blocks, c);
      LaterKeepsBlocks(s.blocks, s.clock, ClockAfter(s.clock, c));
    } else if c.Start? {
      StartKeeps(s.blocks, s.clock, c.id, c.productionId, c.closedAt, c.startedAt);
      StartIsStartStep(s.blocks, c);
    } else {
      OtherStepsKeep(s.blocks, s.clock, c);
    }
  }

  lemma StartIsStartStep(t: Blocks, c: Call)
    requires c.Start?
    ensures Step(t, c) == StartStep(t, c.id, c.productionId, c.closedAt, c.startedAt)
  {
  }

  /** In every reachable state a production has at most one active block, and timestamps determine every status. */
  lemma {:induction false} RunKeepsInv(s: State, calls: seq<Call>)
    requires Inv(s) && Possible(s, calls)
    ensures Inv(Run(s, calls))
  {
    hide Inv, StateStep;
    if calls != [] {
      PossibleFront(s, calls);
      RunKeepsInv(s, calls[..|calls| - 1]);
      StepKeepsInv(Run(s, calls[..|calls| - 1]), calls[|calls| - 1]);
    }
  }

  /**
   A successful start closes what was active in the production no later than the new start, and nothing else changes.
   */
  lemma StartHandsOver(s: State, c: Call, other: BlockId)
    requires Inv(s) && c.Start? && Timely(s.clock, c) && Step(s.blocks, c).1.Ok?
    requires other in s.blocks && other != c.id
    ensures var later := Step(s.blocks, c).0;
            && c.id in later && later[c.id].status == ACTIVE && later[c.id].startTime == Some(c.startedAt)
            && other in later
            && (if s.blocks[other].productionId == c.productionId && s.blocks[other].status == ACTIVE
                then later[other].status == COMPLETED && later[other].startTime == s.blocks[other].startTime
                     && later[other].endTime == Some(c.closedAt) && c.closedAt <= c.startedAt
                else later[other] == s.blocks[other])
  {
  }

  predicate IsLifeCycleCall(c: Call, id: BlockId) {
    (c.Start? || c.Complete? || c.Reset?) && c.id == id
  }

  lemma {:induction false} LifeCycleKeepsRow(s: State, calls: seq<Call>, id: BlockId)
    requires id in s.blocks && forall k :: 0 <= k < |calls| ==> IsLifeCycleCall(calls[k], id)
    ensures var b := Run(s, calls).blocks;
            id in b && b[id].productionId == s.blocks[id].productionId && b[id].details == s.blocks[id].details
  {
    if calls != [] {
      LifeCycleKeepsRow(s, calls[..|calls| - 1], id);
    }
  }

  /** Whatever a block went through, a reset makes it the block that was created, its details untouched. */
  lemma ResetUndoesLifeCycle(s: State, calls: seq<Call>, id: BlockId)
    requires id in s.blocks && forall k :: 0 <= k < |calls| ==> IsLifeCycleCall(calls[k], id)
    ensures var b := s.blocks[id];
            var end := Step(Run(s, calls).blocks, Reset(id, b.productionId)).0;
            var created := Step(Run(s, calls).blocks - {id}, Create(id, b.productionId, b.details)).0;
            id in end && id in created && end[id] == created[id]
  {
    LifeCycleKeepsRow(s, calls, id);
  }

  /** What a successful call on one block does to it, and that it does nothing to any other unless it starts one. */
  lemma CallsTakeEffect(t: Blocks, c: Call, other: BlockId)
    requires !c.Reorder? && Step(t, c).1.Ok?
    ensures var later := Step(t, c).0;
            && (other != c.id && !c.Start? ==> (other in later <==> other in t))
            && (other != c.id && !c.Start? && other in t ==> later[other] == t[other])
            && (c.Delete? <==> c.id !in later)
            && (c.id in later ==> later[c.id].productionId == c.productionId)
            && match c
               case Create(id, _, dto) =>
                 id !in t && later[id].details == dto && later[id].status == PENDING
                 && later[id].startTime == None && later[id].endTime == None
               case Update(id, _, dto) => later[id].details == dto && SameLife(t[id], later[id])
               case Complete(id, _, now) =>
                 later[id].status == COMPLETED && later[id].endTime == Some(now)
                 && later[id].startTime == t[id].startTime && later[id].details == t[id].details
               case _ => true
  {
  }

  /** Exactly which calls are refused. */
  lemma RefusedIff(t: Blocks, c: Call)
    ensures var r := Step(t, c).1;
            match c
            case Create(id, _, _) => r.Err? <==> id in t
            case Reorder(_, blockIds) => r.Err? <==> exists id :: id in blockIds && id !in t
            case Start(id, p, _, _) =>
              && (r == Err(NotFound) <==> !(id in t && t[id].productionId == p))
              && (r == Err(AlreadyActive) <==> id in t && t[id].productionId == p && t[id].status == ACTIVE)
            case _ => r == Err(NotFound) <==> !(c.id in t && t[c.id].productionId == c.productionId)
  {
  }

  lemma RefusedCallsChangeNothing(t: Blocks, c: Call)
    ensures Step(t, c).1.Err? ==> Step(t, c).0 == t
  {
  }

  /** The blocks of other productions are as they were. */
  ghost predicate LeavesOthersAlone(t: Blocks, c: Call) {
    var later := Step(t, c).0;
    forall id :: id in t && t[id].productionId != c.productionId ==> id in later && later[id] == t[id]
  }

  /** The list ends with position k for a block of another production that stands elsewhere. */
  predicate Displaces(t: Blocks, c: Call, k: nat) {
    && c.Reorder? && k < |c.blockIds| && c.blockIds[k] in t
    && (forall j :: k < j < |c.blockIds| ==> c.blockIds[j] != c.blockIds[k])
    && t[c.blockIds[k]].productionId != c.productionId && t[c.blockIds[k]].details.order != k
  }

  /**
   A successful call changes blocks of another production exactly when it is a reorder that lists one at a new
   position: `reorderBlocks` does not ask whose blocks it is given.
   */
  lemma ProductionIsolationIff(t: Blocks, c: Call)
    requires Step(t, c).1.Ok?
    ensures LeavesOthersAlone(t, c) <==> !exists k: nat :: Displaces(t, c, k)
  {
    if c.Reorder? {
      ReorderKeepsRest(t, c.blockIds);
      if k: nat :| Displaces(t, c, k) {
        ReorderSetsPositions(t, c.blockIds, k);
      } else {
        forall id | id in t && t[id].productionId != c.productionId ensures Reordered(t, c.blockIds)[id] == t[id] {
          if id in c.blockIds {
            var k := LastPosition(c.blockIds, id);
            ReorderSetsPositions(t, c.blockIds, k);
            assert !Displaces(t, c, k);
          }
        }
      }
    }
  }

  lemma {:induction false} LastPosition(blockIds: seq<BlockId>, id: BlockId) returns (k: nat)
    requires id in blockIds
    ensures k < |blockIds| && blockIds[k] == id && forall j :: k < j < |blockIds| ==> blockIds[j] != id
  {
    if blockIds[|blockIds| - 1] == id {
      k := |blockIds| - 1;
    } else {
      k := LastPosition(blockIds[..|blockIds| - 1], id);
    }
  }

  // ---------------------------------------------------------------- times on air

  /** When the block was, or still is, on air: from startTime until endTime, or open-ended. */
  predicate EndsBy(b: Block, time: int) {
    b.endTime.Some? && b.endTime.value <= time
  }

  predicate Apart(a: Block, b: Block) {
    a.startTime.Some? && b.startTime.Some? ==> EndsBy(a, b.startTime.value) || EndsBy(b, a.startTime.value)
  }

  /** No two blocks of a production were on air at the same time, as the rows tell it. */
  ghost predicate NoOverlap(t: Blocks) {
    forall a, b :: a in t && b in t && a != b && t[a].productionId == t[b].productionId ==> Apart(t[a], t[b])
  }

  /** Another block of the production went on air after the block ended. */
  predicate OnAirSince(t: Blocks, id: BlockId, now: int)
    requires id in t
  {
    && t[id].startTime.Some? && t[id].endTime.Some?
    && exists o | o in t :: WentOnAirSince(t, id, o, now)
  }

  predicate WentOnAirSince(t: Blocks, id: BlockId, o: BlockId, now: int)
    requires id in t && t[id].startTime.Some? && t[id].endTime.Some?
  {
    && o in t && o != id && t[o].productionId == t[id].productionId && t[o].startTime.Some?
    && t[id].endTime.value <= t[o].startTime.value < now && !EndsBy(t[o], t[id].startTime.value)
  }

  /** `completeBlock` does not look at the status: completing a block again moves its end. */
  predicate MovesEndOverOthers(t: Blocks, c: Call) {
    c.Complete? && Owns(t, c.id, c.productionId) && OnAirSince(t, c.id, c.now)
  }

  lemma CompleteOverlapsIff(s: State, c: Call)
    requires Inv(s) && NoOverlap(s.blocks) && c.Complete? && Timely(s.clock, c)
    ensures NoOverlap(Step(s.blocks, c).0) <==> !MovesEndOverOthers(s.blocks, c)
  {
    var t, later := s.blocks, Step(s.blocks, c).0;
    if Owns(t, c.id, c.productionId) {
      assert BlockInv(t[c.id], s.clock);
      if MovesEndOverOthers(t, c) {
        var o :| o in t && WentOnAirSince(t, c.id, o, c.now);
        assert !Apart(later[c.id], later[o]);
      } else {
        forall o | o in t && o != c.id && t[o].productionId == t[c.id].productionId
          ensures Apart(later[c.id], later[o]) && Apart(later[o], later[c.id])
        {
          assert BlockInv(t[o], s.clock);
          assert Apart(t[c.id], t[o]);
          assert t[c.id].startTime.Some? && t[c.id].endTime.Some? ==> !WentOnAirSince(t, c.id, o, c.now);
        }
      }
    }
  }

  lemma StartKeepsApart(s: State, c: Call)
    requires Inv(s) && NoOverlap(s.blocks) && c.Start? && Timely(s.clock, c)
    ensures NoOverlap(Step(s.blocks, c).0)
  {
    var t, later := s.blocks, Step(s.blocks, c).0;
    forall a, b | a in later && b in later && a != b && later[a].productionId == later[b].productionId
      ensures Apart(later[a], later[b])
    {
      assert BlockInv(t[a], s.clock) && BlockInv(t[b], s.clock);
      assert Apart(t[a], t[b]);
    }
  }

  lemma ReorderKeepsApart(t: Blocks, blockIds: seq<BlockId>)
    requires NoOverlap(t) && forall id :: id in blockIds ==> id in t
    ensures NoOverlap(Reordered(t, blockIds))
  {
    ReorderKeepsRest(t, blockIds);
    hide Reordered;
    var r := Reordered(t, blockIds);
    assert AllSameLife(t, r);
    forall a, b | a in r && b in r && a != b && r[a].productionId == r[b].productionId ensures Apart(r[a], r[b]) {
      assert SameLife(t[a], r[a]) && SameLife(t[b], r[b]) && Apart(t[a], t[b]);
    }
  }

  /** Exactly the calls after which two blocks of a production overlap although none did before. */
  lemma OverlapArisesIff(s: State, c: Call)
    requires Inv(s) && NoOverlap(s.blocks) && Timely(s.clock, c)
    ensures NoOverlap(StateStep(s, c).blocks) <==> !MovesEndOverOthers(s.blocks, c)
  {
    if c.Complete? {
      CompleteOverlapsIff(s, c);
    } else if c.Start? {
      StartKeepsApart(s, c);
    } else if c.Reorder? {
      if forall id :: id in c.blockIds ==> id in s.blocks {
        ReorderKeepsApart(s.blocks, c.blockIds);
      }
    } else {
      hide Apart;
    }
  }

  /** Over every run in which no call moves an end over a later block, no two blocks of a production overlap. */
  lemma {:induction false} NoOverlapOverRuns(s: State, calls: seq<Call>)
    requires Inv(s) && NoOverlap(s.blocks) && Possible(s, calls)
    requires forall k :: 0 <= k < |calls| ==> !MovesEndOverOthers(Run(s, calls[..k]).blocks, calls[k])
    ensures NoOverlap(Run(s, calls).blocks)
  {
    hide Inv, StateStep, NoOverlap, MovesEndOverOthers;
    if calls != [] {
      var front := calls[..|calls| - 1];
      assert forall k :: 0 <= k < |front| ==> front[k] == calls[k] && front[..k] == calls[..k];
      PossibleFront(s, calls);
      NoOverlapOverRuns(s, front);
      RunKeepsInv(s, front);
      OverlapArisesIff(Run(s, front), calls[|calls| - 1]);
    }
  }

  /** The failing case exists: completing the first block once more after the second went on air. */
  lemma CompletingTwiceOverlaps(d: Details)
    ensures var t := map["a" := Block("p", d, COMPLETED, Some(0), Some(10)),
                         "b" := Block("p", d, ACTIVE, Some(10), None)];
            var c := Complete("a", "p", 20);
            Inv(State(t, 10)) && NoOverlap(t) && Timely(10, c) && !NoOverlap(Step(t, c).0)
  {
    var t := map["a" := Block("p", d, COMPLETED, Some(0), Some(10)), "b" := Block("p", d, ACTIVE, Some(10), None)];
    assert WentOnAirSince(t, "a", "b", 20);
    CompleteOverlapsIff(State(t, 10), Complete("a", "p", 20));
  }

  // ---------------------------------------------------------------- the service object

  class TimelineService {
    var blocks: Blocks

    method CreateBlock(id: BlockId, productionId: ProductionId, dto: Details) returns (r: Result<(), TimelineError>)
      modifies this
      ensures (blocks, r) == Step(old(blocks), Create(id, productionId, dto))
    {
      if id in blocks {
        return Err(DatabaseError);
      }
      blocks := blocks[id := Block(productionId, dto, PENDING, None, None)];
      return Ok(());
    }

    method UpdateBlock(id: BlockId, productionId: ProductionId, dto: Details) returns (r: Result<(), TimelineError>)
      modifies this
      ensures (blocks, r) == Step(old(blocks), Update(id, productionId, dto))
    {
      if !Owns(blocks, id, productionId) {
        return Err(NotFound);
      }
      blocks := blocks[id := blocks[id].(details := dto)];
      return Ok(());
    }

    method DeleteBlock(id: BlockId, productionId: ProductionId) returns (r: Result<(), TimelineError>)
      modifies this
      ensures (blocks, r) == Step(old(blocks), Delete(id, productionId))
    {
      if !Owns(blocks, id, productionId) {
        return Err(NotFound);
      }
      blocks := blocks - {id};
      return Ok(());
    }

    /** One transaction: a missing block undoes the updates before it. */
    method ReorderBlocks(productionId: ProductionId, blockIds: seq<BlockId>) returns (r: Result<(), TimelineError>)
      modifies this
      ensures (blocks, r) == Step(old(blocks), Reorder(productionId, blockIds))
    {
      var before := blocks;
      for index := 0 to |blockIds|
        invariant forall id :: id in blockIds[..index] ==> id in before
        invariant blocks == Reordered(before, blockIds[..index])
      {
        if blockIds[index] !in blocks {
          blocks := before;
          return Err(DatabaseError);
        }
        assert blockIds[..index + 1][..index] == blockIds[..index];
        blocks := blocks[blockIds[index] := WithOrder(blocks[blockIds[index]], index)];
      }
      assert blockIds[..|blockIds|] == blockIds;
      return Ok(());
    }

    method StartBlock(id: BlockId, productionId: ProductionId, closedAt: int, startedAt: int)
      returns (r: Result<(), TimelineError>)
      modifies this
      ensures (blocks, r) == Step(old(blocks), Start(id, productionId, closedAt, startedAt))
    {
      if !Owns(blocks, id, productionId) {
        return Err(NotFound);
      }
      if blocks[id].status == ACTIVE {
        return Err(AlreadyActive);
      }
      blocks := CloseActive(blocks, productionId, closedAt);
      blocks := blocks[id := blocks[id].(status := ACTIVE, startTime := Some(startedAt), endTime := None)];
      return Ok(());
    }

    method CompleteBlock(id: BlockId, productionId: ProductionId, now: int) returns (r: Result<(), TimelineError>)
      modifies this
      ensures (blocks, r) == Step(old(blocks), Complete(id, productionId, now))
    {
      if !Owns(blocks, id, productionId) {
        return Err(NotFound);
      }
      blocks := blocks[id := blocks[id].(status := COMPLETED, endTime := Some(now))];
      return Ok(());
    }

    method ResetBlock(id: BlockId, productionId: ProductionId) returns (r: Result<(), TimelineError>)
      modifies this
      ensures (blocks, r) == Step(old(blocks), Reset(id, productionId))
    {
      if !Owns(blocks, id, productionId) {
        return Err(NotFound);
      }
      blocks := blocks[id := blocks[id].(status := PENDING, startTime := None, endTime := None)];
      return Ok(());
    }
  }
}

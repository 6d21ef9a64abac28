/**
 startCloudStream and stopCloudStream of StreamingService against LiveKit and the production table. Each call is one
 step; what LiveKit and the database do at every point inside it, including a failure that took effect, is a parameter.
 */
module CloudEgress {
  import opened Wrappers

  type ProductionId = string
  type EgressId = string

  /** The recorded egress of each production; what LiveKit runs, and for whom; the ids it ever gave out. */
  datatype State = State(
    activeEgressId: map<ProductionId, Option<EgressId>>,
    live: map<EgressId, ProductionId>,
    issued: set<EgressId>)

  /** `StartedUnseen` throws although the egress runs. */
  datatype EgressStart = Started(id: EgressId) | StartedUnseen(unseen: EgressId) | NotStarted

  /** `StoppedUnseen` throws although the egress was stopped; `Refused` throws and leaves it as it is. */
  datatype EgressStop = Stopped | StoppedUnseen | Refused

  /** `WrittenUnseen` throws although the row was written. */
  datatype Write = Written | WrittenUnseen | NotWritten

  datatype StreamError = NotFound | AlreadyActive | NoDestinations | StartFailed | NoActiveStream | DatabaseError

  datatype Reply = Started(egressId: EgressId) | StreamStopped | ResetWithWarning

  datatype Call =
    | Start(production: ProductionId, enabledDestinations: nat, roomReady: bool,
            start: EgressStart, write: Write, rollback: EgressStop)
    | Stop(production: ProductionId, stop: EgressStop, write: Write, catchWrite: Write)
    | Ends(egress: EgressId)

  // ---------------------------------------------------------------- single operations

  function WriteActive(s: State, p: ProductionId, id: Option<EgressId>, w: Write): State {
    if w.NotWritten? then s else s.(activeEgressId := s.activeEgressId[p := id])
  }

  function StopEgress(s: State, id: EgressId, outcome: EgressStop): State {
    if outcome.Refused? then s else s.(live := s.live - {id})
  }

  function RunEgress(s: State, p: ProductionId, id: EgressId): State {
    s.(live := s.live[id := p], issued := s.issued + {id})
  }

  function StartStep(s: State, c: Call): (State, Result<Reply, StreamError>)
    requires c.Start?
  {
    var p := c.production;
    if p !in s.activeEgressId then (s, Err(NotFound))
    else if s.activeEgressId[p].Some? then (s, Err(AlreadyActive))
    else if c.enabledDestinations == 0 then (s, Err(NoDestinations))
    else if !c.roomReady then (s, Err(StartFailed))
    else
      match c.start
      case NotStarted => (s, Err(StartFailed))
      case StartedUnseen(id) => (RunEgress(s, p, id), Err(StartFailed))
      case Started(id) =>
        var written := WriteActive(RunEgress(s, p, id), p, Some(id), c.write);
        if c.write.Written? then (written, Ok(Reply.Started(id)))
        else (StopEgress(written, id, c.rollback), Err(StartFailed))
  }

  function StopStep(s: State, c: Call): (State, Result<Reply, StreamError>)
    requires c.Stop?
  {
    var p := c.production;
    if p !in s.activeEgressId then (s, Err(NotFound))
    else if s.activeEgressId[p].None? then (s, Err(NoActiveStream))
    else
      var stopped := StopEgress(s, s.activeEgressId[p].value, c.stop);
      var written := if c.stop.Stopped? then WriteActive(stopped, p, None, c.write) else stopped;
      if c.stop.Stopped? && c.write.Written? then (written, Ok(StreamStopped))
      else
        var reply := if c.catchWrite.Written? then Ok(ResetWithWarning) else Err(DatabaseError);
        (WriteActive(written, p, None, c.catchWrite), reply)
  }

  /** An egress may also end by itself; the table is not told. */
  function Step(s: State, c: Call): (State, Result<Reply, StreamError>) {
    match c
    case Start(_, _, _, _, _, _) => StartStep(s, c)
    case Stop(_, _, _, _) => StopStep(s, c)
    case Ends(id) => (s.(live := s.live - {id}), Ok(StreamStopped))
  }

  /** LiveKit never gives an id twice. */
  predicate FreshIds(s: State, c: Call) {
    c.Start? ==>
      (c.start.Started? ==> c.start.id !in s.issued) && (c.start.StartedUnseen? ==> c.start.unseen !in s.issued)
  }

  function Run(s: State, calls: seq<Call>): State {
    if calls == [] then s else Step(Run(s, calls[..|calls| - 1]), calls[|calls| - 1]).0
  }

  ghost predicate Possible(s: State, calls: seq<Call>) {
    forall k :: 0 <= k < |calls| ==> FreshIds(Run(s, calls[..k]), calls[k])
  }

  // ---------------------------------------------------------------- what is recorded

  predicate Records(s: State, p: ProductionId, id: EgressId) {
    p in s.activeEgressId && s.activeEgressId[p] == Some(id)
  }

  predicate Orphaned(s: State, id: EgressId) {
    id in s.live && !Records(s, s.live[id], id)
  }

  /** Every live egress is the one recorded for its production. */
  ghost predicate AllRecorded(s: State) {
    forall id :: id in s.live ==> !Orphaned(s, id)
  }

  predicate HasRecord(s: State, p: ProductionId) {
    p in s.activeEgressId && s.activeEgressId[p].Some?
  }

  /** What runs is known: its id was given out by LiveKit, its production has a row. */
  predicate LiveOk(s: State, id: EgressId)
    requires id in s.live
  {
    id in s.issued && s.live[id] in s.activeEgressId
  }

  /** What is recorded was given out, and runs, if at all, for the production of the row. */
  predicate RecordOk(s: State, p: ProductionId)
    requires HasRecord(s, p)
  {
    var id := s.activeEgressId[p].value;
    id in s.issued && (id in s.live ==> s.live[id] == p)
  }

  ghost predicate Inv(s: State) {
    && (forall id :: id in s.live ==> LiveOk(s, id))
    && (forall p :: HasRecord(s, p) ==> RecordOk(s, p))
    && (forall p, q :: HasRecord(s, p) && HasRecord(s, q) && s.activeEgressId[p] == s.activeEgressId[q] ==> p == q)
  }

  lemma RunningKeepsInv(s: State, p: ProductionId, id: EgressId)
    requires Inv(s) && p in s.activeEgressId && id !in s.issued
    ensures Inv(RunEgress(s, p, id))
  {
    var later := RunEgress(s, p, id);
    forall e | e in later.live ensures LiveOk(later, e) {
      assert e != id ==> LiveOk(s, e);
    }
    forall q | HasRecord(later, q) ensures RecordOk(later, q) {
      assert HasRecord(s, q) && RecordOk(s, q);
    }
  }

  lemma RecordingKeepsInv(s: State, p: ProductionId, id: EgressId, w: Write)
    requires Inv(s) && p in s.activeEgressId && id in s.issued && id in s.live && s.live[id] == p
    requires forall q :: !Records(s, q, id)
    ensures Inv(WriteActive(s, p, Some(id), w))
  {
    var later := WriteActive(s, p, Some(id), w);
    forall e | e in later.live ensures LiveOk(later, e) {
      assert LiveOk(s, e);
    }
    forall q | HasRecord(later, q) ensures RecordOk(later, q) {
      assert q != p ==> HasRecord(s, q) && RecordOk(s, q);
    }
    forall a, b | HasRecord(later, a) && HasRecord(later, b) && later.activeEgressId[a] == later.activeEgressId[b]
      ensures a == b
    {
      assert !Records(s, a, id) && !Records(s, b, id);
    }
  }

  lemma ClearingKeepsInv(s: State, p: ProductionId, w: Write)
    requires Inv(s)
    ensures Inv(WriteActive(s, p, None, w))
  {
    var later := WriteActive(s, p, None, w);
    forall e | e in later.live ensures LiveOk(later, e) {
      assert LiveOk(s, e);
    }
    forall q | HasRecord(later, q) ensures RecordOk(later, q) {
      assert HasRecord(s, q) && RecordOk(s, q);
    }
  }

  lemma StoppingKeepsInv(s: State, id: EgressId, outcome: EgressStop)
    requires Inv(s)
    ensures Inv(StopEgress(s, id, outcome))
  {
    var later := StopEgress(s, id, outcome);
    forall e | e in later.live ensures LiveOk(later, e) {
      assert LiveOk(s, e);
    }
    forall q | HasRecord(later, q) ensures RecordOk(later, q) {
      assert HasRecord(s, q) && RecordOk(s, q);
    }
  }

  lemma FreshIsUnrecorded(s: State, p: ProductionId, id: EgressId)
    requires Inv(s) && id !in s.issued
    ensures forall q :: !Records(RunEgress(s, p, id), q, id)
  {
    forall q ensures !Records(RunEgress(s, p, id), q, id) {
      assert HasRecord(s, q) ==> RecordOk(s, q);
    }
  }

  lemma StartKeepsInv(s: State, c: Call)
    requires Inv(s) && FreshIds(s, c) && c.Start?
    ensures Inv(StartStep(s, c).0)
  {
    var p := c.production;
    if p in s.activeEgressId && c.start.StartedUnseen? {
      RunningKeepsInv(s, p, c.start.unseen);
    } else if p in s.activeEgressId && c.start.Started? {
      var id := c.start.id;
      hide Inv, StopEgress;
      RunningKeepsInv(s, p, id);
      FreshIsUnrecorded(s, p, id);
      RecordingKeepsInv(RunEgress(s, p, id), p, id, c.write);
      StoppingKeepsInv(WriteActive(RunEgress(s, p, id), p, Some(id), c.write), id, c.rollback);
    }
  }

  lemma StopKeepsInv(s: State, c: Call)
    requires Inv(s) && c.Stop?
    ensures Inv(StopStep(s, c).0)
  {
    hide Inv, StopEgress;
    var p := c.production;
    if HasRecord(s, p) {
      var stopped := StopEgress(s, s.activeEgressId[p].value, c.stop);
      StoppingKeepsInv(s, s.activeEgressId[p].value, c.stop);
      ClearingKeepsInv(stopped, p, c.write);
      ClearingKeepsInv(stopped, p, c.catchWrite);
      ClearingKeepsInv(WriteActive(stopped, p, None, c.write), p, c.catchWrite);
    }
  }

  lemma StepKeepsInv(s: State, c: Call)
    requires Inv(s) && FreshIds(s, c)
    ensures Inv(Step(s, c).0)
  {
    hide Inv, StartStep, StopStep;
    match c
    case Start(_, _, _, _, _, _) => StartKeepsInv(s, c);
    case Stop(_, _, _, _) => StopKeepsInv(s, c);
    case Ends(id) => StoppingKeepsInv(s, id, Stopped);
  }

  /**
   The calls that lose an egress: a start that throws although the egress runs; a failed record whose rollback is
   refused; a refused stop of a live egress after which the record is cleared all the same.
   */
  predicate Loses(s: State, c: Call) {
    match c
    case Start(p, enabled, roomReady, start, write, rollback) =>
      && p in s.activeEgressId && s.activeEgressId[p].None? && enabled > 0 && roomReady
      && (start.StartedUnseen? || (start.Started? && write.NotWritten? && rollback.Refused?))
    case Stop(p, stop, _, catchWrite) =>
      && p in s.activeEgressId && s.activeEgressId[p].Some? && s.activeEgressId[p].value in s.live
      && stop.Refused? && !catchWrite.NotWritten?
    case Ends(_) => false
  }

  lemma StartLosesIff(s: State, c: Call)
    requires Inv(s) && AllRecorded(s) && FreshIds(s, c) && c.Start?
    ensures AllRecorded(StartStep(s, c).0) <==> !Loses(s, c)
  {
    var later := StartStep(s, c).0;
    if Loses(s, c) {
      var id := if c.start.Started? then c.start.id else c.start.unseen;
      assert Orphaned(later, id);
    } else {
      forall id | id in later.live ensures !Orphaned(later, id) {
        assert id in s.live ==> !Orphaned(s, id);
      }
    }
  }

  lemma StopLosesIff(s: State, c: Call)
    requires Inv(s) && AllRecorded(s) && c.Stop?
    ensures AllRecorded(StopStep(s, c).0) <==> !Loses(s, c)
  {
    var later := StopStep(s, c).0;
    if Loses(s, c) {
      assert Orphaned(later, s.activeEgressId[c.production].value);
    } else {
      forall id | id in later.live ensures !Orphaned(later, id) {
        assert !Orphaned(s, id);
      }
    }
  }

  /** Exactly the calls after which some live egress is not the recorded one, although all were before. */
  lemma RecordLostIff(s: State, c: Call)
    requires Inv(s) && AllRecorded(s) && FreshIds(s, c)
    ensures AllRecorded(Step(s, c).0) <==> !Loses(s, c)
  {
    hide StartStep, StopStep;
    match c
    case Start(_, _, _, _, _, _) => StartLosesIff(s, c);
    case Stop(_, _, _, _) => StopLosesIff(s, c);
    case Ends(id) =>
      forall other | other in Step(s, c).0.live ensures !Orphaned(Step(s, c).0, other) {
        assert !Orphaned(s, other);
      }
  }

  /** Stopping a live egress is never refused in this call, and a start that throws has started nothing. */
  predicate LiveKitHonest(c: Call) {
    match c
    case Start(_, _, _, start, _, rollback) => !start.StartedUnseen? && !rollback.Refused?
    case Stop(_, stop, _, _) => true
    case Ends(_) => true
  }

  ghost predicate StopsWork(s: State, c: Call) {
    c.Stop? && HasRecord(s, c.production) && s.activeEgressId[c.production].value in s.live ==> !c.stop.Refused?
  }

  /**
   Over every run, whatever else fails: while stopping a live egress works and a failed start starts nothing, every
   live egress of a production is the recorded one.
   */
  lemma {:induction false} LiveEgressIsRecorded(s: State, calls: seq<Call>)
    requires Inv(s) && AllRecorded(s) && Possible(s, calls)
    requires forall k :: 0 <= k < |calls| ==> LiveKitHonest(calls[k]) && StopsWork(Run(s, calls[..k]), calls[k])
    ensures Inv(Run(s, calls)) && AllRecorded(Run(s, calls))
  {
    if calls != [] {
      var front, last := calls[..|calls| - 1], calls[|calls| - 1];
      assert forall k :: 0 <= k < |front| ==> front[k] == calls[k] && front[..k] == calls[..k];
      LiveEgressIsRecorded(s, front);
      assert !Loses(Run(s, front), last);
      hide Inv, AllRecorded, Step, Loses;
      StepKeepsInv(Run(s, front), last);
      RecordLostIff(Run(s, front), last);
    }
  }

  /**
   As long as all is recorded a production has at most one live egress, and none when a start gets past its checks.
   */
  lemma AtMostOneLive(s: State, a: EgressId, b: EgressId, c: Call)
    requires Inv(s) && AllRecorded(s) && a in s.live && b in s.live && s.live[a] == s.live[b]
    ensures a == b
    ensures c.Start? && c.production == s.live[a] ==> Step(s, c) == (s, Err(AlreadyActive))
  {
  }

  /** What the answers of the two calls mean; a call refused by its own checks changes nothing. */
  lemma RepliesAreTrue(s: State, c: Call)
    requires FreshIds(s, c) && !c.Ends?
    ensures var (later, r) := Step(s, c);
            match r
            case Ok(Started(id)) => c.Start? && Records(later, c.production, id)
                                    && id in later.live && later.live[id] == c.production
            case Ok(StreamStopped) => c.Stop? && HasRecord(s, c.production) && !HasRecord(later, c.production)
                                      && s.activeEgressId[c.production].value !in later.live
            case Ok(ResetWithWarning) => c.Stop? && HasRecord(s, c.production) && !HasRecord(later, c.production)
            case Err(e) => e in {NotFound, AlreadyActive, NoDestinations, NoActiveStream} ==> later == s
  {
  }

  /** Exactly which starts and stops succeed. */
  lemma SucceedsIff(s: State, c: Call)
    ensures c.Start? ==>
              (Step(s, c).1.Ok? <==>
                 && c.production in s.activeEgressId && s.activeEgressId[c.production] == None
                 && c.enabledDestinations > 0 && c.roomReady && c.start.Started? && c.write == Written)
    ensures c.Stop? ==>
              && (Step(s, c).1 == Ok(StreamStopped) <==>
                    HasRecord(s, c.production) && c.stop == Stopped && c.write == Written)
              && (Step(s, c).1 == Ok(ResetWithWarning) <==>
                    HasRecord(s, c.production) && !(c.stop == Stopped && c.write == Written) && c.catchWrite == Written)
  {
  }

  /** Exactly which calls are refused by their checks. */
  lemma RefusedIff(s: State, c: Call)
    ensures Step(s, c).1 == Err(NotFound) <==> !c.Ends? && c.production !in s.activeEgressId
    ensures Step(s, c).1 == Err(AlreadyActive) <==> c.Start? && HasRecord(s, c.production)
    ensures Step(s, c).1 == Err(NoActiveStream) <==>
            c.Stop? && c.production in s.activeEgressId && !HasRecord(s, c.production)
    ensures Step(s, c).1 == Err(NoDestinations) <==>
            c.Start? && c.production in s.activeEgressId && !HasRecord(s, c.production) && c.enabledDestinations == 0
  {
  }

  /** A call touches the row of its own production and no other. */
  lemma OthersUntouched(s: State, c: Call, p: ProductionId)
    requires c.Ends? || c.production != p
    ensures p in Step(s, c).0.activeEgressId <==> p in s.activeEgressId
    ensures p in s.activeEgressId ==> Step(s, c).0.activeEgressId[p] == s.activeEgressId[p]
  {
  }

  /** An egress that ends by itself is not live any more; nothing else changes. */
  lemma EndedIsGone(s: State, id: EgressId, other: EgressId)
    ensures var later := Step(s, Ends(id)).0;
            && (other in later.live <==> other in s.live && other != id)
            && (other in later.live ==> later.live[other] == s.live[other])
            && later.activeEgressId == s.activeEgressId && later.issued == s.issued
  {
  }

  /** A lost egress stays lost: no start or stop ever reaches it again; it runs until it ends by itself. */
  lemma {:induction false} OrphanRunsUntilItEnds(s: State, calls: seq<Call>, id: EgressId)
    requires Inv(s) && Orphaned(s, id) && Possible(s, calls)
    requires forall k :: 0 <= k < |calls| ==> calls[k] != Ends(id)
    ensures Inv(Run(s, calls)) && Orphaned(Run(s, calls), id)
  {
    if calls != [] {
      var front, last := calls[..|calls| - 1], calls[|calls| - 1];
      assert forall k :: 0 <= k < |front| ==> front[k] == calls[k] && front[..k] == calls[..k];
      OrphanRunsUntilItEnds(s, front, id);
      hide Inv, Orphaned, Step;
      StepKeepsInv(Run(s, front), last);
      StepKeepsOrphan(Run(s, front), last, id);
    }
  }

  lemma StepKeepsOrphan(s: State, c: Call, id: EgressId)
    requires Inv(s) && Orphaned(s, id) && FreshIds(s, c) && c != Ends(id)
    ensures Orphaned(Step(s, c).0, id)
  {
    assert LiveOk(s, id);
    if c.Stop? && HasRecord(s, c.production) {
      assert RecordOk(s, c.production);
      assert s.activeEgressId[c.production].value != id;
    }
  }

  // ---------------------------------------------------------------- the service object

  class StreamingService {
    var activeEgressId: map<ProductionId, Option<EgressId>>
    var live: map<EgressId, ProductionId>
    var issued: set<EgressId>

    ghost function Snapshot(): State
      reads this
    {
      State(activeEgressId, live, issued)
    }

    /** `production.update({ data: { activeEgressId } })`; false when it throws. */
    method UpdateActive(p: ProductionId, id: Option<EgressId>, w: Write) returns (ok: bool)
      modifies this`activeEgressId
      ensures Snapshot() == WriteActive(old(Snapshot()), p, id, w) && (ok <==> w.Written?)
    {
      if !w.NotWritten? {
        activeEgressId := activeEgressId[p := id];
      }
      ok := w.Written?;
    }

    method StopLiveKitEgress(id: EgressId, outcome: EgressStop) returns (ok: bool)
      modifies this`live
      ensures Snapshot() == StopEgress(old(Snapshot()), id, outcome) && (ok <==> outcome.Stopped?)
    {
      if !outcome.Refused? {
        live := live - {id};
      }
      ok := outcome.Stopped?;
    }

    method StartLiveKitEgress(p: ProductionId, outcome: EgressStart) returns (id: Option<EgressId>)
      modifies this`live, this`issued
      ensures Snapshot() == match outcome
                            case Started(e) => RunEgress(old(Snapshot()), p, e)
                            case StartedUnseen(e) => RunEgress(old(Snapshot()), p, e)
                            case NotStarted => old(Snapshot())
      ensures id == if outcome.Started? then Some(outcome.id) else None
    {
      id := None;
      match outcome {
        case Started(e) =>
          live, issued := live[e := p], issued + {e};
          id := Some(e);
        case StartedUnseen(e) =>
          live, issued := live[e := p], issued + {e};
        case NotStarted =>
      }
    }

    method StartCloudStream(productionId: ProductionId, enabledDestinations: nat, roomReady: bool,
                            start: EgressStart, write: Write, rollback: EgressStop)
      returns (r: Result<Reply, StreamError>)
      modifies this
      ensures (Snapshot(), r) ==
          Step(old(Snapshot()), Start(productionId, enabledDestinations, roomReady, start, write, rollback))
    {
      if productionId !in activeEgressId {
        return Err(NotFound);
      }
      if activeEgressId[productionId].Some? {
        return Err(AlreadyActive);
      }
      if enabledDestinations == 0 {
        return Err(NoDestinations);
      }
      if !roomReady {
        return Err(StartFailed);
      }
      var egressId := StartLiveKitEgress(productionId, start);
      if egressId.None? {
        return Err(StartFailed);
      }
      var ok := UpdateActive(productionId, egressId, write);
      if ok {
        return Ok(Reply.Started(egressId.value));
      }
      var _ := StopLiveKitEgress(egressId.value, rollback);
      return Err(StartFailed);
    }

    method StopCloudStream(productionId: ProductionId, stop: EgressStop, write: Write, catchWrite: Write)
      returns (r: Result<Reply, StreamError>)
      modifies this
      ensures (Snapshot(), r) == Step(old(Snapshot()), Stop(productionId, stop, write, catchWrite))
    {
      if productionId !in activeEgressId {
        return Err(NotFound);
      }
      if activeEgressId[productionId].None? {
        return Err(NoActiveStream);
      }
      var ok := StopLiveKitEgress(activeEgressId[productionId].value, stop);
      if ok {
        ok := UpdateActive(productionId, None, write);
        if ok {
          return Ok(StreamStopped);
        }
      }
      ok := UpdateActive(productionId, None, catchWrite);
      return if ok then Ok(ResetWithWarning) else Err(DatabaseError);
    }
  }
}

/** How the historical pipeline sorts every proposal into one of two lists, and tiles a block range. */
module HistoricalDataset {
  import opened Wrappers

  datatype Reason =
    | MigrationBoundary | NotSucceeded | CanceledProposal | ExpiredProposal | NeverQueued | QueuedAwaitingExecution
    | MissingCanonicalEvent | NegativeIntervalInvalid | RpcDataUnavailable

  datatype ProposalState = ProposalState(state: nat, eta: nat)

  datatype QueuedLog = QueuedLog(eta: nat, transactionHash: string, block: nat)

  datatype ExecutedLog = ExecutedLog(transactionHash: string, block: nat)

  /** Everything the pipeline read about one Governor. */
  datatype Reads = Reads(
    proposalCount: nat,
    initialProposalId: nat,
    states: map<nat, ProposalState>,
    executedLogs: map<nat, ExecutedLog>,
    queuedLogs: map<nat, QueuedLog>,
    timestamps: map<nat, nat>)

  datatype Record = Record(
    proposalId: nat, executionEligibleAt: nat, executedAt: nat, fulfillmentIntervalSeconds: nat,
    queueTxHash: Option<string>, queueBlock: Option<nat>, executionTxHash: string, executionBlock: nat)

  datatype Exclusion = Exclusion(proposalId: nat, reason: Reason)

  /** Why a state other than Executed is no data point; absent for Executed. */
  function ClassifyProposalState(state: nat): Option<Reason> {
    if state == 7 then None
    else if state == 2 then Some(CanceledProposal)
    else if state == 6 then Some(ExpiredProposal)
    else if state == 5 then Some(QueuedAwaitingExecution)
    else if state == 4 then Some(NeverQueued)
    else if state == 0 || state == 1 || state == 3 then Some(NotSucceeded)
    else Some(RpcDataUnavailable)
  }

  function QueuedEtaIsConsistent(queued: Option<nat>, current: nat): bool {
    queued.None? || queued.value == current
  }

  function QueuedEta(r: Reads, id: nat): Option<nat> {
    if id in r.queuedLogs then Some(r.queuedLogs[id].eta) else None
  }

  /** A proposal is a data point: executed, found in the logs, timed, with a consistent ETA and no negative interval. */
  predicate DataPoint(r: Reads, id: nat) {
    && r.initialProposalId < id <= r.proposalCount
    && id in r.states && r.states[id].state == 7
    && id in r.executedLogs && r.executedLogs[id].block in r.timestamps
    && QueuedEtaIsConsistent(QueuedEta(r, id), r.states[id].eta)
    && r.states[id].eta <= r.timestamps[r.executedLogs[id].block]
  }

  /** The first thing that keeps a proposal out of the data set. */
  function ReasonFor(r: Reads, id: nat): Option<Reason> {
    if id <= r.initialProposalId then Some(MigrationBoundary)
    else if id !in r.states then Some(RpcDataUnavailable)
    else if r.states[id].state != 7 then ClassifyProposalState(r.states[id].state)
    else if id !in r.executedLogs then Some(MissingCanonicalEvent)
    else if r.executedLogs[id].block !in r.timestamps then Some(RpcDataUnavailable)
    else if !QueuedEtaIsConsistent(QueuedEta(r, id), r.states[id].eta) then Some(RpcDataUnavailable)
    else if r.timestamps[r.executedLogs[id].block] < r.states[id].eta then Some(NegativeIntervalInvalid)
    else None
  }

  /** Past the boundary, its state was read, and is this one. */
  predicate InState(r: Reads, id: nat, state: nat) {
    r.initialProposalId < id && id in r.states && r.states[id].state == state
  }

  /** Executed, with its log and the time of that log's block. */
  predicate Timed(r: Reads, id: nat) {
    InState(r, id, 7) && id in r.executedLogs && r.executedLogs[id].block in r.timestamps
  }

  predicate EtaContradicted(r: Reads, id: nat) {
    id in r.queuedLogs && id in r.states && r.queuedLogs[id].eta != r.states[id].eta
  }

  /** What an excluded proposal's reason says of what was read about it. */
  predicate Explains(r: Reads, id: nat, reason: Reason) {
    match reason
    case MigrationBoundary => id <= r.initialProposalId
    case CanceledProposal => InState(r, id, 2)
    case ExpiredProposal => InState(r, id, 6)
    case QueuedAwaitingExecution => InState(r, id, 5)
    case NeverQueued => InState(r, id, 4)
    case NotSucceeded => InState(r, id, 0) || InState(r, id, 1) || InState(r, id, 3)
    case MissingCanonicalEvent => InState(r, id, 7) && id !in r.executedLogs
    case NegativeIntervalInvalid =>
      Timed(r, id) && !EtaContradicted(r, id) && r.timestamps[r.executedLogs[id].block] < r.states[id].eta
    case RpcDataUnavailable =>
      && r.initialProposalId < id
      && (id !in r.states || r.states[id].state > 7 ||
          (r.states[id].state == 7 && id in r.executedLogs && !Timed(r, id)) ||
          (Timed(r, id) && EtaContradicted(r, id)))
  }

  /** The reasons are exclusive, and a numbered proposal is a data point exactly when none of them applies. */
  lemma OneReason(r: Reads, id: nat, a: Reason, b: Reason)
    ensures ReasonFor(r, id) == Some(a) <==> Explains(r, id, a)
    ensures Explains(r, id, a) && Explains(r, id, b) ==> a == b
    ensures DataPoint(r, id) <==> id <= r.proposalCount && forall reason :: !Explains(r, id, reason)
  {
    assert ReasonFor(r, id).Some? ==> Explains(r, id, ReasonFor(r, id).value);
  }

  function RecordIds(records: seq<Record>): seq<nat> {
    seq(|records|, i requires 0 <= i < |records| => records[i].proposalId)
  }

  function ExclusionIds(exclusions: seq<Exclusion>): seq<nat> {
    seq(|exclusions|, i requires 0 <= i < |exclusions| => exclusions[i].proposalId)
  }

  predicate RecordOk(r: Reads, x: Record) {
    && DataPoint(r, x.proposalId)
    && x.executionEligibleAt == r.states[x.proposalId].eta
    && x.executedAt == r.timestamps[r.executedLogs[x.proposalId].block]
    && x.executionEligibleAt + x.fulfillmentIntervalSeconds == x.executedAt
    && x.queueTxHash ==
         (if x.proposalId in r.queuedLogs then Some(r.queuedLogs[x.proposalId].transactionHash) else None)
    && x.queueBlock == (if x.proposalId in r.queuedLogs then Some(r.queuedLogs[x.proposalId].block) else None)
    && x.executionBlock == r.executedLogs[x.proposalId].block
    && x.executionTxHash == r.executedLogs[x.proposalId].transactionHash
  }

  /** The ids lo, …, hi. */
  function IdRange(lo: nat, hi: int): (ids: seq<nat>)
    ensures forall id :: id in ids <==> lo <= id <= hi
    decreases hi + 1 - lo
  {
    if lo > hi then [] else IdRange(lo, hi - 1) + [hi]
  }

  function BoundaryIds(ids: seq<nat>, initial: nat): seq<nat> {
    if ids == [] then []
    else BoundaryIds(ids[..|ids| - 1], initial) + (if ids[|ids| - 1] <= initial then [ids[|ids| - 1]] else [])
  }

  function ValidIds(ids: seq<nat>, initial: nat): (r: seq<nat>)
    ensures forall id :: id in r <==> id in ids && id > initial
  {
    if ids == [] then []
    else ValidIds(ids[..|ids| - 1], initial) + (if ids[|ids| - 1] <= initial then [] else [ids[|ids| - 1]])
  }

  lemma {:induction false} BoundarySplits(ids: seq<nat>, initial: nat)
    ensures multiset(BoundaryIds(ids, initial)) + multiset(ValidIds(ids, initial)) == multiset(ids)
  {
    if ids != [] {
      BoundarySplits(ids[..|ids| - 1], initial);
      assert ids == ids[..|ids| - 1] + [ids[|ids| - 1]];
    }
  }

  /** The ids dealt with so far: each in one of the lists, every record true and every exclusion with its reason. */
  ghost predicate Handled(r: Reads, records: seq<Record>, exclusions: seq<Exclusion>, done: multiset<nat>) {
    && multiset(RecordIds(records)) + multiset(ExclusionIds(exclusions)) == done
    && (forall k :: 0 <= k < |records| ==> RecordOk(r, records[k]))
    && (forall k :: 0 <= k < |exclusions| ==> ReasonFor(r, exclusions[k].proposalId) == Some(exclusions[k].reason))
  }

  lemma NothingHandled(r: Reads)
    ensures Handled(r, [], [], multiset{})
  {
  }

  lemma Exclude(r: Reads, records: seq<Record>, exclusions: seq<Exclusion>, done: multiset<nat>, id: nat,
                reason: Reason)
    requires Handled(r, records, exclusions, done) && ReasonFor(r, id) == Some(reason)
    ensures Handled(r, records, exclusions + [Exclusion(id, reason)], done + multiset{id})
  {
    hide ReasonFor, RecordOk;
    assert ExclusionIds(exclusions + [Exclusion(id, reason)]) == ExclusionIds(exclusions) + [id];
  }

  lemma Include(r: Reads, records: seq<Record>, exclusions: seq<Exclusion>, done: multiset<nat>, x: Record)
    requires Handled(r, records, exclusions, done) && RecordOk(r, x)
    ensures Handled(r, records + [x], exclusions, done + multiset{x.proposalId})
  {
    hide ReasonFor, RecordOk;
    assert RecordIds(records + [x]) == RecordIds(records) + [x.proposalId];
  }

  lemma Together(r: Reads, records: seq<Record>, a: seq<Exclusion>, b: seq<Exclusion>, doneA: multiset<nat>,
                 doneB: multiset<nat>)
    requires Handled(r, [], a, doneA) && Handled(r, records, b, doneB)
    ensures Handled(r, records, a + b, doneA + doneB)
  {
    hide ReasonFor, RecordOk;
    assert ExclusionIds(a + b) == ExclusionIds(a) + ExclusionIds(b);
  }

  lemma OneMoreId(ids: seq<nat>, i: nat)
    requires i < |ids|
    ensures multiset(ids[..i + 1]) == multiset(ids[..i]) + multiset{ids[i]}
  {
    assert ids[..i + 1] == ids[..i] + [ids[i]];
  }

  lemma BoundaryStep(ids: seq<nat>, i: nat, initial: nat)
    requires i < |ids|
    ensures ids[i] <= initial ==>
              multiset(BoundaryIds(ids[..i + 1], initial)) ==
                multiset(BoundaryIds(ids[..i], initial)) + multiset{ids[i]}
    ensures ids[i] > initial ==> BoundaryIds(ids[..i + 1], initial) == BoundaryIds(ids[..i], initial)
  {
    assert ids[..i + 1][..i] == ids[..i];
  }

  /** The migration boundary: ids numbered before this Governor existed. */
  method ExcludeBoundary(r: Reads, allIds: seq<nat>) returns (exclusions: seq<Exclusion>)
    ensures Handled(r, [], exclusions, multiset(BoundaryIds(allIds, r.initialProposalId)))
  {
    hide Handled;
    exclusions := [];
    NothingHandled(r);
    for i := 0 to |allIds|
      invariant Handled(r, [], exclusions, multiset(BoundaryIds(allIds[..i], r.initialProposalId)))
    {
      BoundaryStep(allIds, i, r.initialProposalId);
      if allIds[i] <= r.initialProposalId {
        Exclude(r, [], exclusions, multiset(BoundaryIds(allIds[..i], r.initialProposalId)), allIds[i],
                MigrationBoundary);
        exclusions := exclusions + [Exclusion(allIds[i], MigrationBoundary)];
      }
    }
    assert allIds[..|allIds|] == allIds;
  }

  /** Proposals the Governor reports as Executed go on; every other valid one is excluded with its state's reason. */
  method SplitByState(r: Reads, validIds: seq<nat>)
    returns (executedIds: seq<nat>, exclusions: seq<Exclusion>, ghost out: multiset<nat>)
    requires forall k :: 0 <= k < |validIds| ==> validIds[k] > r.initialProposalId
    ensures multiset(executedIds) + out == multiset(validIds) && Handled(r, [], exclusions, out)
    ensures forall k :: 0 <= k < |executedIds| ==>
        executedIds[k] in validIds && executedIds[k] in r.states && r.states[executedIds[k]].state == 7
  {
    hide Handled;
    executedIds, exclusions, out := [], [], multiset{};
    NothingHandled(r);
    for i := 0 to |validIds|
      invariant multiset(executedIds) + out == multiset(validIds[..i]) && Handled(r, [], exclusions, out)
      invariant forall k :: 0 <= k < |executedIds| ==>
          executedIds[k] in validIds && executedIds[k] in r.states && r.states[executedIds[k]].state == 7
    {
      var id := validIds[i];
      OneMoreId(validIds, i);
      if id !in r.states {
        Exclude(r, [], exclusions, out, id, RpcDataUnavailable);
        exclusions, out := exclusions + [Exclusion(id, RpcDataUnavailable)], out + multiset{id};
        continue;
      }
      var classification := ClassifyProposalState(r.states[id].state);
      if classification.None? {
        executedIds := executedIds + [id];
      } else {
        Exclude(r, [], exclusions, out, id, classification.value);
        exclusions, out := exclusions + [Exclusion(id, classification.value)], out + multiset{id};
      }
    }
    assert validIds[..|validIds|] == validIds;
  }

  /** Executed proposals become records, or are excluded by the first check that fails. */
  method BuildRecords(r: Reads, executedIds: seq<nat>) returns (records: seq<Record>, exclusions: seq<Exclusion>)
    requires forall k :: 0 <= k < |executedIds| ==>
               r.initialProposalId < executedIds[k] <= r.proposalCount &&
               executedIds[k] in r.states && r.states[executedIds[k]].state == 7
    ensures Handled(r, records, exclusions, multiset(executedIds))
  {
    hide Handled;
    records, exclusions := [], [];
    NothingHandled(r);
    for i := 0 to |executedIds|
      invariant Handled(r, records, exclusions, multiset(executedIds[..i]))
    {
      var id := executedIds[i];
      ghost var done := multiset(executedIds[..i]);
      OneMoreId(executedIds, i);
      if id !in r.executedLogs {
        Exclude(r, records, exclusions, done, id, MissingCanonicalEvent);
        exclusions := exclusions + [Exclusion(id, MissingCanonicalEvent)];
        continue;
      }
      var executedLog := r.executedLogs[id];
      if executedLog.block !in r.timestamps {
        Exclude(r, records, exclusions, done, id, RpcDataUnavailable);
        exclusions := exclusions + [Exclusion(id, RpcDataUnavailable)];
        continue;
      }
      var executedAt := r.timestamps[executedLog.block];
      var queuedLog := if id in r.queuedLogs then Some(r.queuedLogs[id]) else None;
      if !QueuedEtaIsConsistent(QueuedEta(r, id), r.states[id].eta) {
        Exclude(r, records, exclusions, done, id, RpcDataUnavailable);
        exclusions := exclusions + [Exclusion(id, RpcDataUnavailable)];
        continue;
      }
      var executionEligibleAt := r.states[id].eta;
      var interval: int := executedAt as int - executionEligibleAt as int;
      if interval < 0 {
        Exclude(r, records, exclusions, done, id, NegativeIntervalInvalid);
        exclusions := exclusions + [Exclusion(id, NegativeIntervalInvalid)];
        continue;
      }
      var x := Record(id, executionEligibleAt, executedAt, interval,
                      if queuedLog.Some? then Some(queuedLog.value.transactionHash) else None,
                      if queuedLog.Some? then Some(queuedLog.value.block) else None,
                      executedLog.transactionHash, executedLog.block);
      Include(r, records, exclusions, done, x);
      records := records + [x];
    }
    assert executedIds[..|executedIds|] == executedIds;
  }

  /**
   * Conservation: of the ids 1..proposalCount each is in exactly one of the two lists, and once; the records are
   * exactly the data points, with their true interval; and each exclusion gives the one reason that applies.
   */
  method ProcessGovernor(r: Reads) returns (records: seq<Record>, exclusions: seq<Exclusion>)
    ensures multiset(RecordIds(records)) + multiset(ExclusionIds(exclusions)) == multiset(IdRange(1, r.proposalCount))
    ensures forall id :: id in RecordIds(records) <==> DataPoint(r, id)
    ensures forall k :: 0 <= k < |records| ==> RecordOk(r, records[k])
    ensures forall k :: 0 <= k < |exclusions| ==> Explains(r, exclusions[k].proposalId, exclusions[k].reason)
  {
    hide Handled, RecordOk, ReasonFor, DataPoint, RecordIds, ExclusionIds, Explains;
    var allIds := IdRange(1, r.proposalCount);
    var boundary := ExcludeBoundary(r, allIds);
    var validIds := ValidIds(allIds, r.initialProposalId);
    BoundarySplits(allIds, r.initialProposalId);
    assert forall k :: 0 <= k < |validIds| ==> validIds[k] in validIds && validIds[k] in allIds;
    var executedIds, byState, late;
    ghost var out;
    executedIds, byState, out := SplitByState(r, validIds);
    records, late := BuildRecords(r, executedIds);
    Together(r, records, byState, late, out, multiset(executedIds));
    Together(r, records, boundary, byState + late, multiset(BoundaryIds(allIds, r.initialProposalId)),
             out + multiset(executedIds));
    exclusions := boundary + (byState + late);
    assert multiset(BoundaryIds(allIds, r.initialProposalId)) + (out + multiset(executedIds)) == multiset(allIds);
    HandledMeans(r, records, exclusions, multiset(allIds));
    RecordsAreDataPoints(r, records, exclusions);
    forall k | 0 <= k < |exclusions| ensures Explains(r, exclusions[k].proposalId, exclusions[k].reason) {
      OneReason(r, exclusions[k].proposalId, exclusions[k].reason, exclusions[k].reason);
    }
  }

  lemma HandledMeans(r: Reads, records: seq<Record>, exclusions: seq<Exclusion>, done: multiset<nat>)
    requires Handled(r, records, exclusions, done)
    ensures multiset(RecordIds(records)) + multiset(ExclusionIds(exclusions)) == done
    ensures forall k :: 0 <= k < |records| ==> RecordOk(r, records[k])
    ensures forall k :: 0 <= k < |exclusions| ==> ReasonFor(r, exclusions[k].proposalId) == Some(exclusions[k].reason)
  {
  }

  lemma DataPointHasNoReason(r: Reads, id: nat)
    ensures DataPoint(r, id) <==> id <= r.proposalCount && ReasonFor(r, id).None?
  {
  }

  /** Once everything is conserved, no data point can be among the exclusions. */
  lemma RecordsAreDataPoints(r: Reads, records: seq<Record>, exclusions: seq<Exclusion>)
    requires multiset(RecordIds(records)) + multiset(ExclusionIds(exclusions)) == multiset(IdRange(1, r.proposalCount))
    requires forall k :: 0 <= k < |records| ==> RecordOk(r, records[k])
    requires forall k :: 0 <= k < |exclusions| ==> ReasonFor(r, exclusions[k].proposalId) == Some(exclusions[k].reason)
    ensures forall id :: id in RecordIds(records) <==> DataPoint(r, id)
  {
    hide DataPoint, ReasonFor;
    var all := multiset(RecordIds(records)) + multiset(ExclusionIds(exclusions));
    forall id ensures id in RecordIds(records) <==> DataPoint(r, id) {
      DataPointHasNoReason(r, id);
      if DataPoint(r, id) {
        assert id in IdRange(1, r.proposalCount) by { PointInRange(r, id); }
        assert id in all;
        assert id !in ExclusionIds(exclusions) by { ExcludedHaveReasons(r, exclusions, id); }
      }
      if id in RecordIds(records) {
        var k :| 0 <= k < |records| && RecordIds(records)[k] == id;
        assert RecordOk(r, records[k]);
      }
    }
  }

  lemma ExcludedHaveReasons(r: Reads, exclusions: seq<Exclusion>, id: nat)
    requires forall k :: 0 <= k < |exclusions| ==> ReasonFor(r, exclusions[k].proposalId) == Some(exclusions[k].reason)
    ensures id in ExclusionIds(exclusions) ==> ReasonFor(r, id).Some?
  {
    hide ReasonFor;
    if id in ExclusionIds(exclusions) {
      var k :| 0 <= k < |exclusions| && ExclusionIds(exclusions)[k] == id;
      assert ReasonFor(r, exclusions[k].proposalId) == Some(exclusions[k].reason);
    }
  }

  lemma PointInRange(r: Reads, id: nat)
    requires DataPoint(r, id)
    ensures 1 <= id <= r.proposalCount
  {
  }

  // ------------------------------------------------------------------ block ranges

  const LOG_CHUNK_BLOCKS := 80_000

  datatype Chunk = Chunk(from: int, to: int)

  /** The chunks tile the range: each starts where the one before ended, and all but the last are of the full length. */
  ghost predicate Tiles(chunks: seq<Chunk>, from: int, next: int) {
    && (chunks == [] ==> next == from)
    && (chunks != [] ==> chunks[0].from == from && chunks[|chunks| - 1].to + 1 == next)
    && (forall i :: 0 <= i < |chunks| ==> chunks[i].from <= chunks[i].to < chunks[i].from + 80_000)
    && (forall i :: 0 <= i < |chunks| - 1 ==> chunks[i].to + 1 == chunks[i].from + 80_000)
    && (forall i :: 0 < i < |chunks| ==> chunks[i].from == chunks[i - 1].to + 1)
  }

  method ChunkRange(from: int, latest: int) returns (chunks: seq<Chunk>)
    ensures Tiles(chunks, from, if from <= latest then latest + 1 else from)
  {
    chunks := [];
    var start := from;
    while start <= latest
      invariant chunks == [] ==> start == from
      invariant Tiles(chunks, from, if start <= latest then start else if from <= latest then latest + 1 else from)
      invariant start > latest && from <= latest ==> chunks != []
      invariant start <= latest && chunks != [] ==>
          chunks[|chunks| - 1].to + 1 == chunks[|chunks| - 1].from + LOG_CHUNK_BLOCKS
      decreases latest + 1 - start
    {
      var end := if start + LOG_CHUNK_BLOCKS - 1 > latest then latest else start + LOG_CHUNK_BLOCKS - 1;
      chunks := chunks + [Chunk(start, end)];
      start := start + LOG_CHUNK_BLOCKS;
    }
  }

  predicate Covers(c: Chunk, block: int) {
    c.from <= block <= c.to
  }

  lemma {:induction false} TilesFront(chunks: seq<Chunk>, from: int, next: int)
    requires Tiles(chunks, from, next) && chunks != []
    ensures Tiles(chunks[..|chunks| - 1], from, chunks[|chunks| - 1].from)
    ensures from <= chunks[|chunks| - 1].from
    decreases |chunks|
  {
    if |chunks| > 1 {
      var front := chunks[..|chunks| - 1];
      TilesFront(front, from, chunks[|chunks| - 1].from);
    }
  }

  /** Every block of a tiled range is scanned in exactly one chunk, and no other block in any. */
  lemma {:induction false} EachBlockOnce(chunks: seq<Chunk>, from: int, next: int, block: int)
    requires Tiles(chunks, from, next)
    ensures from <= next
    ensures from <= block < next <==> exists i :: 0 <= i < |chunks| && Covers(chunks[i], block)
    ensures forall i, k :: 0 <= i < k < |chunks| ==> !(Covers(chunks[i], block) && Covers(chunks[k], block))
    decreases |chunks|
  {
    if chunks != [] {
      var front, last := chunks[..|chunks| - 1], chunks[|chunks| - 1];
      TilesFront(chunks, from, next);
      EachBlockOnce(front, from, last.from, block);
      assert forall i :: 0 <= i < |front| ==> front[i] == chunks[i];
      if from <= block < next && block >= last.from {
        assert Covers(chunks[|chunks| - 1], block);
      }
    }
  }

  // ------------------------------------------------------------------ duplicate keys

  datatype Key = Key(dao: string, proposalId: string)

  /** Exactly the keys that occur more than once. */
  method FindDuplicateKeys(keys: seq<Key>) returns (duplicates: set<Key>)
    ensures forall k :: k in duplicates <==> exists i, j :: 0 <= i < j < |keys| && keys[i] == k && keys[j] == k
  {
    var seen: set<Key> := {};
    duplicates := {};
    for n := 0 to |keys|
      invariant forall k :: k in seen <==> exists i :: 0 <= i < n && keys[i] == k
      invariant forall k :: k in duplicates <==> exists i, j :: 0 <= i < j < n && keys[i] == k && keys[j] == k
    {
      if keys[n] in seen { duplicates := duplicates + {keys[n]}; }
      seen := seen + {keys[n]};
    }
  }
}

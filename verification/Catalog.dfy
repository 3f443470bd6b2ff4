/** The saved-workflow catalog: revision chains under compare-and-swap, with faults at hook points. */
module Catalog {
  import opened Wrappers
  import opened CatalogTables
  import opened Paging

  type State = CatalogTables.Catalog

  /** Digests printed by the hash functions have the digest syntax. */
  ghost predicate DigestsOk(cfg: Config) {
    && (forall text :: (cfg.parse)(text).Some? ==> (cfg.isSha256)((cfg.parse)(text).value.digest))
    && (forall text :: (cfg.isSha256)((cfg.hash)(text)))
  }

  // ----- Operations -----

  /** The record a writer gets back after its commit. */
  function Reload(cfg: Config, c: State, id: string): Result<Record, CatalogError> {
    match Load(cfg, c, id, None)
    case Err(e) => Err(e)
    case Ok(loaded) => Ok(loaded.0)
  }

  function Created(cfg: Config, c: State, id: string, definition: string, manifest: string, fault: Option<Point>)
    : (State, Result<Record, CatalogError>)
  {
    if !(cfg.idValid)(id) then (c, Err(InvalidArgument))
    else
      match DocumentsOf(cfg, definition, manifest)
      case None => (c, Err(InvalidDocuments))
      case Some(d) =>
        if id in c.heads then (c, Err(Exists))
        else if c.nextSeq >= SQLITE_INT_MAX then (c, Err(Integrity))
        else if fault.Some? && fault.value != AfterCommit then (c, Err(Fault(fault.value)))
        else
          var done := WithCreated(c, id, d);
          (done, if fault.Some? then Err(Fault(AfterCommit)) else Reload(cfg, done, id))
  }

  predicate Unchanged(c: State, id: string, d: Documents)
    requires id in c.heads && (id, c.heads[id].revision) in c.revisions
  {
    var head := c.heads[id];
    d.spec.digest == head.definitionSha256 && c.revisions[(id, head.revision)].manifestSha256 == d.manifestSha256
  }

  function Updated(cfg: Config, c: State, id: string, expectedRevision: nat, expectedDigest: string,
                   definition: string, manifest: string, fault: Option<Point>)
    : (State, Result<(Record, bool), CatalogError>)
  {
    if !(cfg.idValid)(id) || !StoredInt(expectedRevision) || !(cfg.isSha256)(expectedDigest) then
      (c, Err(InvalidArgument))
    else
      match DocumentsOf(cfg, definition, manifest)
      case None => (c, Err(InvalidDocuments))
      case Some(d) =>
        if id !in c.heads then (c, Err(NotFound))
        else
          match ValidatedHead(cfg, c, id)
          case Err(e) => (c, Err(e))
          case Ok(current) =>
            var head := c.heads[id];
            if head.revision != expectedRevision || current.definitionSha256 != expectedDigest then
              (c, Err(RevisionMismatch(head.revision, current.definitionSha256)))
            else if Unchanged(c, id, d) then (c, Ok((current, false)))
            else if head.revision >= SQLITE_INT_MAX then (c, Err(Integrity))
            else if fault.Some? && fault.value != AfterCommit then (c, Err(Fault(fault.value)))
            else
              var done := WithUpdated(c, id, d);
              (done,
               if fault.Some? then Err(Fault(AfterCommit))
               else match Reload(cfg, done, id)
                 case Err(e) => Err(e)
                 case Ok(record) => Ok((record, true)))
  }

  class WorkflowCatalogStore {
    const cfg: Config
    const fault: Option<Point>
    var db: State

    constructor (cfg: Config, fault: Option<Point>)
      ensures this.cfg == cfg && this.fault == fault && db == EMPTY
    {
      this.cfg, this.fault, db := cfg, fault, EMPTY;
    }

    /** Writes revision 1, its head and the next sequence number, or rolls everything back. */
    method Create(id: string, definition: string, manifest: string) returns (r: Result<Record, CatalogError>)
      requires CatalogOk(cfg, db)
      modifies this
      ensures (db, r) == Created(cfg, old(db), id, definition, manifest, fault)
    {
      if !(cfg.idValid)(id) {
        return Err(InvalidArgument);
      }
      var documents := DocumentsOf(cfg, definition, manifest);
      if documents.None? {
        return Err(InvalidDocuments);
      }
      var d := documents.value;
      var saved := db;
      if id in db.heads {
        return Err(Exists);
      }
      var sequence := db.nextSeq;
      if sequence >= SQLITE_INT_MAX {
        return Err(Integrity);
      }
      if fault == Some(BeforeRevisionInsert) {
        db := saved;
        return Err(Fault(BeforeRevisionInsert));
      }
      db := db.(revisions := db.revisions[(id, 1) := RowOf(d, None)]);
      if fault == Some(AfterRevisionInsert) {
        db := saved;
        return Err(Fault(AfterRevisionInsert));
      }
      db := db.(heads := db.heads[id := HeadOf(d, sequence, 1)]);
      db := db.(nextSeq := sequence + 1);
      if fault == Some(AfterHeadWrite) {
        db := saved;
        return Err(Fault(AfterHeadWrite));
      }
      if fault == Some(AfterCommit) {
        return Err(Fault(AfterCommit));
      }
      r := Reload(cfg, db, id);
    }

    /** Compare-and-swap on revision and digest; an update that changes nothing writes nothing. */
    method Update(id: string, expectedRevision: nat, expectedDigest: string, definition: string, manifest: string)
      returns (r: Result<(Record, bool), CatalogError>)
      requires CatalogOk(cfg, db)
      modifies this
      ensures (db, r) == Updated(cfg, old(db), id, expectedRevision, expectedDigest, definition, manifest, fault)
    {
      hide ValidatedHead, CatalogOk;
      if !(cfg.idValid)(id) || !StoredInt(expectedRevision) || !(cfg.isSha256)(expectedDigest) {
        return Err(InvalidArgument);
      }
      var documents := DocumentsOf(cfg, definition, manifest);
      if documents.None? {
        return Err(InvalidDocuments);
      }
      var d := documents.value;
      if id !in db.heads {
        return Err(NotFound);
      }
      HeadHasRevision(cfg, db, id);
      var validated := ValidatedHead(cfg, db, id);
      if validated.Err? {
        return Err(validated.error);
      }
      var head := db.heads[id];
      var current := validated.value;
      if head.revision != expectedRevision || current.definitionSha256 != expectedDigest {
        return Err(RevisionMismatch(head.revision, current.definitionSha256));
      }
      var saved := db;
      if Unchanged(db, id, d) {
        return Ok((current, false));
      }
      var revision := head.revision + 1;
      if revision > SQLITE_INT_MAX {
        return Err(Integrity);
      }
      if fault == Some(BeforeRevisionInsert) {
        return Err(Fault(BeforeRevisionInsert));
      }
      db := db.(revisions := db.revisions[(id, revision) := RowOf(d, Some(head.revision))]);
      if fault == Some(AfterRevisionInsert) {
        db := saved;
        return Err(Fault(AfterRevisionInsert));
      }
      db := db.(heads := db.heads[id := HeadOf(d, head.catalogSeq, revision)]);
      if fault == Some(AfterHeadWrite) {
        db := saved;
        return Err(Fault(AfterHeadWrite));
      }
      if fault == Some(AfterCommit) {
        return Err(Fault(AfterCommit));
      }
      var reloaded := Reload(cfg, db, id);
      if reloaded.Err? {
        return Err(reloaded.error);
      }
      r := Ok((reloaded.value, true));
    }

    /** One page of the saved workflows, newest first; every head on it, and the one after it, is checked. */
    method List(limit: int, before: Option<int>) returns (r: Result<SavedPage, CatalogError>)
      requires UniqueSequences(db)
      ensures r == Listed(cfg, db, limit, before)
    {
      hide ValidatedHead, Sequences, UniqueSequences, PageRows, HeadAt, SummaryOf, Summaries, Joined;
      if !ListArguments(limit, before) {
        return Err(InvalidArgument);
      }
      var rows := PageRows(db, limit + 1, before);
      var heads: seq<SavedSummary> := [];
      var k := 0;
      assert rows[0..] == rows;
      JoinedNone(Summaries(cfg, db, rows));
      HeadsAreThere(db);
      while k < |rows|
        invariant 0 <= k <= |rows|
        invariant Summaries(cfg, db, rows) == Joined(heads, Summaries(cfg, db, rows[k..]))
      {
        SummariesStep(cfg, db, rows, k, heads);
        assert HeadAt(db, rows[k]) in db.heads;
        var id :| id in db.heads && db.heads[id].catalogSeq == rows[k];
        HeadAtIs(db, id);
        var head := ValidatedHead(cfg, db, id);
        if head.Err? {
          return Err(head.error);
        }
        heads, k := heads + [SummaryOf(db, id, head.value)], k + 1;
      }
      SummariesDone(cfg, db, rows, heads);
      var items := Take(heads, limit);
      r := Ok(SavedPage(items, if |heads| > limit && items != [] then Some(items[|items| - 1].catalogSeq) else None));
    }
  }

  // ----- A page of the catalog -----

  datatype SavedSummary =
    SavedSummary(catalogId: string, catalogSeq: nat, revision: nat, workflowId: string, version: string, digest: string)

  datatype SavedPage = SavedPage(items: seq<SavedSummary>, nextBefore: Option<nat>)

  predicate ListArguments(limit: int, before: Option<int>) {
    1 <= limit <= 100 && (before.Some? ==> 1 <= before.value <= SQLITE_INT_MAX)
  }

  /** The sequence numbers of all heads. */
  function Sequences(c: State): set<nat> {
    set id | id in c.heads :: c.heads[id].catalogSeq
  }

  /** The unique constraint on sequence numbers. */
  predicate UniqueSequences(c: State) {
    forall x, y :: x in c.heads && y in c.heads && x != y ==> c.heads[x].catalogSeq != c.heads[y].catalogSeq
  }

  function HeadAt(c: State, n: nat): (id: string)
    requires UniqueSequences(c) && n in Sequences(c)
    ensures id in c.heads && c.heads[id].catalogSeq == n
  {
    var id :| id in c.heads && c.heads[id].catalogSeq == n;
    id
  }

  lemma HeadAtIs(c: State, id: string)
    requires UniqueSequences(c) && id in c.heads
    ensures c.heads[id].catalogSeq in Sequences(c) && HeadAt(c, c.heads[id].catalogSeq) == id
  {
    assert c.heads[id].catalogSeq in Sequences(c);
  }

  lemma HeadsAreThere(c: State)
    requires UniqueSequences(c)
    ensures forall n :: n in Sequences(c) ==> HeadAt(c, n) in c.heads && c.heads[HeadAt(c, n)].catalogSeq == n
  {
  }

  /** The numbers of the newest `n` heads before the cursor. */
  function PageRows(c: State, n: nat, before: Option<int>): (rows: seq<nat>)
    requires before.Some? ==> before.value >= 0
    ensures forall k :: 0 <= k < |rows| ==> rows[k] in Sequences(c)
  {
    var rows := Page(Sequences(c), if before.Some? then Some(before.value as nat) else None, n);
    assert forall k :: 0 <= k < |rows| ==> rows[k] in rows;
    rows
  }

  /** What a listed workflow shows: its head's place, and its current record. */
  function SummaryOf(c: State, id: string, record: Record): SavedSummary
    requires id in c.heads
  {
    SavedSummary(id, c.heads[id].catalogSeq, c.heads[id].revision, record.spec.workflowId, record.spec.version,
                 record.definitionSha256)
  }

  function Summaries(cfg: Config, c: State, rows: seq<nat>): Result<seq<SavedSummary>, CatalogError>
    requires UniqueSequences(c) && forall k :: 0 <= k < |rows| ==> rows[k] in Sequences(c)
    decreases |rows|
  {
    if rows == [] then Ok([])
    else
      var id := HeadAt(c, rows[0]);
      match ValidatedHead(cfg, c, id)
      case Err(e) => Err(e)
      case Ok(record) => Joined([SummaryOf(c, id, record)], Summaries(cfg, c, rows[1..]))
  }

  function Joined(front: seq<SavedSummary>, rest: Result<seq<SavedSummary>, CatalogError>)
    : Result<seq<SavedSummary>, CatalogError>
  {
    match rest case Err(e) => Err(e) case Ok(s) => Ok(front + s)
  }

  lemma JoinedNone(rest: Result<seq<SavedSummary>, CatalogError>)
    ensures Joined([], rest) == rest
  {
    if rest.Ok? {
      assert [] + rest.value == rest.value;
    }
  }

  lemma JoinedOne(front: seq<SavedSummary>, one: SavedSummary, rest: Result<seq<SavedSummary>, CatalogError>)
    ensures Joined(front, Joined([one], rest)) == Joined(front + [one], rest)
  {
    if rest.Ok? {
      assert front + ([one] + rest.value) == (front + [one]) + rest.value;
    }
  }

  /** One more row of a listing: its head is summarised, or its error ends the listing. */
  lemma SummariesStep(cfg: Config, c: State, rows: seq<nat>, k: nat, heads: seq<SavedSummary>)
    requires UniqueSequences(c) && (forall i :: 0 <= i < |rows| ==> rows[i] in Sequences(c)) && k < |rows|
    ensures var id := HeadAt(c, rows[k]);
      match ValidatedHead(cfg, c, id)
      case Err(e) => Joined(heads, Summaries(cfg, c, rows[k..])) == Err(e)
      case Ok(record) =>
        Joined(heads, Summaries(cfg, c, rows[k..]))
          == Joined(heads + [SummaryOf(c, id, record)], Summaries(cfg, c, rows[k + 1..]))
  {
    hide ValidatedHead, HeadAt, SummaryOf, UniqueSequences, Sequences;
    assert rows[k..][0] == rows[k] && rows[k..][1..] == rows[k + 1..];
    var id := HeadAt(c, rows[k]);
    var head := ValidatedHead(cfg, c, id);
    if head.Ok? {
      JoinedOne(heads, SummaryOf(c, id, head.value), Summaries(cfg, c, rows[k + 1..]));
    }
  }

  lemma SummariesDone(cfg: Config, c: State, rows: seq<nat>, heads: seq<SavedSummary>)
    requires UniqueSequences(c) && forall i :: 0 <= i < |rows| ==> rows[i] in Sequences(c)
    ensures Joined(heads, Summaries(cfg, c, rows[|rows|..])) == Ok(heads)
  {
    assert rows[|rows|..] == [] && heads + [] == heads;
  }

  function Listed(cfg: Config, c: State, limit: int, before: Option<int>): Result<SavedPage, CatalogError>
    requires UniqueSequences(c)
  {
    if !ListArguments(limit, before) then Err(InvalidArgument)
    else
      match Summaries(cfg, c, PageRows(c, limit + 1, before))
      case Err(e) => Err(e)
      case Ok(heads) =>
        var items := Take(heads, limit);
        Ok(SavedPage(items, if |heads| > limit then Some(items[limit - 1].catalogSeq) else None))
  }

  // ----- Invariant -----

  /** A head: revisions exactly 1 to the current one, each a valid record, the last matching the head. */
  ghost predicate HeadOk(cfg: Config, c: State, id: string)
    requires id in c.heads
  {
    var head := c.heads[id];
    && (cfg.idValid)(id) && StoredInt(head.catalogSeq) && head.catalogSeq < c.nextSeq && StoredInt(head.revision)
    && (forall r: nat :: (id, r) in c.revisions <==> 1 <= r <= head.revision)
    && (forall r: nat :: (id, r) in c.revisions ==> RecordOf(cfg, id, r, c.revisions[(id, r)]).Ok?)
    && Matches(head, c.revisions[(id, head.revision)])
  }

  predicate Matches(head: HeadRow, row: RevisionRow) {
    head.definitionSha256 == row.definitionSha256 && head.workflowId == row.workflowId && head.version == row.version
  }

  ghost predicate CatalogOk(cfg: Config, c: State) {
    && 1 <= c.nextSeq <= SQLITE_INT_MAX
    && (forall id :: id in c.heads ==> HeadOk(cfg, c, id))
    && (forall id, r: nat :: (id, r) in c.revisions ==> id in c.heads)
    && (forall x, y :: x in c.heads && y in c.heads && x != y ==> c.heads[x].catalogSeq != c.heads[y].catalogSeq)
  }

  function UpTo(n: nat): (r: set<nat>)
    ensures |r| == n && forall k: nat :: k in r <==> 1 <= k <= n
  {
    if n == 0 then {} else UpTo(n - 1) + {n}
  }

  lemma HeadHasRevision(cfg: Config, c: State, id: string)
    requires CatalogOk(cfg, c) && id in c.heads
    ensures (id, c.heads[id].revision) in c.revisions
    ensures c.heads[id].definitionSha256 == c.revisions[(id, c.heads[id].revision)].definitionSha256
  {
    assert HeadOk(cfg, c, id);
  }

  lemma RecordKeepsColumns(cfg: Config, id: string, revision: nat, row: RevisionRow)
    requires RecordOf(cfg, id, revision, row).Ok?
    ensures var record := RecordOf(cfg, id, revision, row).value;
      && record.definitionSha256 == row.definitionSha256 && record.spec.workflowId == row.workflowId
      && record.spec.version == row.version
      && record.definitionJson == row.definitionJson && record.manifestJson == row.manifestJson
      && record.revision == revision
    ensures revision == 1 ==> row.parent.None?
    ensures revision > 1 ==> row.parent == Some(revision - 1)
  {
  }

  lemma RevisionsAreUpTo(c: State, id: string, n: nat)
    requires forall r: nat :: (id, r) in c.revisions <==> 1 <= r <= n
    ensures RevisionsOf(c, id) == UpTo(n)
  {
    forall r: nat | r in UpTo(n) ensures r in RevisionsOf(c, id) {
      assert (id, r) in c.revisions;
    }
    forall r: nat | r in RevisionsOf(c, id) ensures r in UpTo(n) {
      assert (id, r) in c.revisions;
    }
  }

  /** In every valid state the integrity checks on a head pass. */
  lemma HeadNeverRaises(cfg: Config, c: State, id: string)
    requires CatalogOk(cfg, c) && id in c.heads
    ensures ValidatedHead(cfg, c, id)
      == RecordOf(cfg, id, c.heads[id].revision, c.revisions[(id, c.heads[id].revision)])
    ensures ValidatedHead(cfg, c, id).Ok?
  {
    hide RecordOf;
    var head := c.heads[id];
    assert HeadOk(cfg, c, id);
    forall r: nat | (id, r) in c.revisions
      ensures r == 1 ==> c.revisions[(id, r)].parent.None?
      ensures r > 1 ==> c.revisions[(id, r)].parent == Some(r - 1)
    {
      RecordKeepsColumns(cfg, id, r, c.revisions[(id, r)]);
    }
    RevisionsAreUpTo(c, id, head.revision);
    assert !ParentAnomaly(c, id) by {
      forall k | k in c.revisions && k.0 == id
        ensures !((k.1 == 1 && c.revisions[k].parent.Some?) || (k.1 > 1 && c.revisions[k].parent != Some(k.1 - 1)))
      {
        assert k == (id, k.1);
      }
    }
    RecordKeepsColumns(cfg, id, head.revision, c.revisions[(id, head.revision)]);
  }

  /** Writing a validated document as a new revision gives a valid record. */
  lemma NewRowIsRecord(cfg: Config, id: string, revision: nat, d: Documents, definition: string, manifest: string)
    requires DigestsOk(cfg) && DocumentsOf(cfg, definition, manifest) == Some(d)
    requires (cfg.idValid)(id) && StoredInt(revision)
    ensures RecordOf(cfg, id, revision, RowOf(d, if revision == 1 then None else Some(revision - 1))).Ok?
  {
  }

  datatype Op =
    | Create(id: string, definition: string, manifest: string, fault: Option<Point>)
    | Update(id: string, expectedRevision: nat, expectedDigest: string, definition: string, manifest: string,
      fault: Option<Point>)

  function Next(cfg: Config, c: State, op: Op): State {
    match op
    case Create(id, definition, manifest, fault) => Created(cfg, c, id, definition, manifest, fault).0
    case Update(id, revision, digest, definition, manifest, fault) =>
      Updated(cfg, c, id, revision, digest, definition, manifest, fault).0
  }

  /** An operation, whatever fault strikes it, leaves the whole old state or the whole new one, and
      the new one only if it did not fail before its commit. */
  lemma AllOrNothing(cfg: Config, c: State, op: Op)
    requires CatalogOk(cfg, c)
    ensures Next(cfg, c, op) == c ||
      (&& DocumentsOf(cfg, op.definition, op.manifest).Some?
       && (op.fault.None? || op.fault.value == AfterCommit)
       && var d := DocumentsOf(cfg, op.definition, op.manifest).value;
          if op.Create? then
            && op.id !in c.heads && (cfg.idValid)(op.id) && c.nextSeq < SQLITE_INT_MAX
            && Next(cfg, c, op) == WithCreated(c, op.id, d)
          else op.id in c.heads && c.heads[op.id].revision == op.expectedRevision < SQLITE_INT_MAX
               && Next(cfg, c, op) == WithUpdated(c, op.id, d))
  {
    hide CatalogOk, ValidatedHead, DocumentsOf, WithCreated, WithUpdated, Reload, Unchanged;
  }

  /** What later operations can only add to. */
  ghost predicate Extends(c: State, d: State) {
    && c.nextSeq <= d.nextSeq
    && (forall k :: k in c.revisions ==> k in d.revisions && d.revisions[k] == c.revisions[k])
    && (forall id :: id in c.heads ==>
          && id in d.heads && c.heads[id].catalogSeq == d.heads[id].catalogSeq
          && c.heads[id].revision <= d.heads[id].revision)
    && (forall id :: id in d.heads && id !in c.heads ==> d.heads[id].catalogSeq >= c.nextSeq)
  }

  lemma OtherHeadOk(cfg: Config, c: State, d: State, id: string)
    requires id in c.heads && id in d.heads && HeadOk(cfg, c, id) && d.heads[id] == c.heads[id]
    requires c.nextSeq <= d.nextSeq
    requires forall r: nat :: (id, r) in d.revisions <==> (id, r) in c.revisions
    requires forall r: nat :: (id, r) in d.revisions ==> d.revisions[(id, r)] == c.revisions[(id, r)]
    ensures HeadOk(cfg, d, id)
  {
    hide RecordOf;
  }

  lemma CreateKeeps(cfg: Config, c: State, id: string, d: Documents, definition: string, manifest: string)
    requires CatalogOk(cfg, c) && DigestsOk(cfg) && DocumentsOf(cfg, definition, manifest) == Some(d)
    requires id !in c.heads && (cfg.idValid)(id) && c.nextSeq < SQLITE_INT_MAX
    ensures CatalogOk(cfg, WithCreated(c, id, d)) && Extends(c, WithCreated(c, id, d))
  {
    var after := WithCreated(c, id, d);
    CreatedHeadOk(cfg, c, id, d, definition, manifest);
    CreateExtends(c, id, d);
    hide Extends, RecordOf, DocumentsOf;
    forall other | other in after.heads && other != id
      ensures HeadOk(cfg, after, other) && after.heads[other].catalogSeq < c.nextSeq
    {
      assert HeadOk(cfg, c, other);
      OtherHeadOk(cfg, c, after, other);
    }
    hide HeadOk;
  }

  lemma CreatedHeadOk(cfg: Config, c: State, id: string, d: Documents, definition: string, manifest: string)
    requires CatalogOk(cfg, c) && DigestsOk(cfg) && DocumentsOf(cfg, definition, manifest) == Some(d)
    requires id !in c.heads && (cfg.idValid)(id) && c.nextSeq < SQLITE_INT_MAX
    ensures HeadOk(cfg, WithCreated(c, id, d), id)
  {
    NewRowIsRecord(cfg, id, 1, d, definition, manifest);
    hide RecordOf, DigestsOk, DocumentsOf;
    assert forall r: nat :: (id, r) !in c.revisions;
    hide CatalogOk;
  }

  lemma CreateExtends(c: State, id: string, d: Documents)
    requires id !in c.heads && (id, 1) !in c.revisions
    ensures Extends(c, WithCreated(c, id, d))
  {
  }

  lemma UpdateExtends(cfg: Config, c: State, id: string, d: Documents)
    requires id in c.heads && HeadOk(cfg, c, id)
    ensures Extends(c, WithUpdated(c, id, d))
  {
    hide RecordOf;
  }

  lemma UpdateKeeps(cfg: Config, c: State, id: string, d: Documents, definition: string, manifest: string)
    requires CatalogOk(cfg, c) && DigestsOk(cfg) && DocumentsOf(cfg, definition, manifest) == Some(d)
    requires id in c.heads && c.heads[id].revision < SQLITE_INT_MAX
    ensures CatalogOk(cfg, WithUpdated(c, id, d)) && Extends(c, WithUpdated(c, id, d))
  {
    hide Extends, RecordOf, DocumentsOf;
    var after := WithUpdated(c, id, d);
    assert HeadOk(cfg, c, id);
    UpdatedHeadOk(cfg, c, id, d, definition, manifest);
    UpdateExtends(cfg, c, id, d);
    forall other | other in after.heads && other != id ensures HeadOk(cfg, after, other) {
      assert HeadOk(cfg, c, other);
      OtherHeadOk(cfg, c, after, other);
    }
    hide HeadOk;
  }

  lemma UpdatedHeadOk(cfg: Config, c: State, id: string, d: Documents, definition: string, manifest: string)
    requires DigestsOk(cfg) && DocumentsOf(cfg, definition, manifest) == Some(d)
    requires id in c.heads && HeadOk(cfg, c, id) && c.heads[id].revision < SQLITE_INT_MAX
    ensures HeadOk(cfg, WithUpdated(c, id, d), id)
  {
    hide RecordOf, DigestsOk, DocumentsOf;
    NewRowIsRecord(cfg, id, c.heads[id].revision + 1, d, definition, manifest);
  }

  lemma StepKeeps(cfg: Config, c: State, op: Op)
    requires CatalogOk(cfg, c) && DigestsOk(cfg)
    ensures CatalogOk(cfg, Next(cfg, c, op)) && Extends(c, Next(cfg, c, op))
  {
    AllOrNothing(cfg, c, op);
    hide CatalogOk, Next, DigestsOk, DocumentsOf;
    if Next(cfg, c, op) != c {
      var d := DocumentsOf(cfg, op.definition, op.manifest).value;
      if op.Create? {
        CreateKeeps(cfg, c, op.id, d, op.definition, op.manifest);
      } else {
        UpdateKeeps(cfg, c, op.id, d, op.definition, op.manifest);
      }
    }
  }

  function Run(cfg: Config, c: State, ops: seq<Op>): State
    decreases |ops|
  {
    if ops == [] then c else Run(cfg, Next(cfg, c, ops[0]), ops[1..])
  }

  /** In every reachable state each head has exactly the revisions 1 to its current one with the
      right parents, sequence numbers are distinct and below the next one, and nothing saved is lost. */
  lemma {:induction false} EveryReachableState(cfg: Config, c: State, ops: seq<Op>)
    requires CatalogOk(cfg, c) && DigestsOk(cfg)
    ensures CatalogOk(cfg, Run(cfg, c, ops)) && Extends(c, Run(cfg, c, ops))
    decreases |ops|
  {
    hide CatalogOk, Next;
    if ops != [] {
      StepKeeps(cfg, c, ops[0]);
      EveryReachableState(cfg, Next(cfg, c, ops[0]), ops[1..]);
    }
  }

  lemma EmptyOk(cfg: Config)
    ensures CatalogOk(cfg, EMPTY)
  {
  }

  /** From an empty catalog on, whatever creates and updates are tried, with whatever faults: the invariant
      holds, and no head ever fails its integrity checks. */
  lemma EveryStateFromEmpty(cfg: Config, ops: seq<Op>)
    requires DigestsOk(cfg)
    ensures CatalogOk(cfg, Run(cfg, EMPTY, ops))
    ensures forall id :: id in Run(cfg, EMPTY, ops).heads ==> ValidatedHead(cfg, Run(cfg, EMPTY, ops), id).Ok?
  {
    EmptyOk(cfg);
    EveryReachableState(cfg, EMPTY, ops);
    hide CatalogOk, ValidatedHead, Run;
    forall id | id in Run(cfg, EMPTY, ops).heads ensures ValidatedHead(cfg, Run(cfg, EMPTY, ops), id).Ok? {
      HeadNeverRaises(cfg, Run(cfg, EMPTY, ops), id);
    }
  }

  /** A record that can be loaded under its revision is loaded unchanged after any later operations. */
  lemma SavedForever(cfg: Config, c: State, ops: seq<Op>, id: string, revision: nat)
    requires CatalogOk(cfg, c) && DigestsOk(cfg) && Load(cfg, c, id, Some(revision)).Ok?
    ensures Load(cfg, Run(cfg, c, ops), id, Some(revision)).Ok?
    ensures Load(cfg, Run(cfg, c, ops), id, Some(revision)).value.0 == Load(cfg, c, id, Some(revision)).value.0
  {
    var later := Run(cfg, c, ops);
    EveryReachableState(cfg, c, ops);
    hide Run, RecordOf;
    LoadsItsRow(cfg, c, id, revision);
    LoadsItsRow(cfg, later, id, revision);
  }

  /** Loading a revision succeeds exactly when it exists, and gives the record of its row. */
  lemma LoadsItsRow(cfg: Config, c: State, id: string, revision: nat)
    requires CatalogOk(cfg, c) && (cfg.idValid)(id) && StoredInt(revision)
    ensures Load(cfg, c, id, Some(revision)).Ok? <==> (id, revision) in c.revisions
    ensures (id, revision) in c.revisions ==>
      id in c.heads && RecordOf(cfg, id, revision, c.revisions[(id, revision)]).Ok?
      && Load(cfg, c, id, Some(revision)).value
        == (RecordOf(cfg, id, revision, c.revisions[(id, revision)]).value, c.heads[id].revision)
  {
    if id in c.heads {
      HeadNeverRaises(cfg, c, id);
      assert HeadOk(cfg, c, id);
    }
  }

  /** A create without a fault succeeds exactly for a valid new id with agreeing documents while
      sequence numbers last, and is read back as revision 1 with those documents. */
  lemma CreatesExactly(cfg: Config, c: State, id: string, definition: string, manifest: string)
    requires CatalogOk(cfg, c) && DigestsOk(cfg)
    ensures var (after, r) := Created(cfg, c, id, definition, manifest, None);
      && (r.Ok? <==>
          && (cfg.idValid)(id) && DocumentsOf(cfg, definition, manifest).Some?
          && id !in c.heads && c.nextSeq < SQLITE_INT_MAX)
      && (r.Ok? ==> Stores(cfg, after, id, 1, definition, manifest, r.value))
  {
    hide CatalogOk, DigestsOk, RecordOf;
    var documents := DocumentsOf(cfg, definition, manifest);
    if (cfg.idValid)(id) && documents.Some? && id !in c.heads && c.nextSeq < SQLITE_INT_MAX {
      CreateKeeps(cfg, c, id, documents.value, definition, manifest);
      NewestIsStored(cfg, WithCreated(c, id, documents.value), id, documents.value, None);
    }
  }

  /** An update without a fault writes exactly when its precondition is current and it changes
      something, while revisions last, and is read back as the next revision with its documents. */
  lemma UpdatesExactly(cfg: Config, c: State, id: string, revision: nat, digest: string, definition: string,
          manifest: string)
    requires CatalogOk(cfg, c) && DigestsOk(cfg) && id in c.heads && (cfg.idValid)(id) && StoredInt(revision)
    requires (cfg.isSha256)(digest)
    ensures (id, c.heads[id].revision) in c.revisions
    ensures var (after, r) := Updated(cfg, c, id, revision, digest, definition, manifest, None);
      var documents := DocumentsOf(cfg, definition, manifest);
      && (r.Ok? && r.value.1 <==>
            && documents.Some? && Current(c, id, revision, digest)
            && !Unchanged(c, id, documents.value) && revision < SQLITE_INT_MAX)
      && (r.Ok? && r.value.1 ==> Stores(cfg, after, id, revision + 1, definition, manifest, r.value.0))
  {
    hide CatalogOk, DigestsOk, ValidatedHead, Unchanged, Stores, Reload;
    HeadShowsItself(cfg, c, id);
    var documents := DocumentsOf(cfg, definition, manifest);
    if documents.Some? && Current(c, id, revision, digest)
      && !Unchanged(c, id, documents.value) && revision < SQLITE_INT_MAX {
      UpdateKeeps(cfg, c, id, documents.value, definition, manifest);
      NewestIsStored(cfg, WithUpdated(c, id, documents.value), id, documents.value, Some(revision));
    }
  }

  /** `record` is revision `revision` of `id`, holds these documents, and is what a load now returns. */
  predicate Stores(cfg: Config, c: State, id: string, revision: nat, definition: string, manifest: string,
          record: Record) {
    && record.catalogId == id && record.revision == revision && record.definitionJson == definition
    && record.manifestJson == manifest
    && Load(cfg, c, id, None) == Ok((record, revision))
  }

  lemma NewestIsStored(cfg: Config, c: State, id: string, d: Documents, parent: Option<nat>)
    requires CatalogOk(cfg, c) && id in c.heads && (cfg.idValid)(id)
    requires (id, c.heads[id].revision) in c.revisions && c.revisions[(id, c.heads[id].revision)] == RowOf(d, parent)
    ensures Reload(cfg, c, id).Ok?
    ensures Stores(cfg, c, id, c.heads[id].revision, d.definitionJson, d.manifestJson, Reload(cfg, c, id).value)
  {
    HeadNeverRaises(cfg, c, id);
    hide ValidatedHead, CatalogOk;
  }

  // ----- Competing writers -----

  /** Did this update write a new revision? */
  predicate Wrote(cfg: Config, c: State, op: Op) {
    op.Update? && Next(cfg, c, op) != c
  }

  lemma WroteMoves(cfg: Config, c: State, op: Op)
    requires CatalogOk(cfg, c) && Wrote(cfg, c, op)
    ensures op.id in c.heads && c.heads[op.id].revision == op.expectedRevision
    ensures op.id in Next(cfg, c, op).heads && Next(cfg, c, op).heads[op.id].revision == op.expectedRevision + 1
  {
    AllOrNothing(cfg, c, op);
  }

  /** Among writers holding the same revision of a workflow at most one ever writes. */
  lemma OneWriterPerRevision(cfg: Config, c: State, ops: seq<Op>, i: nat, j: nat)
    requires CatalogOk(cfg, c) && DigestsOk(cfg) && i < j < |ops|
    requires Wrote(cfg, Run(cfg, c, ops[..i]), ops[i])
    requires ops[j].Update? && ops[j].id == ops[i].id && ops[j].expectedRevision == ops[i].expectedRevision
    ensures !Wrote(cfg, Run(cfg, c, ops[..j]), ops[j])
  {
    hide CatalogOk, Next;
    var before, late := Run(cfg, c, ops[..i]), Run(cfg, c, ops[..j]);
    EveryReachableState(cfg, c, ops[..i]);
    EveryReachableState(cfg, c, ops[..j]);
    WroteMoves(cfg, before, ops[i]);
    StepKeeps(cfg, before, ops[i]);
    var between := ops[i + 1..j];
    RunSplit(cfg, c, ops[..j], i);
    assert ops[..j][..i] == ops[..i] && ops[..j][i..][0] == ops[i] && ops[..j][i..][1..] == between;
    EveryReachableState(cfg, Next(cfg, before, ops[i]), between);
    if Wrote(cfg, late, ops[j]) {
      WroteMoves(cfg, late, ops[j]);
    }
  }

  lemma {:induction false} RunSplit(cfg: Config, c: State, ops: seq<Op>, n: nat)
    requires n <= |ops|
    ensures Run(cfg, c, ops) == Run(cfg, Run(cfg, c, ops[..n]), ops[n..])
    decreases n
  {
    if n == 0 {
      assert ops[..0] == [] && ops[0..] == ops;
    } else {
      RunSplit(cfg, Next(cfg, c, ops[0]), ops[1..], n - 1);
      assert ops[..n][0] == ops[0] && ops[..n][1..] == ops[1..][..n - 1] && ops[n..] == ops[1..][n - 1..];
    }
  }

  /** A precondition matches the current head. */
  predicate Current(c: State, id: string, revision: nat, digest: string) {
    id in c.heads && c.heads[id].revision == revision && c.heads[id].definitionSha256 == digest
  }

  /** The precondition of an update is accepted exactly while it is current: a stale one is refused
      with the current revision, a current one is never refused as stale, and an accepted update
      that changes nothing leaves the very same precondition current. */
  lemma PreconditionExactly(cfg: Config, c: State, op: Op)
    requires CatalogOk(cfg, c) && op.Update? && op.id in c.heads && (cfg.idValid)(op.id)
    requires StoredInt(op.expectedRevision) && (cfg.isSha256)(op.expectedDigest)
    requires DocumentsOf(cfg, op.definition, op.manifest).Some?
    ensures var r :=
      Updated(cfg, c, op.id, op.expectedRevision, op.expectedDigest, op.definition, op.manifest, op.fault).1;
      && (Current(c, op.id, op.expectedRevision, op.expectedDigest) <==> !(r.Err? && r.error.RevisionMismatch?))
      && (r.Err? && r.error.RevisionMismatch? ==> Current(c, op.id, r.error.revision, r.error.digest))
      && (r.Ok? && !r.value.1 ==> Current(Next(cfg, c, op), op.id, op.expectedRevision, op.expectedDigest))
  {
    hide ValidatedHead, CatalogOk, DocumentsOf, Reload, WithUpdated, Unchanged;
    HeadShowsItself(cfg, c, op.id);
    ReloadIsNotMismatch(cfg, op.id);
  }

  /** The validated head of a valid state carries the digest of its head row. */
  lemma HeadShowsItself(cfg: Config, c: State, id: string)
    requires CatalogOk(cfg, c) && id in c.heads
    ensures (id, c.heads[id].revision) in c.revisions && ValidatedHead(cfg, c, id).Ok?
    ensures ValidatedHead(cfg, c, id).value.definitionSha256 == c.heads[id].definitionSha256
  {
    hide ValidatedHead, RecordOf, CatalogOk;
    HeadNeverRaises(cfg, c, id);
    HeadHasRevision(cfg, c, id);
    RecordKeepsColumns(cfg, id, c.heads[id].revision, c.revisions[(id, c.heads[id].revision)]);
  }

  lemma ReloadIsNotMismatch(cfg: Config, id: string)
    ensures forall d: State :: var r := Reload(cfg, d, id); r.Err? ==> !r.error.RevisionMismatch?
  {
  }

  // ----- Listing -----

  /** What a head's summary says, read off its own columns. */
  function HeadSummary(c: State, id: string): SavedSummary
    requires id in c.heads
  {
    var head := c.heads[id];
    SavedSummary(id, head.catalogSeq, head.revision, head.workflowId, head.version, head.definitionSha256)
  }

  lemma {:induction false} SummariesAre(cfg: Config, c: State, rows: seq<nat>)
    requires CatalogOk(cfg, c) && UniqueSequences(c) && forall k :: 0 <= k < |rows| ==> rows[k] in Sequences(c)
    ensures Summaries(cfg, c, rows).Ok? && |Summaries(cfg, c, rows).value| == |rows|
    ensures forall k :: 0 <= k < |rows| ==> Summaries(cfg, c, rows).value[k] == HeadSummary(c, HeadAt(c, rows[k]))
    decreases |rows|
  {
    hide CatalogOk, UniqueSequences, Sequences, HeadAt, ValidatedHead;
    if rows != [] {
      SummariesAre(cfg, c, rows[1..]);
      SummaryIs(cfg, c, HeadAt(c, rows[0]));
      assert forall k :: 0 < k < |rows| ==> rows[k] == rows[1..][k - 1];
    }
  }

  lemma SummaryIs(cfg: Config, c: State, id: string)
    requires CatalogOk(cfg, c) && id in c.heads
    ensures ValidatedHead(cfg, c, id).Ok? && SummaryOf(c, id, ValidatedHead(cfg, c, id).value) == HeadSummary(c, id)
  {
    HeadNeverRaises(cfg, c, id);
    HeadHasRevision(cfg, c, id);
    assert HeadOk(cfg, c, id);
    hide ValidatedHead, CatalogOk;
    RecordKeepsColumns(cfg, id, c.heads[id].revision, c.revisions[(id, c.heads[id].revision)]);
  }

  /** In every valid state a well-formed request for a page succeeds: it shows the newest heads before the
      cursor as they stand, and a next cursor exactly when more are left. */
  lemma ListsItsPage(cfg: Config, c: State, limit: int, before: Option<int>)
    requires CatalogOk(cfg, c) && ListArguments(limit, before)
    ensures UniqueSequences(c) && Listed(cfg, c, limit, before).Ok?
    ensures var page, rows := Listed(cfg, c, limit, before).value, PageRows(c, limit, before);
      && |page.items| == |rows|
      && (forall k :: 0 <= k < |rows| ==> page.items[k] == HeadSummary(c, HeadAt(c, rows[k])))
      && page.nextBefore == NextBefore(Sequences(c), if before.Some? then Some(before.value as nat) else None, limit)
  {
    hide HeadOk, Descending, Below, Summaries, HeadAt, Sequences;
    assert UniqueSequences(c);
    hide CatalogOk, UniqueSequences;
    SummariesAre(cfg, c, PageRows(c, limit + 1, before));
  }

  /** A later state has every head it had, under the same number, and all others under larger ones. */
  lemma ExtendedIsLater(cfg: Config, c: State, d: State)
    requires CatalogOk(cfg, c) && Extends(c, d)
    ensures Later(Sequences(c), Sequences(d))
  {
    forall n | n in Sequences(c) ensures n in Sequences(d) && n < c.nextSeq {
      var id :| id in c.heads && c.heads[id].catalogSeq == n;
      assert HeadOk(cfg, c, id);
      assert id in d.heads && d.heads[id].catalogSeq == n;
    }
    forall n | n in Sequences(d) && n !in Sequences(c) ensures n >= c.nextSeq {
      var id :| id in d.heads && d.heads[id].catalogSeq == n;
      assert forall other :: other in c.heads ==> c.heads[other].catalogSeq in Sequences(c);
      assert forall other :: other in c.heads ==> c.heads[other].catalogSeq != n;
    }
  }

  /** The state a reader meets at its `k`-th page, when `gaps(i)` ran between its pages `i` and `i + 1`. */
  function Met(cfg: Config, c: State, gaps: nat -> seq<Op>, k: nat): State {
    if k == 0 then c else Run(cfg, Met(cfg, c, gaps, k - 1), gaps(k - 1))
  }

  lemma {:induction false} MetExtends(cfg: Config, c: State, gaps: nat -> seq<Op>, k: nat)
    requires CatalogOk(cfg, c) && DigestsOk(cfg)
    ensures CatalogOk(cfg, Met(cfg, c, gaps, k)) && Extends(c, Met(cfg, c, gaps, k))
  {
    hide CatalogOk, Run, DigestsOk;
    if k > 0 {
      MetExtends(cfg, c, gaps, k - 1);
      EveryReachableState(cfg, Met(cfg, c, gaps, k - 1), gaps(k - 1));
    }
  }

  /** Following the next cursors through any creates and updates in between, a client sees exactly the
      workflows there were at its first page, each once, newest first. */
  lemma ListingVisitsAllOnce(cfg: Config, c: State, gaps: nat -> seq<Op>, limit: nat)
    requires CatalogOk(cfg, c) && DigestsOk(cfg) && limit > 0
    ensures var (visited, done) := Walk((k: nat) => Sequences(Met(cfg, c, gaps, k)), 0, None, limit, |Sequences(c)|);
      && done && |visited| == |c.heads| && NewestFirst(visited)
      && (forall n :: n in visited <==> exists id :: id in c.heads && c.heads[id].catalogSeq == n)
  {
    var tables := (k: nat) => Sequences(Met(cfg, c, gaps, k));
    forall k: nat ensures Later(tables(0), tables(k)) {
      MetExtends(cfg, c, gaps, k);
      ExtendedIsLater(cfg, c, Met(cfg, c, gaps, k));
    }
    assert UniqueSequences(c);
    SequenceCount(c, c.heads.Keys);
    assert Sequences(c) == set id | id in c.heads.Keys :: c.heads[id].catalogSeq;
    hide CatalogOk, Later, Walk, NewestFirst, Met, Extends;
    WalkVisitsAllOnce(tables, limit);
  }

  /** Different heads have different numbers. */
  lemma {:induction false} SequenceCount(c: State, ids: set<string>)
    requires UniqueSequences(c) && ids <= c.heads.Keys
    ensures |set id | id in ids :: c.heads[id].catalogSeq| == |ids|
    decreases |ids|
  {
    if ids == {} {
      assert (set id | id in ids :: c.heads[id].catalogSeq) == {};
    } else {
      var a :| a in ids;
      var rest := ids - {a};
      SequenceCount(c, rest);
      var n, others := c.heads[a].catalogSeq, set id | id in rest :: c.heads[id].catalogSeq;
      assert n !in others;
      assert (set id | id in ids :: c.heads[id].catalogSeq) == others + {n} by {
        assert ids == rest + {a};
      }
    }
  }
}

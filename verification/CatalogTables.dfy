/** The saved-workflow tables and the integrity checks made when they are read. */
module CatalogTables {
  import opened Wrappers

  const SQLITE_INT_MAX := 0x7FFF_FFFF_FFFF_FFFF

  /** What a stored definition parses to. */
  datatype Spec = Spec(workflowId: string, version: string, digest: string)

  /** The opaque parts of the catalog: parsing and digesting definitions, checking manifests,
      hashing, and the identifier and digest syntax. */
  datatype Config = Config(
    parse: string -> Option<Spec>,
    manifestValid: (Spec, string) -> bool,
    hash: string -> string,
    idValid: string -> bool,
    isSha256: string -> bool)

  datatype Documents = Documents(spec: Spec, definitionJson: string, manifestJson: string, manifestSha256: string)

  datatype RevisionRow = RevisionRow(
    parent: Option<nat>,
    workflowId: string,
    version: string,
    definitionSha256: string,
    definitionJson: string,
    manifestSha256: string,
    manifestJson: string)

  datatype HeadRow = HeadRow(catalogSeq: nat, revision: nat, definitionSha256: string, workflowId: string,
          version: string)

  datatype Catalog = Catalog(revisions: map<(string, nat), RevisionRow>, heads: map<string, HeadRow>, nextSeq: nat)

  datatype Record = Record(
    catalogId: string,
    revision: nat,
    parent: Option<nat>,
    spec: Spec,
    definitionJson: string,
    definitionSha256: string,
    manifestJson: string)

  datatype Point = BeforeRevisionInsert | AfterRevisionInsert | AfterHeadWrite | AfterCommit

  datatype CatalogError =
    | InvalidArgument | InvalidDocuments | Exists | NotFound | RevisionMismatch(revision: nat, digest: string)
    | Integrity | Fault(point: Point)

  const EMPTY := Catalog(map[], map[], 1)

  /** Definition and manifest as they will be stored, if they agree. */
  function DocumentsOf(cfg: Config, definitionJson: string, manifestJson: string): Option<Documents> {
    match (cfg.parse)(definitionJson)
    case None => None
    case Some(spec) =>
      if !(cfg.manifestValid)(spec, manifestJson) then None
      else Some(Documents(spec, definitionJson, manifestJson, (cfg.hash)(manifestJson)))
  }

  predicate StoredInt(n: nat) {
    1 <= n <= SQLITE_INT_MAX
  }

  /** Rebuilds a record from a stored row, refusing anything that does not agree with itself. */
  function RecordOf(cfg: Config, id: string, revision: nat, row: RevisionRow): Result<Record, CatalogError> {
    if !(cfg.idValid)(id) then Err(Integrity)
    else
      match (cfg.parse)(row.definitionJson)
      case None => Err(Integrity)
      case Some(spec) =>
        if !(cfg.manifestValid)(spec, row.manifestJson)
          || !(cfg.isSha256)(row.definitionSha256) || !(cfg.isSha256)(row.manifestSha256)
          || spec.digest != row.definitionSha256 || (cfg.hash)(row.manifestJson) != row.manifestSha256
          || row.workflowId != spec.workflowId || row.version != spec.version
          || !StoredInt(revision) || (row.parent.Some? && !StoredInt(row.parent.value))
          || (revision == 1 && row.parent.Some?) || (revision > 1 && row.parent != Some(revision - 1))
        then Err(Integrity)
        else Ok(Record(id, revision, row.parent, spec, row.definitionJson, row.definitionSha256, row.manifestJson))
  }

  function RevisionsOf(c: Catalog, id: string): set<nat> {
    set k | k in c.revisions && k.0 == id :: k.1
  }

  predicate ParentAnomaly(c: Catalog, id: string) {
    exists k :: k in c.revisions && k.0 == id &&
      ((k.1 == 1 && c.revisions[k].parent.Some?) || (k.1 > 1 && c.revisions[k].parent != Some(k.1 - 1)))
  }

  /** Checks a head against its revision and its whole revision chain. */
  function ValidatedHead(cfg: Config, c: Catalog, id: string): Result<Record, CatalogError>
    requires id in c.heads
  {
    var head := c.heads[id];
    var revisions := RevisionsOf(c, id);
    if !(cfg.idValid)(id) || !StoredInt(head.catalogSeq) || !StoredInt(head.revision) then Err(Integrity)
    else if (id, head.revision) !in c.revisions then Err(Integrity)
    else
      match RecordOf(cfg, id, head.revision, c.revisions[(id, head.revision)])
      case Err(e) => Err(e)
      case Ok(record) =>
        if head.definitionSha256 != record.definitionSha256 || head.workflowId != record.spec.workflowId
          || head.version != record.spec.version
          || |revisions| != head.revision || 1 !in revisions
          || (exists r :: r in revisions && (r < 1 || r > head.revision))
          || ParentAnomaly(c, id)
        then Err(Integrity)
        else Ok(record)
  }

  function Load(cfg: Config, c: Catalog, id: string, revision: Option<nat>): Result<(Record, nat), CatalogError> {
    if !(cfg.idValid)(id) || (revision.Some? && !StoredInt(revision.value)) then Err(InvalidArgument)
    else if id !in c.heads then Err(NotFound)
    else
      match ValidatedHead(cfg, c, id)
      case Err(e) => Err(e)
      case Ok(current) =>
        if revision.None? || revision.value == c.heads[id].revision then Ok((current, c.heads[id].revision))
        else if (id, revision.value) !in c.revisions then Err(NotFound)
        else
          match RecordOf(cfg, id, revision.value, c.revisions[(id, revision.value)])
          case Err(e) => Err(e)
          case Ok(record) => Ok((record, c.heads[id].revision))
  }

  function RowOf(d: Documents, parent: Option<nat>): RevisionRow {
    RevisionRow(parent, d.spec.workflowId, d.spec.version, d.spec.digest, d.definitionJson, d.manifestSha256,
      d.manifestJson)
  }

  function HeadOf(d: Documents, catalogSeq: nat, revision: nat): HeadRow {
    HeadRow(catalogSeq, revision, d.spec.digest, d.spec.workflowId, d.spec.version)
  }

  /** The state after a successful create: revision 1, its head, and the next sequence number. */
  function WithCreated(c: Catalog, id: string, d: Documents): Catalog {
    Catalog(c.revisions[(id, 1) := RowOf(d, None)], c.heads[id := HeadOf(d, c.nextSeq, 1)], c.nextSeq + 1)
  }

  /** The state after a successful changing update: one more revision, and the head moved to it. */
  function WithUpdated(c: Catalog, id: string, d: Documents): Catalog
    requires id in c.heads
  {
    var head := c.heads[id];
    c.(revisions := c.revisions[(id, head.revision + 1) := RowOf(d, Some(head.revision))],
       heads := c.heads[id := HeadOf(d, head.catalogSeq, head.revision + 1)])
  }
}

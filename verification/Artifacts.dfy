/** Content-addressed artifact blobs beside the run store, with a crash possible at every step. */
module Artifacts {
  import opened Wrappers
  import opened RunTables
  import opened RunStore

  const MAX_ARTIFACT_BYTES := 16 * 1024 * 1024

  /** The hash, the media-type sniffer and the derived artifact identity. */
  datatype Functions = Functions(
    hash: Bytes -> string,
    detect: Bytes -> string,
    identity: (string, string, string, string) -> string)

  datatype ArtifactError = TooLarge | Corrupted | NotFound | Store(error: StoreError)

  datatype PutResult = Stored(artifactId: string, row: ArtifactRow) | Crashed | Failed(error: ArtifactError)

  /** The blob under a digest has the expected length and hash. */
  predicate Verified(f: Functions, blobs: map<string, Bytes>, digest: string, size: nat) {
    digest in blobs && |blobs[digest]| == size && size <= MAX_ARTIFACT_BYTES && (f.hash)(blobs[digest]) == digest
  }

  /** Every blob hashes to its own path, and every registered artifact has its verified blob. */
  ghost predicate DiskOk(f: Functions, blobs: map<string, Bytes>, t: Tables) {
    && (forall d :: d in blobs ==> (f.hash)(blobs[d]) == d)
    && (forall a :: a in t.artifacts ==> Verified(f, blobs, t.artifacts[a].contentSha256, t.artifacts[a].size))
    && RunsOk(t) && ArtifactsOk(t)
  }

  /** No path that was ever linked is removed or overwritten. */
  ghost predicate BlobsKept(before: map<string, Bytes>, after: map<string, Bytes>) {
    forall d :: d in before ==> d in after && after[d] == before[d]
  }

  // ----- The two operations on values -----

  datatype Disk = Disk(blobs: map<string, Bytes>, temporaries: map<string, Bytes>)

  datatype World = World(disk: Disk, tables: Tables)

  datatype Written = Written(disk: Disk, outcome: Option<PutResult>, left: nat)

  /** Makes the blob exist without ever overwriting one: a private temporary file, filled byte by byte, then
      one atomic link, which finds the path taken if a rival linked its own blob there first. The process
      dies after `lifetime` steps, if it gets that far. */
  function WriteStep(f: Functions, d: Disk, digest: string, content: Bytes, temporary: string, rival: Option<Bytes>,
          lifetime: nat): Written
  {
    if digest in d.blobs then
      Written(d, if Verified(f, d.blobs, digest, |content|) then None else Some(Failed(Corrupted)), lifetime)
    else if lifetime <= |content| then
      Written(d.(temporaries := d.temporaries[temporary := content[..lifetime]]), Some(Crashed), 0)
    else
      var linked := Disk(d.blobs[digest := if rival.Some? then rival.value else content],
                         d.temporaries[temporary := content]);
      if lifetime == |content| + 1 then Written(linked, Some(Crashed), 0)
      else
        Written(linked.(temporaries := linked.temporaries - {temporary}),
                if Verified(f, linked.blobs, digest, |content|) then None else Some(Failed(Corrupted)),
                lifetime - |content| - 2)
  }

  datatype PutArgs = PutArgs(
    runId: string,
    content: Bytes,
    filename: string,
    declared: Option<string>,
    artifactId: Option<string>,
    temporary: string,
    rival: Option<Bytes>,
    lifetime: nat)

  /** A rival can only be another put of the same digest. */
  predicate FairRival(f: Functions, a: PutArgs) {
    a.rival.Some? ==> (f.hash)(a.rival.value) == (f.hash)(a.content)
  }

  function IdOf(f: Functions, a: PutArgs): string {
    if a.artifactId.Some? then a.artifactId.value
    else (f.identity)(a.runId, (f.hash)(a.content), a.filename, (f.detect)(a.content))
  }

  function RowOf(f: Functions, a: PutArgs): ArtifactRow {
    ArtifactRow(a.runId, (f.hash)(a.content), |a.content|, a.filename, a.declared, (f.detect)(a.content), 0)
  }

  /** Writes the blob first and registers it after, so no crash leaves a row without its blob. */
  ghost function PutStep(f: Functions, w: World, a: PutArgs): (World, PutResult) {
    if |a.content| > MAX_ARTIFACT_BYTES then (w, Failed(TooLarge))
    else
      var written := WriteStep(f, w.disk, (f.hash)(a.content), a.content, a.temporary, a.rival, a.lifetime);
      if written.outcome.Some? then (World(written.disk, w.tables), written.outcome.value)
      else if written.left == 0 then (World(written.disk, w.tables), Crashed)
      else
        match Registered(w.tables, w.tables, IdOf(f, a), RowOf(f, a))
        case Err(e) => (World(written.disk, w.tables), Failed(Store(e)))
        case Ok(done) =>
          (World(written.disk, done.0),
           if written.left == 1 then Crashed
           else if Verified(f, written.disk.blobs, done.1.contentSha256, done.1.size) then Stored(IdOf(f, a), done.1)
           else Failed(Corrupted))
  }

  function GetStep(f: Functions, w: World, runId: string, artifactId: string)
    : Result<(ArtifactRow, Bytes), ArtifactError>
  {
    if artifactId !in w.tables.artifacts || w.tables.artifacts[artifactId].runId != runId then Err(NotFound)
    else
      var row := w.tables.artifacts[artifactId];
      if Verified(f, w.disk.blobs, row.contentSha256, row.size) then Ok((row, w.disk.blobs[row.contentSha256]))
      else Err(Corrupted)
  }

  class ArtifactStore {
    const f: Functions
    const store: SQLiteStore
    var blobs: map<string, Bytes>
    var temporaries: map<string, Bytes>

    constructor (f: Functions, store: SQLiteStore)
      requires RunsOk(store.tables) && ArtifactsOk(store.tables) && store.tables.artifacts == map[]
      ensures this.f == f && this.store == store && blobs == map[] && Valid()
    {
      this.f, this.store := f, store;
      blobs, temporaries := map[], map[];
    }

    ghost predicate Valid()
      reads this, store
    {
      DiskOk(f, blobs, store.tables)
    }

    ghost function Files(): Disk
      reads this
    {
      Disk(blobs, temporaries)
    }

    ghost function State(): World
      reads this, store
    {
      World(Files(), store.tables)
    }

    method ReadVerified(digest: string, size: nat) returns (r: Result<Bytes, ArtifactError>)
      ensures r == if Verified(f, blobs, digest, size) then Ok(blobs[digest]) else Err(Corrupted)
    {
      if digest !in blobs {
        return Err(Corrupted);
      }
      var content := blobs[digest];
      if |content| != size || size > MAX_ARTIFACT_BYTES || (f.hash)(content) != digest {
        return Err(Corrupted);
      }
      r := Ok(content);
    }

    /** `rival` is the blob another writer linked after this one looked, if one did. */
    method WriteBlob(digest: string, content: Bytes, temporary: string, rival: Option<Bytes>, lifetime: nat)
      returns (outcome: Option<PutResult>, left: nat)
      modifies this
      ensures Written(Files(), outcome, left) == WriteStep(f, old(Files()), digest, content, temporary, rival, lifetime)
    {
      left := lifetime;
      if digest in blobs {
        var existing := ReadVerified(digest, |content|);
        outcome := if existing.Err? then Some(Failed(Corrupted)) else None;
        return;
      }
      temporaries := temporaries[temporary := []];
      var written := 0;
      while written < |content|
        invariant 0 <= written <= |content| && left == lifetime - written
        invariant temporaries == old(temporaries)[temporary := content[..written]]
        invariant blobs == old(blobs)
      {
        if left == 0 {
          return Some(Crashed), 0;
        }
        assert content[..written] + [content[written]] == content[..written + 1];
        temporaries := temporaries[temporary := temporaries[temporary] + [content[written]]];
        written, left := written + 1, left - 1;
      }
      assert content[..written] == content;
      if left == 0 {
        return Some(Crashed), 0;
      }
      if rival.Some? {
        blobs := blobs[digest := rival.value];
      } else {
        blobs := blobs[digest := temporaries[temporary]];
      }
      left := left - 1;
      if left == 0 {
        return Some(Crashed), 0;
      }
      temporaries, left := temporaries - {temporary}, left - 1;
      var linked := ReadVerified(digest, |content|);
      outcome := if linked.Err? then Some(Failed(Corrupted)) else None;
    }

    method Put(a: PutArgs) returns (r: PutResult)
      requires Valid() && FairRival(f, a)
      modifies this, store
      ensures (State(), r) == PutStep(f, old(State()), a)
      ensures Valid() && BlobsKept(old(blobs), blobs) && Extends(old(store.tables), store.tables)
    {
      hide RunsOk, ArtifactsOk, Registered, Extends, WriteStep;
      PutKeeps(f, State(), a);
      if |a.content| > MAX_ARTIFACT_BYTES {
        return Failed(TooLarge);
      }
      var digest := (f.hash)(a.content);
      var stopped, left := WriteBlob(digest, a.content, a.temporary, a.rival, a.lifetime);
      if stopped.Some? {
        return stopped.value;
      }
      if left == 0 {
        return Crashed;
      }
      var registered := store.RegisterArtifact(store.tables, IdOf(f, a), RowOf(f, a));
      if registered.Err? {
        return Failed(Store(registered.error));
      }
      if left == 1 {
        return Crashed;
      }
      var again := ReadVerified(registered.value.contentSha256, registered.value.size);
      r := if again.Ok? then Stored(IdOf(f, a), registered.value) else Failed(Corrupted);
    }

    method Get(runId: string, artifactId: string) returns (r: Result<(ArtifactRow, Bytes), ArtifactError>)
      ensures r == GetStep(f, State(), runId, artifactId)
    {
      if artifactId !in store.tables.artifacts || store.tables.artifacts[artifactId].runId != runId {
        return Err(NotFound);
      }
      var row := store.tables.artifacts[artifactId];
      var content := ReadVerified(row.contentSha256, row.size);
      r := if content.Ok? then Ok((row, content.value)) else Err(content.error);
    }
  }

  // ----- What a write keeps -----

  /** Whatever step it dies at, a write overwrites no path and adds none but its own; if it succeeds the
      blob is verified, and if it finds the blob corrupted, other content with the same digest is there. */
  lemma WriteKeeps(f: Functions, d: Disk, content: Bytes, temporary: string, rival: Option<Bytes>, lifetime: nat)
    requires |content| <= MAX_ARTIFACT_BYTES && (rival.Some? ==> (f.hash)(rival.value) == (f.hash)(content))
    requires forall path :: path in d.blobs ==> (f.hash)(d.blobs[path]) == path
    ensures var digest := (f.hash)(content); var w := WriteStep(f, d, digest, content, temporary, rival, lifetime);
      && BlobsKept(d.blobs, w.disk.blobs) && w.left <= lifetime
      && (forall path :: path in w.disk.blobs ==> (f.hash)(w.disk.blobs[path]) == path)
      && (forall path :: path in w.disk.blobs && path !in d.blobs ==> path == digest)
      && (w.outcome.None? ==> Verified(f, w.disk.blobs, digest, |content|))
      && (w.outcome.Some? ==> w.outcome.value == Crashed || w.outcome.value == Failed(Corrupted))
      && (w.outcome == Some(Failed(Corrupted)) ==> digest in w.disk.blobs && w.disk.blobs[digest] != content)
  {
  }

  lemma KeptStaysVerified(f: Functions, before: map<string, Bytes>, after: map<string, Bytes>, t: Tables)
    requires DiskOk(f, before, t) && BlobsKept(before, after)
    requires forall d :: d in after && d !in before ==> (f.hash)(after[d]) == d
    ensures DiskOk(f, after, t)
  {
    hide RunsOk, ArtifactsOk;
  }

  /** A registration adds at most its own row, with the supplied content columns. */
  lemma RegisteredRow(seen: Tables, t: Tables, artifactId: string, row: ArtifactRow)
    requires Registered(seen, t, artifactId, row).Ok?
    ensures var (u, stored) := Registered(seen, t, artifactId, row).value;
      && artifactId in u.artifacts && u.artifacts[artifactId] == stored && SameContent(stored, row)
      && (forall a :: a in u.artifacts && a != artifactId ==> a in t.artifacts && u.artifacts[a] == t.artifacts[a])
  {
  }

  lemma RegisteredColumns(stored: ArtifactRow, row: ArtifactRow)
    requires SameContent(stored, row)
    ensures stored == row.(createdSeq := stored.createdSeq)
  {
  }

  predicate InjectiveOn(f: Functions, contents: set<Bytes>) {
    forall x, y :: x in contents && y in contents && (f.hash)(x) == (f.hash)(y) ==> x == y
  }

  /** If the hash is injective on the stored contents, what is read under a row that was stored for
      some content is that content, however many artifacts were stored in between. */
  lemma ReadBackIsWhatWasPut(f: Functions, blobs: map<string, Bytes>, t: Tables, artifactId: string, content: Bytes)
    requires DiskOk(f, blobs, t) && artifactId in t.artifacts
    requires t.artifacts[artifactId].contentSha256 == (f.hash)(content)
    requires InjectiveOn(f, blobs.Values + {content})
    ensures t.artifacts[artifactId].contentSha256 in blobs && blobs[t.artifacts[artifactId].contentSha256] == content
  {
    hide RunsOk, ArtifactsOk;
    var digest := t.artifacts[artifactId].contentSha256;
    assert Verified(f, blobs, digest, t.artifacts[artifactId].size);
    assert blobs[digest] in blobs.Values;
  }

  // ----- Runs of puts, crashes and drivers -----

  datatype Op = PutOp(args: PutArgs) | Drive(op: RunStore.Op)

  ghost function Next(f: Functions, w: World, op: Op): World {
    match op
    case PutOp(a) => PutStep(f, w, a).0
    case Drive(o) => w.(tables := RunStore.Next(w.tables, o))
  }

  /** Only puts register artifacts. */
  ghost predicate Disciplined(f: Functions, w: World, op: Op) {
    match op
    case PutOp(a) => FairRival(f, a)
    case Drive(o) => !o.Register? && RunStore.Disciplined(w.tables, o)
  }

  ghost predicate AllDisciplined(f: Functions, w: World, ops: seq<Op>)
    decreases |ops|
  {
    ops == [] || (Disciplined(f, w, ops[0]) && AllDisciplined(f, Next(f, w, ops[0]), ops[1..]))
  }

  ghost function Run(f: Functions, w: World, ops: seq<Op>): World
    decreases |ops|
  {
    if ops == [] then w else Run(f, Next(f, w, ops[0]), ops[1..])
  }

  ghost predicate WorldOk(f: Functions, w: World) {
    DiskOk(f, w.disk.blobs, w.tables)
  }

  /** Nothing that was stored is lost or changed. */
  ghost predicate Grows(w: World, u: World) {
    BlobsKept(w.disk.blobs, u.disk.blobs) && Extends(w.tables, u.tables)
  }

  lemma PutKeeps(f: Functions, w: World, a: PutArgs)
    requires WorldOk(f, w) && FairRival(f, a)
    ensures WorldOk(f, PutStep(f, w, a).0) && Grows(w, PutStep(f, w, a).0)
    ensures PutStep(f, w, a).1.Stored? ==> Describes(f, PutStep(f, w, a).0, a, PutStep(f, w, a).1)
    ensures PutStep(f, w, a).1 == Failed(TooLarge) <==> |a.content| > MAX_ARTIFACT_BYTES
    ensures PutStep(f, w, a).1 == Failed(Corrupted) ==>
      var blobs := PutStep(f, w, a).0.disk.blobs;
      (f.hash)(a.content) in blobs && blobs[(f.hash)(a.content)] != a.content
  {
    hide RunsOk, ArtifactsOk, Registered, Extends, WriteStep, SameContent, IdOf;
    ExtendsItself(w.tables);
    if |a.content| <= MAX_ARTIFACT_BYTES {
      WriteKeeps(f, w.disk, a.content, a.temporary, a.rival, a.lifetime);
      var written := WriteStep(f, w.disk, (f.hash)(a.content), a.content, a.temporary, a.rival, a.lifetime);
      KeptStaysVerified(f, w.disk.blobs, written.disk.blobs, w.tables);
      var registered := Registered(w.tables, w.tables, IdOf(f, a), RowOf(f, a));
      if written.outcome.None? && written.left > 0 && registered.Ok? {
        RegisterKeeps(w.tables, w.tables, IdOf(f, a), RowOf(f, a));
        RegisteredRow(w.tables, w.tables, IdOf(f, a), RowOf(f, a));
        RegisteredColumns(registered.value.1, RowOf(f, a));
      }
    }
  }

  /** The stored row is the one of this very content. */
  ghost predicate Describes(f: Functions, w: World, a: PutArgs, r: PutResult)
    requires r.Stored?
  {
    && r.artifactId == IdOf(f, a) && r.artifactId in w.tables.artifacts && w.tables.artifacts[r.artifactId] == r.row
    && r.row == RowOf(f, a).(createdSeq := r.row.createdSeq)
  }

  lemma DriversKeepArtifacts(t: Tables, op: RunStore.Op)
    requires !op.Register?
    ensures RunStore.Next(t, op).artifacts == t.artifacts
  {
    hide Mutated, AddEvents, LastSeq;
    match op {
      case Start(_, _, _, _) =>
      case Commit(current, updated, _, m) => MutationArtifacts(t, current.runId, updated.body.step, m);
      case Resolve(seen, runId, fingerprint, approved, _) =>
        if runId in seen.runs {
          MutationArtifacts(t, runId, seen.runs[runId].body.step, Decide(fingerprint, approved));
        }
    }
  }

  lemma MutationArtifacts(t: Tables, runId: string, step: int, m: Mutation)
    ensures Mutated(t, runId, step, m).Ok? ==> Mutated(t, runId, step, m).value.artifacts == t.artifacts
  {
    hide Mutated;
    if Mutated(t, runId, step, m).Ok? {
      MutationFrame(t, runId, step, m);
    }
  }

  /** A get finds exactly the artifacts registered for the run, and returns content of the registered
      length and digest. */
  lemma GetFindsExactly(f: Functions, w: World, runId: string, artifactId: string)
    requires WorldOk(f, w)
    ensures var r := GetStep(f, w, runId, artifactId);
      && (r.Ok? <==> artifactId in w.tables.artifacts && w.tables.artifacts[artifactId].runId == runId)
      && (r.Ok? ==> r.value.0 == w.tables.artifacts[artifactId])
      && (r.Ok? ==> |r.value.1| == r.value.0.size && (f.hash)(r.value.1) == r.value.0.contentSha256)
  {
    hide RunsOk, ArtifactsOk;
  }

  lemma NextKeeps(f: Functions, w: World, op: Op)
    requires WorldOk(f, w) && Disciplined(f, w, op)
    ensures WorldOk(f, Next(f, w, op)) && Grows(w, Next(f, w, op))
  {
    hide RunsOk, ArtifactsOk, Extends, PutStep, RunStore.Next, RunStore.Disciplined;
    match op {
      case PutOp(a) => PutKeeps(f, w, a);
      case Drive(o) =>
        StepKeeps(w.tables, o);
        DriversKeepArtifacts(w.tables, o);
    }
  }

  /** Over every run of puts, crashes included, and driver operations, each registered artifact has its
      verified blob and its own event, and nothing stored is lost or changed. */
  lemma {:induction false} EveryRunKeeps(f: Functions, w: World, ops: seq<Op>)
    requires WorldOk(f, w) && AllDisciplined(f, w, ops)
    ensures WorldOk(f, Run(f, w, ops)) && Grows(w, Run(f, w, ops))
    decreases |ops|
  {
    hide WorldOk, Next, Disciplined, Extends;
    if ops == [] {
      ExtendsItself(w.tables);
    } else {
      var u := Next(f, w, ops[0]);
      NextKeeps(f, w, ops[0]);
      EveryRunKeeps(f, u, ops[1..]);
      ExtendsTransitive(w.tables, u.tables, Run(f, u, ops[1..]).tables);
    }
  }

  lemma EmptyWorldOk(f: Functions)
    ensures WorldOk(f, World(Disk(map[], map[]), EMPTY))
  {
    EmptyOk();
  }

  lemma {:induction false} RunsSplit(f: Functions, w: World, ops: seq<Op>, n: nat)
    requires n <= |ops| && AllDisciplined(f, w, ops)
    ensures AllDisciplined(f, w, ops[..n]) && AllDisciplined(f, Run(f, w, ops[..n]), ops[n..])
    ensures Run(f, w, ops) == Run(f, Run(f, w, ops[..n]), ops[n..])
    decreases n
  {
    hide Next, Disciplined;
    if n == 0 {
      assert ops[..0] == [] && ops[0..] == ops;
    } else {
      RunsSplit(f, Next(f, w, ops[0]), ops[1..], n - 1);
      assert ops[..n][0] == ops[0] && ops[..n][1..] == ops[1..][..n - 1] && ops[n..] == ops[1..][n - 1..];
    }
  }

  /** Whatever puts, crashes and driver operations come before and after, a put that reported success can be
      read back: the very row it reported and, if the hash is injective on what is stored in the end, the
      very bytes it was given. */
  lemma PutThenGet(f: Functions, w: World, ops: seq<Op>, i: nat)
    requires WorldOk(f, w) && AllDisciplined(f, w, ops) && i < |ops| && ops[i].PutOp?
    requires PutStep(f, Run(f, w, ops[..i]), ops[i].args).1.Stored?
    requires InjectiveOn(f, Run(f, w, ops).disk.blobs.Values + {ops[i].args.content})
    ensures var a, stored := ops[i].args, PutStep(f, Run(f, w, ops[..i]), ops[i].args).1;
      GetStep(f, Run(f, w, ops), a.runId, stored.artifactId) == Ok((stored.row, a.content))
  {
    hide Next, Disciplined, PutStep, InjectiveOn, WorldOk, RunsOk, ArtifactsOk, Run, IdOf;
    var a, before := ops[i].args, Run(f, w, ops[..i]);
    StoredStays(f, w, ops, i);
    var last, stored := Run(f, w, ops), PutStep(f, before, a).1;
    assert DiskOk(f, last.disk.blobs, last.tables) by { WorldIsOk(f, last); }
    ReadBackIsWhatWasPut(f, last.disk.blobs, last.tables, stored.artifactId, a.content);
  }

  lemma WorldIsOk(f: Functions, w: World)
    requires WorldOk(f, w)
    ensures DiskOk(f, w.disk.blobs, w.tables)
  {
  }

  /** The row a successful put reported is there in the end, and describes its content. */
  lemma StoredStays(f: Functions, w: World, ops: seq<Op>, i: nat)
    requires WorldOk(f, w) && AllDisciplined(f, w, ops) && i < |ops| && ops[i].PutOp?
    requires PutStep(f, Run(f, w, ops[..i]), ops[i].args).1.Stored?
    ensures WorldOk(f, Run(f, w, ops))
    ensures Describes(f, Run(f, w, ops), ops[i].args, PutStep(f, Run(f, w, ops[..i]), ops[i].args).1)
  {
    hide Disciplined, PutStep, WorldOk, IdOf, RowOf, DecisionsKept;
    var before := Run(f, w, ops[..i]);
    RunsSplit(f, w, ops, i);
    EveryRunKeeps(f, w, ops[..i]);
    assert ops[i..][0] == ops[i];
    assert Disciplined(f, before, ops[i]);
    PutKeeps(f, before, ops[i].args) by { assert FairRival(f, ops[i].args) by { PutIsFair(f, before, ops[i]); } }
    var after, rest := Next(f, before, ops[i]), ops[i..][1..];
    EveryRunKeeps(f, after, rest);
    assert Run(f, w, ops) == Run(f, after, rest);
  }

  lemma PutIsFair(f: Functions, w: World, op: Op)
    requires Disciplined(f, w, op) && op.PutOp?
    ensures FairRival(f, op.args)
  {
  }

  /** The same of every run that starts with an empty store and an empty disk. */
  lemma EveryRunFromEmpty(f: Functions, ops: seq<Op>)
    requires AllDisciplined(f, World(Disk(map[], map[]), EMPTY), ops)
    ensures WorldOk(f, Run(f, World(Disk(map[], map[]), EMPTY), ops))
  {
    EmptyWorldOk(f);
    EveryRunKeeps(f, World(Disk(map[], map[]), EMPTY), ops);
  }
}

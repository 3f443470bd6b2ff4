/** The upgrade diff of plugin manifests, and what its silence guarantees. */
module PluginUpgrade {
  import opened Wrappers
  import opened Ordering

  datatype PermissionSet = PermissionSet(
    filesystemRead: set<string>,
    filesystemWrite: set<string>,
    networkEgress: set<string>,
    hostProcess: set<string>,
    secrets: set<string>,
    fullHost: bool)
  {
    predicate Covers(other: PermissionSet) {
      fullHost ||
      (&& !other.fullHost
       && other.filesystemRead <= filesystemRead
       && other.filesystemWrite <= filesystemWrite
       && other.networkEgress <= networkEgress
       && other.hostProcess <= hostProcess
       && other.secrets <= secrets)
    }
  }

  datatype Mode = Container | SupervisedProcess | TrustedProcess

  function Rank(m: Mode): nat {
    match m case Container => 0 case SupervisedProcess => 1 case TrustedProcess => 2
  }

  datatype Execution = Execution(mode: Mode, group: string, name: string, value: string)
  datatype Tool = Tool(name: string, effect: string, revision: Option<string>, schemaSha256: string)
  datatype Contribution = Contribution(id: string, version: string, contentSha256: string)
  datatype Dependency = Dependency(name: string, version: string, filename: string, sha256: string)

  datatype Manifest = Manifest(
    pluginId: string,
    distribution: string,
    execution: Execution,
    permissions: PermissionSet,
    tools: map<string, Tool>,
    skills: map<string, Contribution>,
    workers: map<string, Contribution>,
    dependencies: map<string, Dependency>)

  /** A manifest as the parser returns it: items filed under their own unique ids, and no request
      for the whole host, which the manifest syntax cannot express. */
  ghost predicate Parsed(m: Manifest) {
    && !m.permissions.fullHost
    && (forall k :: k in m.tools ==> m.tools[k].name == k)
    && (forall k :: k in m.skills ==> m.skills[k].id == k)
    && (forall k :: k in m.workers ==> m.workers[k].id == k)
    && (forall k :: k in m.dependencies ==> m.dependencies[k].name == k)
  }

  datatype Rendered = Text(s: string) | Versioned(c: Contribution) | Pinned(d: Dependency) | Ranked(mode: Mode)

  datatype Change = Change(kind: string, path: seq<string>, before: Option<Rendered>, after: Option<Rendered>,
          approval: bool)

  datatype DiffError = DifferentPlugins | EffectWithoutRevision(tool: string)

  predicate Silent(changes: seq<Change>) {
    forall i :: 0 <= i < |changes| ==> !changes[i].approval
  }

  lemma SilentConcat(a: seq<Change>, b: seq<Change>)
    ensures Silent(a + b) <==> Silent(a) && Silent(b)
  {
    assert forall i :: 0 <= i < |a| ==> (a + b)[i] == a[i];
    assert forall i :: 0 <= i < |b| ==> (a + b)[|a| + i] == b[i];
  }

  // ----- The sections of the diff -----

  function Different(kind: string, path: seq<string>, was: string, now: string): seq<Change> {
    if was == now then [] else [Change(kind, path, Some(Text(was)), Some(Text(now)), true)]
  }

  function ExecutionChanges(b: Execution, a: Execution): seq<Change> {
    (if b.mode == a.mode then []
     else [Change("execution_mode", ["execution", "mode"], Some(Ranked(b.mode)), Some(Ranked(a.mode)),
                  Rank(a.mode) > Rank(b.mode))])
    + Different("entry_point_identity", ["execution", "entry_point_group"], b.group, a.group)
    + Different("entry_point_identity", ["execution", "entry_point_name"], b.name, a.name)
    + Different("entry_point_identity", ["execution", "entry_point_value"], b.value, a.value)
  }

  function Added(field: string, values: seq<string>): seq<Change> {
    seq(|values|, i requires 0 <= i < |values| =>
      Change("permission_added", ["permissions", field], None, Some(Text(values[i])), true))
  }

  function Removed(field: string, values: seq<string>): seq<Change> {
    seq(|values|, i requires 0 <= i < |values| =>
      Change("permission_removed", ["permissions", field], Some(Text(values[i])), None, false))
  }

  function FieldChanges(field: string, was: set<string>, now: set<string>): seq<Change> {
    Added(field, Sorted(now - was)) + Removed(field, Sorted(was - now))
  }

  function PermissionChanges(b: PermissionSet, a: PermissionSet): seq<Change> {
    FieldChanges("filesystem_read", b.filesystemRead, a.filesystemRead)
    + FieldChanges("filesystem_write", b.filesystemWrite, a.filesystemWrite)
    + FieldChanges("network_egress", b.networkEgress, a.networkEgress)
    + FieldChanges("host_process", b.hostProcess, a.hostProcess)
    + FieldChanges("secrets", b.secrets, a.secrets)
  }

  function Revision(r: Option<string>): Option<Rendered> {
    match r case None => None case Some(s) => Some(Text(s))
  }

  /** The changes of one tool, given its old and its new declaration. */
  function ToolChange(name: string, was: Option<Tool>, now: Option<Tool>): Result<seq<Change>, DiffError>
    requires was.Some? || now.Some?
  {
    if was.None? then Ok([Change("tool_added", ["tools", name], None, Some(Text(now.value.name)), true)])
    else if now.None? then Ok([Change("tool_removed", ["tools", name], Some(Text(was.value.name)), None, false)])
    else if was.value.effect != now.value.effect && was.value.revision == now.value.revision then
      Err(EffectWithoutRevision(name))
    else
      Ok(Different("tool_contract", ["tools", name, "effect"], was.value.effect, now.value.effect)
         + (if was.value.revision == now.value.revision then []
            else [Change("tool_contract", ["tools", name, "tool_revision"], Revision(was.value.revision),
                         Revision(now.value.revision), true)])
         + Different("tool_contract", ["tools", name, "schema_sha256"], was.value.schemaSha256, now.value.schemaSha256))
  }

  function Lookup<T>(m: map<string, T>, k: string): Option<T> {
    if k in m then Some(m[k]) else None
  }

  /** The ids of either collection, sorted. */
  function AllNames<T>(was: map<string, T>, now: map<string, T>): (names: seq<string>)
    ensures forall k :: k in names <==> k in was || k in now
    ensures forall i :: 0 <= i < |names| ==> names[i] in was || names[i] in now
  {
    var names := Sorted(was.Keys + now.Keys);
    assert forall i :: 0 <= i < |names| ==> names[i] in names;
    names
  }

  function ToolChanges(names: seq<string>, was: map<string, Tool>,
          now: map<string, Tool>): Result<seq<Change>, DiffError>
    requires forall i :: 0 <= i < |names| ==> names[i] in was || names[i] in now
    decreases |names|
  {
    if names == [] then Ok([])
    else
      match ToolChange(names[0], Lookup(was, names[0]), Lookup(now, names[0]))
      case Err(e) => Err(e)
      case Ok(here) =>
        match ToolChanges(names[1..], was, now)
        case Err(e) => Err(e)
        case Ok(rest) => Ok(here + rest)
  }

  function RenderedContribution(c: Option<Contribution>): Option<Rendered> {
    match c case None => None case Some(v) => Some(Versioned(v))
  }

  /** The collection's name without its last letter, as change kinds spell it. */
  function Singular(collection: string): string {
    if collection == "" then "" else collection[..|collection| - 1]
  }

  function ContributionChange(collection: string, id: string, was: Option<Contribution>,
          now: Option<Contribution>): seq<Change> {
    if was == now then []
    else
      var what := if was.None? then "added" else if now.None? then "removed" else "contract";
      [Change(Singular(collection) + "_" + what, [collection, id],
              RenderedContribution(was), RenderedContribution(now), now.Some?)]
  }

  function ContributionChanges(collection: string, ids: seq<string>, was: map<string, Contribution>,
          now: map<string, Contribution>): seq<Change>
    decreases |ids|
  {
    if ids == [] then []
    else
      var here := ContributionChange(collection, ids[0], Lookup(was, ids[0]), Lookup(now, ids[0]));
      here + ContributionChanges(collection, ids[1..], was, now)
  }

  function RenderedDependency(d: Option<Dependency>): Option<Rendered> {
    match d case None => None case Some(v) => Some(Pinned(v))
  }

  function DependencyChanges(names: seq<string>, was: map<string, Dependency>,
          now: map<string, Dependency>): seq<Change>
    decreases |names|
  {
    if names == [] then []
    else
      (if Lookup(was, names[0]) == Lookup(now, names[0]) then []
       else [Change("dependency_identity", ["dependencies", names[0]],
                    RenderedDependency(Lookup(was, names[0])), RenderedDependency(Lookup(now, names[0])), true)])
      + DependencyChanges(names[1..], was, now)
  }

  function Head(b: Manifest, a: Manifest): seq<Change> {
    ExecutionChanges(b.execution, a.execution)
    + Different("distribution_identity", ["distribution"], b.distribution, a.distribution)
    + PermissionChanges(b.permissions, a.permissions)
  }

  function Tail(b: Manifest, a: Manifest): seq<Change> {
    ContributionChanges("skills", AllNames(b.skills, a.skills), b.skills, a.skills)
    + ContributionChanges("workers", AllNames(b.workers, a.workers), b.workers, a.workers)
    + DependencyChanges(AllNames(b.dependencies, a.dependencies), b.dependencies, a.dependencies)
  }

  function Diff(b: Manifest, a: Manifest): Result<seq<Change>, DiffError> {
    if b.pluginId != a.pluginId then Err(DifferentPlugins)
    else
      match ToolChanges(AllNames(b.tools, a.tools), b.tools, a.tools)
      case Err(e) => Err(e)
      case Ok(tools) => Ok(Head(b, a) + tools + Tail(b, a))
  }

  method ManifestUpgradeDiff(b: Manifest, a: Manifest) returns (r: Result<seq<Change>, DiffError>)
    ensures r == Diff(b, a)
  {
    hide AllNames, Head, Tail, ToolChange;
    if b.pluginId != a.pluginId {
      return Err(DifferentPlugins);
    }
    var changes := Head(b, a);
    ghost var head := changes;
    var names := AllNames(b.tools, a.tools);
    ghost var tools: seq<Change> := [];
    var k := 0;
    assert names[0..] == names && head + [] == head;
    JoinedNothing(ToolChanges(names, b.tools, a.tools));
    while k < |names|
      invariant 0 <= k <= |names|
      invariant changes == head + tools
      invariant ToolChanges(names, b.tools, a.tools) == Joined(tools, ToolChanges(names[k..], b.tools, a.tools))
    {
      assert names[k..][0] == names[k] && names[k..][1..] == names[k + 1..];
      var here := ToolChange(names[k], Lookup(b.tools, names[k]), Lookup(a.tools, names[k]));
      if here.Err? {
        return Err(here.error);
      }
      JoinedTwice(tools, here.value, ToolChanges(names[k + 1..], b.tools, a.tools));
      assert changes + here.value == head + (tools + here.value);
      changes, tools, k := changes + here.value, tools + here.value, k + 1;
    }
    assert names[k..] == [] && tools + [] == tools;
    r := Ok(changes + Tail(b, a));
  }

  function Joined(front: seq<Change>, rest: Result<seq<Change>, DiffError>): Result<seq<Change>, DiffError> {
    match rest case Err(e) => Err(e) case Ok(s) => Ok(front + s)
  }

  lemma JoinedNothing(rest: Result<seq<Change>, DiffError>)
    ensures Joined([], rest) == rest
  {
    if rest.Ok? {
      assert [] + rest.value == rest.value;
    }
  }

  lemma JoinedTwice(front: seq<Change>, here: seq<Change>, rest: Result<seq<Change>, DiffError>)
    ensures Joined(front, Joined(here, rest)) == Joined(front + here, rest)
  {
    if rest.Ok? {
      assert front + (here + rest.value) == (front + here) + rest.value;
    }
  }

  // ----- What needs no approval -----

  predicate PermissionsShrink(b: PermissionSet, a: PermissionSet) {
    && a.filesystemRead <= b.filesystemRead && a.filesystemWrite <= b.filesystemWrite
    && a.networkEgress <= b.networkEgress && a.hostProcess <= b.hostProcess && a.secrets <= b.secrets
  }

  /** Every item of the new collection was there before, unchanged. */
  ghost predicate Kept<T(!new)>(was: map<string, T>, now: map<string, T>) {
    forall k :: k in now ==> k in was && was[k] == now[k]
  }

  predicate SameContract(x: Tool, y: Tool) {
    x.effect == y.effect && x.revision == y.revision && x.schemaSha256 == y.schemaSha256
  }

  ghost predicate ToolsKept(was: map<string, Tool>, now: map<string, Tool>) {
    forall k :: k in now ==> k in was && SameContract(was[k], now[k])
  }

  ghost predicate SafeUpgrade(b: Manifest, a: Manifest) {
    && b.pluginId == a.pluginId
    && Rank(a.execution.mode) <= Rank(b.execution.mode)
    && a.execution.(mode := Container) == b.execution.(mode := Container)
    && a.distribution == b.distribution
    && PermissionsShrink(b.permissions, a.permissions)
    && ToolsKept(b.tools, a.tools)
    && Kept(b.skills, a.skills) && Kept(b.workers, a.workers)
    && b.dependencies == a.dependencies
  }

  lemma FieldSilent(field: string, was: set<string>, now: set<string>)
    ensures Silent(FieldChanges(field, was, now)) <==> now <= was
  {
    var added, removed := Added(field, Sorted(now - was)), Removed(field, Sorted(was - now));
    SilentConcat(added, removed);
    if !(now <= was) {
      assert |now - was| > 0;
      assert added[0].approval;
    } else {
      assert now - was == {};
    }
  }

  lemma PermissionsSilent(b: PermissionSet, a: PermissionSet)
    ensures Silent(PermissionChanges(b, a)) <==> PermissionsShrink(b, a)
  {
    var c1 := FieldChanges("filesystem_read", b.filesystemRead, a.filesystemRead);
    var c2 := FieldChanges("filesystem_write", b.filesystemWrite, a.filesystemWrite);
    var c3 := FieldChanges("network_egress", b.networkEgress, a.networkEgress);
    var c4 := FieldChanges("host_process", b.hostProcess, a.hostProcess);
    var c5 := FieldChanges("secrets", b.secrets, a.secrets);
    FieldSilent("filesystem_read", b.filesystemRead, a.filesystemRead);
    FieldSilent("filesystem_write", b.filesystemWrite, a.filesystemWrite);
    FieldSilent("network_egress", b.networkEgress, a.networkEgress);
    FieldSilent("host_process", b.hostProcess, a.hostProcess);
    FieldSilent("secrets", b.secrets, a.secrets);
    hide FieldChanges, Silent;
    SilentConcat(c1, c2);
    SilentConcat(c1 + c2, c3);
    SilentConcat(c1 + c2 + c3, c4);
    SilentConcat(c1 + c2 + c3 + c4, c5);
  }

  lemma ExecutionSilent(b: Execution, a: Execution)
    ensures Silent(ExecutionChanges(b, a)) <==>
      Rank(a.mode) <= Rank(b.mode) && a.(mode := Container) == b.(mode := Container)
  {
    var c1 := if b.mode == a.mode then []
      else [Change("execution_mode", ["execution", "mode"], Some(Ranked(b.mode)), Some(Ranked(a.mode)),
                   Rank(a.mode) > Rank(b.mode))];
    var c2 := Different("entry_point_identity", ["execution", "entry_point_group"], b.group, a.group);
    var c3 := Different("entry_point_identity", ["execution", "entry_point_name"], b.name, a.name);
    var c4 := Different("entry_point_identity", ["execution", "entry_point_value"], b.value, a.value);
    SilentConcat(c1, c2);
    SilentConcat(c1 + c2, c3);
    SilentConcat(c1 + c2 + c3, c4);
    DifferentSilent("entry_point_identity", ["execution", "entry_point_group"], b.group, a.group);
    DifferentSilent("entry_point_identity", ["execution", "entry_point_name"], b.name, a.name);
    DifferentSilent("entry_point_identity", ["execution", "entry_point_value"], b.value, a.value);
    assert Silent(c1) <==> Rank(a.mode) <= Rank(b.mode) by {
      assert b.mode != a.mode ==> c1[0].approval == (Rank(a.mode) > Rank(b.mode));
    }
    hide Different, Silent;
  }

  lemma DifferentSilent(kind: string, path: seq<string>, was: string, now: string)
    ensures Silent(Different(kind, path, was, now)) <==> was == now
  {
    if was != now {
      assert Different(kind, path, was, now)[0].approval;
    }
  }

  lemma ToolSilent(name: string, was: Option<Tool>, now: Option<Tool>)
    requires was.Some? || now.Some?
    ensures var r := ToolChange(name, was, now);
      r.Ok? && Silent(r.value) <==> (now.Some? ==> was.Some? && SameContract(was.value, now.value))
  {
    if was.Some? && now.Some? {
      var c1 := Different("tool_contract", ["tools", name, "effect"], was.value.effect, now.value.effect);
      var c2 := if was.value.revision == now.value.revision then []
        else [Change("tool_contract", ["tools", name, "tool_revision"], Revision(was.value.revision),
                     Revision(now.value.revision), true)];
      var c3 := Different("tool_contract", ["tools", name, "schema_sha256"], was.value.schemaSha256,
        now.value.schemaSha256);
      SilentConcat(c1, c2);
      SilentConcat(c1 + c2, c3);
      DifferentSilent("tool_contract", ["tools", name, "effect"], was.value.effect, now.value.effect);
      DifferentSilent("tool_contract", ["tools", name, "schema_sha256"], was.value.schemaSha256,
        now.value.schemaSha256);
      assert c2 != [] ==> c2[0].approval;
    } else if now.Some? {
      assert ToolChange(name, was, now).value[0].approval;
    }
  }

  lemma {:induction false} ToolsSilent(names: seq<string>, was: map<string, Tool>, now: map<string, Tool>)
    requires forall i :: 0 <= i < |names| ==> names[i] in was || names[i] in now
    ensures var r := ToolChanges(names, was, now);
      r.Ok? && Silent(r.value) <==> forall k :: k in names && k in now ==> k in was && SameContract(was[k], now[k])
    decreases |names|
  {
    hide ToolChange, SameContract;
    if names != [] {
      ToolSilent(names[0], Lookup(was, names[0]), Lookup(now, names[0]));
      ToolsSilent(names[1..], was, now);
      assert forall k :: k in names <==> k == names[0] || k in names[1..];
      var here, rest := ToolChange(names[0], Lookup(was, names[0]), Lookup(now, names[0])),
        ToolChanges(names[1..], was, now);
      if here.Ok? && rest.Ok? {
        SilentConcat(here.value, rest.value);
      }
      hide Silent;
    }
  }

  lemma {:induction false} ContributionsSilent(collection: string, ids: seq<string>,
          was: map<string, Contribution>, now: map<string, Contribution>)
    ensures Silent(ContributionChanges(collection, ids, was, now)) <==> forall k :: k in ids && k in now ==>
      k in was && was[k] == now[k]
    decreases |ids|
  {
    if ids != [] {
      ContributionsSilent(collection, ids[1..], was, now);
      var here := ContributionChange(collection, ids[0], Lookup(was, ids[0]), Lookup(now, ids[0]));
      assert forall k :: k in ids <==> k == ids[0] || k in ids[1..];
      assert here != [] ==> here[0].approval == (ids[0] in now);
      SilentConcat(here, ContributionChanges(collection, ids[1..], was, now));
    }
  }

  lemma {:induction false} DependenciesSilent(names: seq<string>, was: map<string, Dependency>,
          now: map<string, Dependency>)
    ensures Silent(DependencyChanges(names, was, now)) <==> forall k :: k in names ==> Lookup(was, k) == Lookup(now, k)
    decreases |names|
  {
    if names != [] {
      DependenciesSilent(names[1..], was, now);
      var here := if Lookup(was, names[0]) == Lookup(now, names[0]) then []
        else [Change("dependency_identity", ["dependencies", names[0]],
                     RenderedDependency(Lookup(was, names[0])), RenderedDependency(Lookup(now, names[0])), true)];
      assert forall k :: k in names <==> k == names[0] || k in names[1..];
      assert here != [] ==> here[0].approval;
      SilentConcat(here, DependencyChanges(names[1..], was, now));
    }
  }

  lemma SameLookups<T(!new)>(was: map<string, T>, now: map<string, T>)
    requires forall k :: k in was || k in now ==> Lookup(was, k) == Lookup(now, k)
    ensures was == now
  {
    forall k | k in was || k in now ensures k in was && k in now && was[k] == now[k] {
      assert Lookup(was, k) == Lookup(now, k);
    }
  }

  lemma HeadSilent(b: Manifest, a: Manifest)
    ensures Silent(Head(b, a)) <==>
      && Rank(a.execution.mode) <= Rank(b.execution.mode)
      && a.execution.(mode := Container) == b.execution.(mode := Container)
      && a.distribution == b.distribution && PermissionsShrink(b.permissions, a.permissions)
  {
    var c1, c2 := ExecutionChanges(b.execution, a.execution),
      Different("distribution_identity", ["distribution"], b.distribution, a.distribution);
    ExecutionSilent(b.execution, a.execution);
    DifferentSilent("distribution_identity", ["distribution"], b.distribution, a.distribution);
    PermissionsSilent(b.permissions, a.permissions);
    hide Silent, ExecutionChanges, PermissionChanges, Different, PermissionsShrink;
    SilentConcat(c1, c2);
    SilentConcat(c1 + c2, PermissionChanges(b.permissions, a.permissions));
  }

  lemma SkillsSilent(collection: string, was: map<string, Contribution>, now: map<string, Contribution>)
    ensures Silent(ContributionChanges(collection, AllNames(was, now), was, now)) <==> Kept(was, now)
  {
    ContributionsSilent(collection, AllNames(was, now), was, now);
  }

  lemma DependencySilent(was: map<string, Dependency>, now: map<string, Dependency>)
    ensures Silent(DependencyChanges(AllNames(was, now), was, now)) <==> was == now
  {
    DependenciesSilent(AllNames(was, now), was, now);
    hide DependencyChanges, AllNames;
    if Silent(DependencyChanges(AllNames(was, now), was, now)) {
      SameLookups(was, now);
    }
  }

  lemma TailSilent(b: Manifest, a: Manifest)
    ensures Silent(Tail(b, a)) <==>
      Kept(b.skills, a.skills) && Kept(b.workers, a.workers) && b.dependencies == a.dependencies
  {
    hide AllNames, Kept, Silent, ContributionChanges, DependencyChanges;
    SkillsSilent("skills", b.skills, a.skills);
    SkillsSilent("workers", b.workers, a.workers);
    DependencySilent(b.dependencies, a.dependencies);
    var c1 := ContributionChanges("skills", AllNames(b.skills, a.skills), b.skills, a.skills);
    var c2 := ContributionChanges("workers", AllNames(b.workers, a.workers), b.workers, a.workers);
    SilentConcat(c1, c2);
    SilentConcat(c1 + c2, DependencyChanges(AllNames(b.dependencies, a.dependencies), b.dependencies, a.dependencies));
  }

  /** The diff asks for no approval exactly for the safe upgrades: the same plugin, entry point,
      distribution and dependencies, no higher mode, no new permission, and every tool, skill and
      worker of the new version already there with the same contract. */
  lemma SilentExactlyWhenSafe(b: Manifest, a: Manifest)
    ensures Diff(b, a).Ok? && Silent(Diff(b, a).value) <==> SafeUpgrade(b, a)
  {
    hide AllNames, Head, Tail, Silent, ToolChanges, PermissionsShrink;
    HeadSilent(b, a);
    TailSilent(b, a);
    var names := AllNames(b.tools, a.tools);
    ToolsSilent(names, b.tools, a.tools);
    assert forall k :: k in a.tools ==> k in names;
    var tools := ToolChanges(names, b.tools, a.tools);
    if tools.Ok? {
      SilentConcat(Head(b, a), tools.value);
      SilentConcat(Head(b, a) + tools.value, Tail(b, a));
    }
  }

  /** A silent upgrade leaves the old permissions covering the new ones exactly when it does not
      start to ask for the whole host. */
  lemma SilentCovers(b: Manifest, a: Manifest)
    requires Diff(b, a).Ok? && Silent(Diff(b, a).value)
    ensures b.permissions.Covers(a.permissions) <==> (a.permissions.fullHost ==> b.permissions.fullHost)
    ensures Parsed(a) ==> b.permissions.Covers(a.permissions)
  {
    SilentExactlyWhenSafe(b, a);
  }

  /** Outside parsed manifests the diff can be silent about a request for the whole host. */
  lemma FullHostIsNotReported()
    ensures var none := PermissionSet({}, {}, {}, {}, {}, false);
      var b := Manifest("p", "d", Execution(Container, "g", "n", "v"), none, map[], map[], map[], map[]);
      var a := b.(permissions := none.(fullHost := true));
      Diff(b, a).Ok? && Silent(Diff(b, a).value) && !b.permissions.Covers(a.permissions)
  {
    var none := PermissionSet({}, {}, {}, {}, {}, false);
    var b := Manifest("p", "d", Execution(Container, "g", "n", "v"), none, map[], map[], map[], map[]);
    SilentExactlyWhenSafe(b, b.(permissions := none.(fullHost := true)));
  }

  lemma CoversTransitive(x: PermissionSet, y: PermissionSet, z: PermissionSet)
    requires x.Covers(y) && y.Covers(z)
    ensures x.Covers(z)
  {
  }

  lemma SafeTransitive(x: Manifest, y: Manifest, z: Manifest)
    requires SafeUpgrade(x, y) && SafeUpgrade(y, z)
    ensures SafeUpgrade(x, z)
  {
    assert forall k :: k in z.tools ==> k in y.tools && k in x.tools && SameContract(x.tools[k], z.tools[k]);
  }

  predicate SilentChain(versions: seq<Manifest>) {
    forall i :: 0 <= i < |versions| - 1 ==>
      Diff(versions[i], versions[i + 1]).Ok? && Silent(Diff(versions[i], versions[i + 1]).value)
  }

  /** Any number of upgrades that each need no approval add up to one that needs none, and every grant
      that covered the first version still covers the last. */
  lemma {:induction false} SilentUpgradesCompose(versions: seq<Manifest>, grant: PermissionSet)
    requires versions != [] && SilentChain(versions) && forall i :: 0 <= i < |versions| ==> Parsed(versions[i])
    requires grant.Covers(versions[0].permissions)
    ensures var first, last := versions[0], versions[|versions| - 1];
      && Diff(first, last).Ok? && Silent(Diff(first, last).value)
      && grant.Covers(last.permissions)
    decreases |versions|
  {
    hide Diff, Silent, SafeUpgrade, Parsed;
    var first, n := versions[0], |versions|;
    if n == 1 {
      SelfUpgradeSafe(first);
      SilentExactlyWhenSafe(first, first);
    } else {
      var front, mid, last := versions[..n - 1], versions[n - 2], versions[n - 1];
      assert forall i :: 0 <= i < |front| ==> front[i] == versions[i];
      SilentUpgradesCompose(front, grant);
      assert versions[n - 2 + 1] == last;
      SilentExactlyWhenSafe(first, mid);
      SilentExactlyWhenSafe(mid, last);
      SafeTransitive(first, mid, last);
      SilentExactlyWhenSafe(first, last);
      SilentCovers(mid, last);
      CoversTransitive(grant, mid.permissions, last.permissions);
    }
  }

  lemma SelfUpgradeSafe(m: Manifest)
    ensures SafeUpgrade(m, m)
  {
  }

  // ----- What is not reported at all -----

  /** Two manifests that agree in everything the diff looks at. */
  ghost predicate SameManifest(b: Manifest, a: Manifest) {
    && b.pluginId == a.pluginId && b.execution == a.execution && b.distribution == a.distribution
    && b.permissions.(fullHost := false) == a.permissions.(fullHost := false)
    && b.tools.Keys == a.tools.Keys && ToolsKept(b.tools, a.tools)
    && b.skills == a.skills && b.workers == a.workers && b.dependencies == a.dependencies
  }

  lemma FieldNone(field: string, was: set<string>, now: set<string>)
    ensures FieldChanges(field, was, now) == [] <==> was == now
  {
    assert |FieldChanges(field, was, now)| == |now - was| + |was - now|;
    assert was == now <==> now - was == {} && was - now == {};
    assert now - was != {} ==> |now - was| > 0;
    assert was - now != {} ==> |was - now| > 0;
  }

  lemma HeadNone(b: Manifest, a: Manifest)
    ensures Head(b, a) == [] <==>
      b.execution == a.execution && b.distribution == a.distribution
      && b.permissions.(fullHost := false) == a.permissions.(fullHost := false)
  {
    FieldNone("filesystem_read", b.permissions.filesystemRead, a.permissions.filesystemRead);
    FieldNone("filesystem_write", b.permissions.filesystemWrite, a.permissions.filesystemWrite);
    FieldNone("network_egress", b.permissions.networkEgress, a.permissions.networkEgress);
    FieldNone("host_process", b.permissions.hostProcess, a.permissions.hostProcess);
    FieldNone("secrets", b.permissions.secrets, a.permissions.secrets);
    hide FieldChanges, Rank;
  }

  lemma ToolNone(name: string, was: Option<Tool>, now: Option<Tool>)
    requires was.Some? || now.Some?
    ensures ToolChange(name, was, now) == Ok([]) <==> was.Some? && now.Some? && SameContract(was.value, now.value)
  {
    var r := ToolChange(name, was, now);
    if was.Some? && now.Some? && r.Ok? {
      var c1 := Different("tool_contract", ["tools", name, "effect"], was.value.effect, now.value.effect);
      var c3 := Different("tool_contract", ["tools", name, "schema_sha256"], was.value.schemaSha256,
        now.value.schemaSha256);
      assert |r.value| == |c1| + (if was.value.revision == now.value.revision then 0 else 1) + |c3|;
    }
  }

  lemma {:induction false} ToolsNone(names: seq<string>, was: map<string, Tool>, now: map<string, Tool>)
    requires forall i :: 0 <= i < |names| ==> names[i] in was || names[i] in now
    ensures ToolChanges(names, was, now) == Ok([]) <==>
      forall k :: k in names ==> k in was && k in now && SameContract(was[k], now[k])
    decreases |names|
  {
    hide ToolChange, SameContract;
    if names != [] {
      ToolNone(names[0], Lookup(was, names[0]), Lookup(now, names[0]));
      ToolsNone(names[1..], was, now);
      assert forall k :: k in names <==> k == names[0] || k in names[1..];
      var here, rest := ToolChange(names[0], Lookup(was, names[0]), Lookup(now, names[0])),
        ToolChanges(names[1..], was, now);
      if here.Ok? && rest.Ok? {
        assert |ToolChanges(names, was, now).value| == |here.value| + |rest.value|;
      }
    }
  }

  lemma {:induction false} ContributionsNone(collection: string, ids: seq<string>,
          was: map<string, Contribution>, now: map<string, Contribution>)
    ensures ContributionChanges(collection, ids, was, now) == [] <==> forall k :: k in ids ==>
      Lookup(was, k) == Lookup(now, k)
    decreases |ids|
  {
    if ids != [] {
      ContributionsNone(collection, ids[1..], was, now);
      assert forall k :: k in ids <==> k == ids[0] || k in ids[1..];
    }
  }

  lemma {:induction false} DependenciesNone(names: seq<string>, was: map<string, Dependency>,
          now: map<string, Dependency>)
    ensures DependencyChanges(names, was, now) == [] <==> forall k :: k in names ==> Lookup(was, k) == Lookup(now, k)
    decreases |names|
  {
    if names != [] {
      DependenciesNone(names[1..], was, now);
      assert forall k :: k in names <==> k == names[0] || k in names[1..];
    }
  }

  lemma TailNone(b: Manifest, a: Manifest)
    ensures Tail(b, a) == [] <==> b.skills == a.skills && b.workers == a.workers && b.dependencies == a.dependencies
  {
    ContributionsNone("skills", AllNames(b.skills, a.skills), b.skills, a.skills);
    ContributionsNone("workers", AllNames(b.workers, a.workers), b.workers, a.workers);
    DependenciesNone(AllNames(b.dependencies, a.dependencies), b.dependencies, a.dependencies);
    var c1 := ContributionChanges("skills", AllNames(b.skills, a.skills), b.skills, a.skills);
    var c2 := ContributionChanges("workers", AllNames(b.workers, a.workers), b.workers, a.workers);
    var c3 := DependencyChanges(AllNames(b.dependencies, a.dependencies), b.dependencies, a.dependencies);
    hide AllNames, ContributionChanges, DependencyChanges, Lookup;
    assert |Tail(b, a)| == |c1| + |c2| + |c3|;
    if Tail(b, a) == [] {
      assert c1 == [] && c2 == [] && c3 == [];
      SameLookups(b.skills, a.skills);
      SameLookups(b.workers, a.workers);
      SameLookups(b.dependencies, a.dependencies);
    }
  }

  /** The diff is empty exactly when the manifests agree in everything it looks at: no difference goes
      unreported, and none is made up. */
  lemma NoChangeExactlyWhenSame(b: Manifest, a: Manifest)
    ensures Diff(b, a) == Ok([]) <==> SameManifest(b, a)
  {
    hide AllNames, Head, Tail, ToolChanges, SameContract;
    HeadNone(b, a);
    TailNone(b, a);
    var names := AllNames(b.tools, a.tools);
    ToolsNone(names, b.tools, a.tools);
    assert forall k :: k in b.tools || k in a.tools ==> k in names;
    var tools := ToolChanges(names, b.tools, a.tools);
    if b.pluginId == a.pluginId && tools.Ok? {
      assert |Diff(b, a).value| == |Head(b, a)| + |tools.value| + |Tail(b, a)|;
      if tools.value == [] {
        assert b.tools.Keys == a.tools.Keys;
      }
    }
  }
}

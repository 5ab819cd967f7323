/**
  The node-settings records: the versioned field sets of NodeSettings (versions
  3 and 4) and NodeSettingsUpdate (versions 2 and 3), their defaults, the four
  migration declarations of the settings module, and the validator that
  discards `node_side_type` in an update.
 */
module NodeSettings {
  import opened Common
  import opened Records
  import opened VersionKey
  import opened MigrationRegistry

  const ModuleName := "syft.service.settings.settings"

  /** A declared field: required, or with a default value. */
  datatype FieldSpec = Required | Default(value: Value)

  type Schema = map<string, FieldSpec>

  /** NodeSettingsV2: canonical name "NodeSettings", version 3. */
  const NodeSettingsV3Schema: Schema := map[
    "id" := Required,
    "name" := Default(Str("Node")),
    "deployed_on" := Required,
    "organization" := Default(Str("OpenMined")),
    "verify_key" := Required,
    "on_board" := Default(Bool(true)),
    "description" := Default(Str("Text")),
    "node_type" := Default(Enum("NodeType.DOMAIN")),
    "signup_enabled" := Required,
    "admin_email" := Required,
    "node_side_type" := Default(Enum("NodeSideType.HIGH_SIDE")),
    "show_warnings" := Required]

  const AutoApproval := "association_request_auto_approval"
  const DefaultWorkerPool := "default_worker_pool"

  /** NodeSettings: canonical name "NodeSettings", version 4; `defaultPoolName` is DEFAULT_WORKER_POOL_NAME. */
  function NodeSettingsV4Schema(defaultPoolName: string): (schema: Schema)
    ensures NodeSettingsV3Schema.Keys <= schema.Keys
    ensures schema.Keys - NodeSettingsV3Schema.Keys == {AutoApproval, DefaultWorkerPool}
    ensures forall f :: f in NodeSettingsV3Schema ==> schema[f] == NodeSettingsV3Schema[f]
  {
    assert AutoApproval !in NodeSettingsV3Schema && DefaultWorkerPool !in NodeSettingsV3Schema;
    NodeSettingsV3Schema[AutoApproval := Required][DefaultWorkerPool := Default(Str(defaultPoolName))]
  }

  /** NodeSettingsUpdateV2: canonical name "NodeSettingsUpdate", version 2 (a partial object: every field optional). */
  const NodeSettingsUpdateV2Fields: set<string> :=
    {"id", "name", "organization", "description", "on_board", "signup_enabled", "admin_email"}

  /** NodeSettingsUpdate: canonical name "NodeSettingsUpdate", version 3. */
  const NodeSettingsUpdateV3Fields: set<string> := NodeSettingsUpdateV2Fields + {AutoApproval, "node_side_type"}

  /**
    Building an object of a schema from given field values: every declared
    field takes the given value, or else its default; the missing required
    fields are the error.
   */
  function Instantiate(schema: Schema, given: Record): (r: Result<Record, set<string>>)
    ensures r.Ok? <==> forall f :: f in schema && schema[f].Required? ==> f in given
    ensures r.Err? ==> forall f :: f in r.error <==> f in schema && schema[f].Required? && f !in given
    ensures r.Ok? ==> r.value.Keys == schema.Keys
    ensures r.Ok? ==> forall f :: f in schema ==>
              r.value[f] == if f in given then given[f] else schema[f].value
  {
    var missing := set f | f in schema && schema[f].Required? && f !in given;
    if missing != {} then Err(missing)
    else
      assert forall f :: f in schema && schema[f].Required? ==> f in given by {
        forall f | f in schema && schema[f].Required? ensures f in given {
          assert f !in missing;
        }
      }
      Ok(map f | f in schema :: if f in given || schema[f].Required? then given[f] else schema[f].value)
  }

  /** A NodeSettings built from exactly its required fields: every other field takes its default. */
  lemma FromRequiredFields(defaultPoolName: string, given: Record)
    requires given.Keys == set f | f in NodeSettingsV4Schema(defaultPoolName) && NodeSettingsV4Schema(defaultPoolName)[f].Required?
    ensures var r := Instantiate(NodeSettingsV4Schema(defaultPoolName), given);
      && r.Ok?
      && forall f :: f in NodeSettingsV3Schema && NodeSettingsV3Schema[f].Default? ==> r.value[f] == NodeSettingsV3Schema[f].value
    ensures var r := Instantiate(NodeSettingsV4Schema(defaultPoolName), given);
      r.Ok? && r.value[DefaultWorkerPool] == Str(defaultPoolName)
  {
  }

  /** Defaults of a NodeSettings built from its required fields only. */
  lemma NodeSettingsDefaults(defaultPoolName: string, given: Record)
    requires given.Keys == set f | f in NodeSettingsV4Schema(defaultPoolName) && NodeSettingsV4Schema(defaultPoolName)[f].Required?
    ensures var r := Instantiate(NodeSettingsV4Schema(defaultPoolName), given);
      && r.Ok?
      && r.value["name"] == Str("Node") && r.value["organization"] == Str("OpenMined")
      && r.value["on_board"] == Bool(true) && r.value["description"] == Str("Text")
      && r.value["node_type"] == Enum("NodeType.DOMAIN") && r.value["node_side_type"] == Enum("NodeSideType.HIGH_SIDE")
      && r.value[DefaultWorkerPool] == Str(defaultPoolName)
  {
    FromRequiredFields(defaultPoolName, given);
  }

  /** validate_node_side_type: whatever is supplied, the validated value is None. */
  function ValidateNodeSideType(v: string): Option<string>
  {
    None
  }

  /**
    The update after field validation: a supplied node_side_type must be a
    string, as its annotation says, and the validator then replaces it by None.
    The error names the field that failed validation.
   */
  function ValidateUpdate(update: Record): (r: Result<Record, string>)
    ensures r.Err? <==> "node_side_type" in update && !update["node_side_type"].Str?
    ensures r.Err? ==> r.error == "node_side_type"
    ensures r.Ok? ==> r.value.Keys == update.Keys
    ensures r.Ok? && "node_side_type" in update ==> r.value["node_side_type"] == Null
    ensures r.Ok? ==> forall f :: f in update && f != "node_side_type" ==> r.value[f] == update[f]
  {
    if "node_side_type" !in update then Ok(update)
    else if !update["node_side_type"].Str? then Err("node_side_type")
    else Ok(update["node_side_type" := match ValidateNodeSideType(update["node_side_type"].s) case None => Null case Some(s) => Str(s)])
  }

  /** upgrade_node_settings (3 -> 4). */
  const UpgradeOps: seq<Operation> := [SetDefault(AutoApproval, Bool(false))]
  /** downgrade_node_settings (4 -> 3), declared twice. */
  const DowngradeOps: seq<Operation> := [Drop([AutoApproval])]
  /** upgrade_node_settings_update (2 -> 3). */
  const UpdateUpgradeOps: seq<Operation> := []

  /** The upgrade sets only the auto-approval flag, to False, on a version 3 object. */
  lemma UpgradeSetsAutoApproval(r: Record)
    requires r.Keys == NodeSettingsV3Schema.Keys
    ensures Apply(UpgradeOps, r) == r[AutoApproval := Bool(false)]
    ensures Apply(UpgradeOps, r).Keys == NodeSettingsV3Schema.Keys + {AutoApproval}
  {
    ApplySingle(SetDefault(AutoApproval, Bool(false)), r);
    assert AutoApproval !in NodeSettingsV3Schema;
  }

  /** The downgrade drops only the auto-approval flag, so default_worker_pool survives and the result is not a version 3 field set. */
  lemma DowngradeKeepsWorkerPool(defaultPoolName: string, r: Record)
    requires r.Keys == NodeSettingsV4Schema(defaultPoolName).Keys
    ensures Apply(DowngradeOps, r).Keys == r.Keys - {AutoApproval}
    ensures DefaultWorkerPool in Apply(DowngradeOps, r) && Apply(DowngradeOps, r)[DefaultWorkerPool] == r[DefaultWorkerPool]
    ensures Apply(DowngradeOps, r).Keys != NodeSettingsV3Schema.Keys
  {
    var out := Apply(DowngradeOps, r);
    ApplySingle(Drop([AutoApproval]), r);
    assert (set f | f in [AutoApproval]) == {AutoApproval};
    assert DefaultWorkerPool !in NodeSettingsV3Schema;
  }

  /** Every field of an object without the auto-approval flag survives upgrade then downgrade unchanged. */
  lemma UpgradeThenDowngrade(r: Record)
    requires AutoApproval !in r
    ensures Apply(DowngradeOps, Apply(UpgradeOps, r)) == r
  {
    var up := Apply(UpgradeOps, r);
    ApplySingle(SetDefault(AutoApproval, Bool(false)), r);
    ApplySingle(Drop([AutoApproval]), up);
    assert (set f | f in [AutoApproval]) == {AutoApproval};
    assert Apply(DowngradeOps, up) == up - {AutoApproval};
  }

  /** The empty operation list of the NodeSettingsUpdate migration changes no field. */
  lemma UpdateUpgradeKeepsFields(r: Record)
    ensures Apply(UpdateUpgradeOps, r) == r
  {
  }

  const NodeSettingsUpdateV2Class := ClassDecl(ModuleName, "NodeSettingsUpdateV2", Some("NodeSettingsUpdate"), Some(2))
  const NodeSettingsUpdateClass := ClassDecl(ModuleName, "NodeSettingsUpdate", Some("NodeSettingsUpdate"), Some(3))
  const NodeSettingsClass := ClassDecl(ModuleName, "NodeSettings", Some("NodeSettings"), Some(4))
  const NodeSettingsV2Class := ClassDecl(ModuleName, "NodeSettingsV2", Some("NodeSettings"), Some(3))

  /** The module's class statements, in source order. */
  const ClassDeclarations: seq<Declaration> := [
    DeclareClass(NodeSettingsUpdateV2Class),
    DeclareClass(NodeSettingsUpdateClass),
    DeclareClass(NodeSettingsClass),
    DeclareClass(NodeSettingsV2Class)]

  const UpgradeDeclaration := DeclareMigration("NodeSettings", Some(3), "NodeSettings", Some(4), UpgradeOps)
  const DowngradeDeclaration := DeclareMigration("NodeSettings", Some(4), "NodeSettings", Some(3), DowngradeOps)
  const UpdateUpgradeDeclaration := DeclareMigration("NodeSettingsUpdate", Some(2), "NodeSettingsUpdate", Some(3), UpdateUpgradeOps)

  /** The module's `@migrate` declarations, in source order (the downgrade is declared twice). */
  const MigrationDeclarations: seq<Declaration> :=
    [UpgradeDeclaration, DowngradeDeclaration, UpdateUpgradeDeclaration, DowngradeDeclaration]

  /** What importing the settings module declares, in source order. */
  const SettingsDeclarations: seq<Declaration> := ClassDeclarations + MigrationDeclarations

  /** The registry holds neither canonical name of this module yet. */
  ghost predicate Fresh(s: RegistryState)
  {
    "NodeSettings" !in s.versions && "NodeSettingsUpdate" !in s.versions
    && "NodeSettings" !in s.transforms && "NodeSettingsUpdate" !in s.transforms
  }

  lemma KeyLiterals()
    ensures MappingKey(3, 4) == "3x4" && MappingKey(4, 3) == "4x3" && MappingKey(2, 3) == "2x3"
  {
    assert NatToString(2) == "2" && NatToString(3) == "3" && NatToString(4) == "4";
  }

  /** The version table after the module's four class statements. */
  function ClassVersions(versions: VersionMap, autoreload: bool): VersionMap
  {
    var v1 := RegisterVersion(versions, NodeSettingsUpdateV2Class, autoreload);
    var v2 := RegisterVersion(v1, NodeSettingsUpdateClass, autoreload);
    var v3 := RegisterVersion(v2, NodeSettingsClass, autoreload);
    RegisterVersion(v3, NodeSettingsV2Class, autoreload)
  }

  lemma ExecuteClasses(s: RegistryState, autoreload: bool)
    ensures Execute(s, ClassDeclarations, autoreload) == Ok(RegistryState(ClassVersions(s.versions, autoreload), s.transforms))
  {
    var d := ClassDeclarations;
    var v1 := RegisterVersion(s.versions, NodeSettingsUpdateV2Class, autoreload);
    var v2 := RegisterVersion(v1, NodeSettingsUpdateClass, autoreload);
    var v3 := RegisterVersion(v2, NodeSettingsClass, autoreload);
    var v4 := RegisterVersion(v3, NodeSettingsV2Class, autoreload);
    assert d[1..][1..] == d[2..] && d[2..][1..] == d[3..] && d[3..][1..] == [];
    assert Execute(RegistryState(v4, s.transforms), [], autoreload) == Ok(RegistryState(v4, s.transforms));
    assert Execute(RegistryState(v3, s.transforms), d[3..], autoreload) == Ok(RegistryState(v4, s.transforms));
    assert Execute(RegistryState(v2, s.transforms), d[2..], autoreload) == Ok(RegistryState(v4, s.transforms));
    assert Execute(RegistryState(v1, s.transforms), d[1..], autoreload) == Ok(RegistryState(v4, s.transforms));
  }

  /** A class statement for a name not yet registered starts its version map. */
  lemma RegisterFirstVersion(versions: VersionMap, decl: ClassDecl)
    requires decl.canonicalName.Some? && decl.version.Some? && decl.canonicalName.value !in versions
    ensures RegisterVersion(versions, decl, false)
            == versions[decl.canonicalName.value := map[decl.version.value := FullyQualifiedName(decl)]]
  {
  }

  /** Without autoreload, a class statement for a registered name adds to its version map. */
  lemma RegisterNextVersion(versions: VersionMap, decl: ClassDecl)
    requires decl.canonicalName.Some? && decl.version.Some? && decl.canonicalName.value in versions
    ensures var name := decl.canonicalName.value;
      RegisterVersion(versions, decl, false)
      == versions[name := versions[name][decl.version.value := FullyQualifiedName(decl)]]
  {
  }

  /** Without autoreload both versions of each name are kept. */
  lemma ClassVersionsWithoutAutoreload(versions: VersionMap)
    requires "NodeSettings" !in versions && "NodeSettingsUpdate" !in versions
    ensures ClassVersions(versions, false) == versions[
              "NodeSettingsUpdate" := map[2 := FullyQualifiedName(NodeSettingsUpdateV2Class), 3 := FullyQualifiedName(NodeSettingsUpdateClass)]][
              "NodeSettings" := map[4 := FullyQualifiedName(NodeSettingsClass), 3 := FullyQualifiedName(NodeSettingsV2Class)]]
  {
    var v1 := RegisterVersion(versions, NodeSettingsUpdateV2Class, false);
    var v2 := RegisterVersion(v1, NodeSettingsUpdateClass, false);
    var v3 := RegisterVersion(v2, NodeSettingsClass, false);
    RegisterFirstVersion(versions, NodeSettingsUpdateV2Class);
    RegisterNextVersion(v1, NodeSettingsUpdateClass);
    assert "NodeSettings" !in v2;
    RegisterFirstVersion(v2, NodeSettingsClass);
    RegisterNextVersion(v3, NodeSettingsV2Class);
  }

  lemma ClassVersionsKnown(versions: VersionMap)
    requires "NodeSettings" !in versions && "NodeSettingsUpdate" !in versions
    ensures BothVersionsKnown(ClassVersions(versions, false))
  {
    ClassVersionsWithoutAutoreload(versions);
  }

  /** With autoreload each class statement replaces its name's versions, so only the last declared version survives. */
  lemma ClassVersionsWithAutoreload(versions: VersionMap)
    ensures ClassVersions(versions, true)["NodeSettings"] == map[3 := FullyQualifiedName(NodeSettingsV2Class)]
  {
  }

  const Upgraded: map<string, Transform> := map["3x4" := Transform(UpgradeOps)]
  const BothWays: map<string, Transform> := map["3x4" := Transform(UpgradeOps), "4x3" := Transform(DowngradeOps)]
  const UpdateUpgraded: map<string, Transform> := map["2x3" := Transform(UpdateUpgradeOps)]

  /** The versions the four `@migrate` declarations run against, without autoreload. */
  ghost predicate BothVersionsKnown(v: VersionMap)
  {
    "NodeSettings" in v && 3 in v["NodeSettings"] && 4 in v["NodeSettings"]
    && "NodeSettingsUpdate" in v && 2 in v["NodeSettingsUpdate"] && 3 in v["NodeSettingsUpdate"]
  }

  lemma UpgradeStep(v: VersionMap, t: TransformMap)
    requires BothVersionsKnown(v) && "NodeSettings" !in t
    ensures Step(RegistryState(v, t), UpgradeDeclaration, false) == Ok(RegistryState(v, t["NodeSettings" := Upgraded]))
  {
    KeyLiterals();
  }

  lemma DowngradeStep(v: VersionMap, t: TransformMap)
    requires BothVersionsKnown(v) && "NodeSettings" in t && t["NodeSettings"].Keys <= {"3x4", "4x3"}
    requires "3x4" in t["NodeSettings"] && t["NodeSettings"]["3x4"] == Transform(UpgradeOps)
    ensures Step(RegistryState(v, t), DowngradeDeclaration, false) == Ok(RegistryState(v, t["NodeSettings" := BothWays]))
  {
    KeyLiterals();
    var r := RegisterTransformResult(v, t, "NodeSettings", 4, 3, Transform(DowngradeOps)).value;
    assert r["NodeSettings"] == BothWays;
  }

  lemma UpdateUpgradeStep(v: VersionMap, t: TransformMap)
    requires BothVersionsKnown(v) && "NodeSettingsUpdate" !in t
    ensures Step(RegistryState(v, t), UpdateUpgradeDeclaration, false) == Ok(RegistryState(v, t["NodeSettingsUpdate" := UpdateUpgraded]))
  {
    KeyLiterals();
  }

  /** The last two declarations (and the last but one alone) from the state the first two leave. */
  lemma ExecuteLastTwo(v: VersionMap, t: TransformMap)
    requires BothVersionsKnown(v) && "NodeSettingsUpdate" !in t
    requires "NodeSettings" in t && t["NodeSettings"] == BothWays
    ensures Execute(RegistryState(v, t), [UpdateUpgradeDeclaration, DowngradeDeclaration], false)
            == Ok(RegistryState(v, t["NodeSettingsUpdate" := UpdateUpgraded]))
    ensures Execute(RegistryState(v, t), [UpdateUpgradeDeclaration], false)
            == Ok(RegistryState(v, t["NodeSettingsUpdate" := UpdateUpgraded]))
  {
    var t3 := t["NodeSettingsUpdate" := UpdateUpgraded];
    UpdateUpgradeStep(v, t);
    DowngradeStep(v, t3);
    assert t3["NodeSettings" := BothWays] == t3;
    var two := [UpdateUpgradeDeclaration, DowngradeDeclaration];
    assert two[0] == UpdateUpgradeDeclaration && two[1..] == [DowngradeDeclaration];
    var last := [DowngradeDeclaration];
    assert last[0] == DowngradeDeclaration && last[1..] == [];
    var first := [UpdateUpgradeDeclaration];
    assert first[0] == UpdateUpgradeDeclaration && first[1..] == [];
    assert Execute(RegistryState(v, t3), [], false) == Ok(RegistryState(v, t3));
  }

  /** The last three declarations (and the middle two alone) from the state the upgrade leaves. */
  lemma ExecuteLastThree(v: VersionMap, t: TransformMap)
    requires BothVersionsKnown(v) && "NodeSettings" !in t && "NodeSettingsUpdate" !in t
    ensures Execute(RegistryState(v, t["NodeSettings" := Upgraded]), [DowngradeDeclaration, UpdateUpgradeDeclaration, DowngradeDeclaration], false)
            == Ok(RegistryState(v, t["NodeSettings" := BothWays]["NodeSettingsUpdate" := UpdateUpgraded]))
    ensures Execute(RegistryState(v, t["NodeSettings" := Upgraded]), [DowngradeDeclaration, UpdateUpgradeDeclaration], false)
            == Ok(RegistryState(v, t["NodeSettings" := BothWays]["NodeSettingsUpdate" := UpdateUpgraded]))
  {
    var t1, t2 := t["NodeSettings" := Upgraded], t["NodeSettings" := BothWays];
    DowngradeStep(v, t1);
    assert t1["NodeSettings" := BothWays] == t2;
    ExecuteLastTwo(v, t2);
    var three := [DowngradeDeclaration, UpdateUpgradeDeclaration, DowngradeDeclaration];
    assert three[0] == DowngradeDeclaration && three[1..] == [UpdateUpgradeDeclaration, DowngradeDeclaration];
    var two := [DowngradeDeclaration, UpdateUpgradeDeclaration];
    assert two[0] == DowngradeDeclaration && two[1..] == [UpdateUpgradeDeclaration];
  }

  /** The four `@migrate` declarations, from versions that know both versions of each name. */
  lemma ExecuteMigrations(v: VersionMap, t: TransformMap)
    requires BothVersionsKnown(v) && "NodeSettings" !in t && "NodeSettingsUpdate" !in t
    ensures Execute(RegistryState(v, t), MigrationDeclarations, false)
            == Ok(RegistryState(v, t["NodeSettings" := BothWays]["NodeSettingsUpdate" := UpdateUpgraded]))
  {
    var decls := MigrationDeclarations;
    UpgradeStep(v, t);
    ExecuteLastThree(v, t);
    assert decls[0] == UpgradeDeclaration;
    assert decls[1..] == [DowngradeDeclaration, UpdateUpgradeDeclaration, DowngradeDeclaration];
  }

  /** The first three `@migrate` declarations already leave what all four leave. */
  lemma ExecuteFirstThreeMigrations(v: VersionMap, t: TransformMap)
    requires BothVersionsKnown(v) && "NodeSettings" !in t && "NodeSettingsUpdate" !in t
    ensures Execute(RegistryState(v, t), [UpgradeDeclaration, DowngradeDeclaration, UpdateUpgradeDeclaration], false)
            == Ok(RegistryState(v, t["NodeSettings" := BothWays]["NodeSettingsUpdate" := UpdateUpgraded]))
  {
    var decls := [UpgradeDeclaration, DowngradeDeclaration, UpdateUpgradeDeclaration];
    UpgradeStep(v, t);
    ExecuteLastThree(v, t);
    assert decls[0] == UpgradeDeclaration && decls[1..] == [DowngradeDeclaration, UpdateUpgradeDeclaration];
  }

  /** The keys filed under the two names once the import has stored BothWays and UpdateUpgraded. */
  lemma FiledKeys(t: TransformMap, before: TransformMap)
    requires t == before["NodeSettings" := BothWays]["NodeSettingsUpdate" := UpdateUpgraded]
    ensures "NodeSettings" in t && t["NodeSettings"].Keys == {"3x4", "4x3"}
    ensures "NodeSettingsUpdate" in t && t["NodeSettingsUpdate"].Keys == {"2x3"}
  {
    assert t["NodeSettings"] == BothWays;
  }

  /** The transform keys the import leaves: 3x4 and 4x3 under "NodeSettings", only 2x3 under "NodeSettingsUpdate". */
  lemma RegisteredKeys(s: RegistryState)
    requires Fresh(s)
    ensures var r := Execute(s, SettingsDeclarations, false);
      && r.Ok?
      && "NodeSettings" in r.value.transforms && r.value.transforms["NodeSettings"].Keys == {"3x4", "4x3"}
      && "NodeSettingsUpdate" in r.value.transforms && r.value.transforms["NodeSettingsUpdate"].Keys == {"2x3"}
  {
    SettingsImport(s);
    FiledKeys(Execute(s, SettingsDeclarations, false).value.transforms, s.transforms);
  }

  /**
    Without autoreload, importing the module registers both versions of each
    name and the transforms BothWays and UpdateUpgraded; every other name is
    untouched.
   */
  lemma SettingsImport(s: RegistryState)
    requires Fresh(s)
    ensures Execute(s, SettingsDeclarations, false)
            == Ok(RegistryState(ClassVersions(s.versions, false), s.transforms["NodeSettings" := BothWays]["NodeSettingsUpdate" := UpdateUpgraded]))
  {
    var v := ClassVersions(s.versions, false);
    ExecuteAppend(s, ClassDeclarations, MigrationDeclarations, false);
    ExecuteClasses(s, false);
    ClassVersionsKnown(s.versions);
    ExecuteMigrations(v, s.transforms);
  }

  /**
    With autoreload on, each class statement replaces its name's version map,
    so only version 3 of "NodeSettings" remains and the first `@migrate` (3 -> 4)
    raises: the import fails.
   */
  lemma SettingsImportWithAutoreload(s: RegistryState)
    ensures Execute(s, SettingsDeclarations, true) == Err(UnknownVersion("NodeSettings", 3, 4))
  {
    var v := ClassVersions(s.versions, true);
    ExecuteAppend(s, ClassDeclarations, MigrationDeclarations, true);
    ExecuteClasses(s, true);
    ClassVersionsWithAutoreload(s.versions);
    assert Step(RegistryState(v, s.transforms), UpgradeDeclaration, true) == Err(UnknownVersion("NodeSettings", 3, 4));
  }

  /** The second 4 -> 3 declaration overwrites the first with an equal transform: leaving it out changes nothing. */
  lemma RedeclaredDowngradeIsRedundant(s: RegistryState)
    requires Fresh(s)
    ensures Execute(s, ClassDeclarations + MigrationDeclarations[..3], false) == Execute(s, SettingsDeclarations, false)
  {
    var v := ClassVersions(s.versions, false);
    ExecuteAppend(s, ClassDeclarations, MigrationDeclarations, false);
    ExecuteAppend(s, ClassDeclarations, MigrationDeclarations[..3], false);
    ExecuteClasses(s, false);
    ClassVersionsWithoutAutoreload(s.versions);
    ExecuteMigrations(v, s.transforms);
    ExecuteFirstThreeMigrations(v, s.transforms);
    assert MigrationDeclarations[..3] == [UpgradeDeclaration, DowngradeDeclaration, UpdateUpgradeDeclaration];
  }
}

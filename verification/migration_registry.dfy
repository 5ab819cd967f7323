/**
  The schema-migration registry: a process-wide table from canonical name to
  (version -> fully qualified class name), and from canonical name to
  ("{from}x{to}" -> transform). Classes enter the first table as they are
  declared; `@migrate` declarations enter the second; `get_migration` walks the
  method resolution orders (MROs) of two classes to find a registered transform.
 */
module MigrationRegistry {
  import opened Common
  import opened VersionKey
  import opened Records

  /** A class statement as the registry's subclass hook sees it; a missing class attribute is None. */
  datatype ClassDecl = ClassDecl(
    moduleName: string,
    className: string,
    canonicalName: Option<string>,  // __canonical_name__
    version: Option<int>)           // __version__

  /** f"{cls.__module__}.{cls.__name__}" */
  function FullyQualifiedName(decl: ClassDecl): string
  {
    decl.moduleName + "." + decl.className
  }

  type VersionMap = map<string, map<int, string>>
  type TransformMap = map<string, map<string, Transform>>

  /** One entry of a class's MRO: a subclass of SyftBaseObject with its name and version, or any other class. */
  datatype MroEntry = SyftClass(canonicalName: string, version: int) | PlainClass

  /** The pair (klass_to, version_to) that get_migration's inner loop last bound. */
  datatype Target = Target(canonicalName: string, version: int)

  datatype MigrationError =
    | NotRegistered(canonicalName: string)                                  // register_transform: unknown name
    | UnknownVersion(canonicalName: string, versionFrom: int, versionTo: int) // register_transform: unknown version
    | CrossTypeMigration(nameFrom: string, nameTo: string)                  // migrate: canonical names differ
    | MissingVersion                                                        // migrate: a version is None
    | MissingTransformMap(canonicalName: string)                            // get_migration: KeyError on the name
    | UnboundTarget                                                         // get_migration: klass_to read before assignment
    | NoMigrationFound                                                      // get_migration: no pair matched

  /** The version table after the subclass hook has seen `decl`. */
  function RegisterVersion(versions: VersionMap, decl: ClassDecl, autoreload: bool): (r: VersionMap)
    ensures decl.canonicalName.None? || decl.version.None? ==> r == versions
    ensures decl.canonicalName.Some? && decl.version.Some? ==>
      var name, v := decl.canonicalName.value, decl.version.value;
      && r.Keys == versions.Keys + {name}
      && (forall n :: n in versions && n != name ==> r[n] == versions[n])
      && v in r[name] && r[name][v] == FullyQualifiedName(decl)
      && (name in versions && !autoreload ==>
            r[name].Keys == versions[name].Keys + {v}
            && forall w :: w in versions[name] && w != v ==> r[name][w] == versions[name][w])
      && (name !in versions || autoreload ==> r[name].Keys == {v})
  {
    if decl.canonicalName.Some? && decl.version.Some? then
      var name, v := decl.canonicalName.value, decl.version.value;
      if name in versions && !autoreload then versions[name := versions[name][v := FullyQualifiedName(decl)]]
      else versions[name := map[v := FullyQualifiedName(decl)]]
    else
      versions
  }

  /** The transform table after register_transform, or the error it raises. */
  function RegisterTransformResult(versions: VersionMap, transforms: TransformMap, name: string,
                                   versionFrom: int, versionTo: int, t: Transform): (r: Result<TransformMap, MigrationError>)
    ensures name !in versions ==> r == Err(NotRegistered(name))
    ensures name in versions && (versionFrom !in versions[name] || versionTo !in versions[name]) ==>
              r == Err(UnknownVersion(name, versionFrom, versionTo))
    ensures r.Ok? <==> name in versions && versionFrom in versions[name] && versionTo in versions[name]
    ensures r.Ok? ==>
      var key := MappingKey(versionFrom, versionTo);
      && r.value.Keys == transforms.Keys + {name}
      && (forall n :: n in transforms && n != name ==> r.value[n] == transforms[n])
      && r.value[name].Keys == (if name in transforms then transforms[name].Keys else {}) + {key}
      && r.value[name][key] == t
      && (forall k :: name in transforms && k in transforms[name] && k != key ==> r.value[name][k] == transforms[name][k])
  {
    if name !in versions then Err(NotRegistered(name))
    else if versionFrom in versions[name] && versionTo in versions[name] then
      var inner := if name in transforms then transforms[name] else map[];
      Ok(transforms[name := inner[MappingKey(versionFrom, versionTo) := t]])
    else Err(UnknownVersion(name, versionFrom, versionTo))
  }

  /** Registering (from, to) leaves every other version pair's transform where it was. */
  lemma RegisterTransformKeepsOtherPairs(versions: VersionMap, transforms: TransformMap, name: string,
                                         versionFrom: int, versionTo: int, t: Transform, f: int, g: int)
    requires RegisterTransformResult(versions, transforms, name, versionFrom, versionTo, t).Ok?
    requires (f, g) != (versionFrom, versionTo)
    ensures var r := RegisterTransformResult(versions, transforms, name, versionFrom, versionTo, t).value;
      && (MappingKey(f, g) in r[name] <==> name in transforms && MappingKey(f, g) in transforms[name])
      && (MappingKey(f, g) in r[name] ==> r[name][MappingKey(f, g)] == transforms[name][MappingKey(f, g)])
  {
    MappingKeyInjective(f, g, versionFrom, versionTo);
  }

  /** The argument checks of `migrate`, in source order; on success the two versions. */
  function CheckMigrateArgs(nameFrom: string, versionFrom: Option<int>, nameTo: string, versionTo: Option<int>)
    : (r: Result<(int, int), MigrationError>)
    ensures r.Ok? <==> nameFrom == nameTo && versionFrom.Some? && versionTo.Some?
    ensures nameFrom != nameTo ==> r == Err(CrossTypeMigration(nameFrom, nameTo))
    ensures r.Ok? ==> r.value == (versionFrom.value, versionTo.value)
    ensures r.Err? && nameFrom == nameTo ==> r.error == MissingVersion
  {
    if nameFrom != nameTo then Err(CrossTypeMigration(nameFrom, nameTo))
    else if versionFrom.None? || versionTo.None? then Err(MissingVersion)
    else Ok((versionFrom.value, versionTo.value))
  }

  /** The transform table after one `@migrate(...)` declaration whose function returns `ops`. */
  function MigrateResult(versions: VersionMap, transforms: TransformMap, nameFrom: string, versionFrom: Option<int>,
                         nameTo: string, versionTo: Option<int>, ops: seq<Operation>): (r: Result<TransformMap, MigrationError>)
    ensures CheckMigrateArgs(nameFrom, versionFrom, nameTo, versionTo).Err? ==>
              r == Err(CheckMigrateArgs(nameFrom, versionFrom, nameTo, versionTo).error)
    ensures r.Ok? ==> nameFrom == nameTo && versionFrom.Some? && versionTo.Some?
                      && nameFrom in r.value && MappingKey(versionFrom.value, versionTo.value) in r.value[nameFrom]
                      && r.value[nameFrom][MappingKey(versionFrom.value, versionTo.value)] == Transform(ops)
    ensures r.Ok? ==> r.value.Keys == transforms.Keys + {nameFrom}
                      && forall n :: n in transforms && n != nameFrom ==> r.value[n] == transforms[n]
  {
    match CheckMigrateArgs(nameFrom, versionFrom, nameTo, versionTo)
    case Err(e) => Err(e)
    case Ok((f, g)) => RegisterTransformResult(versions, transforms, nameFrom, f, g, Transform(ops))
  }

  /** Outcome of get_migration's inner loop over the target MRO. */
  datatype ScanOutcome = Found(t: Transform) | Raised(e: MigrationError) | Exhausted(last: Option<Target>)

  /** The inner loop from target index j on, with `last` the pair bound so far. */
  function ScanTargets(tr: TransformMap, klassFrom: string, versionFrom: int, toMro: seq<MroEntry>,
                       j: nat, last: Option<Target>): (o: ScanOutcome)
    requires j <= |toMro|
    // the inner loop of get_migration raises only the unbound-target error and the KeyError of a missing transform map
    ensures o.Raised? ==> o.e == UnboundTarget || o.e == MissingTransformMap(klassFrom)
    decreases |toMro| - j
  {
    if j == |toMro| then Exhausted(last)
    else
      var cur := if toMro[j].SyftClass? then Some(Target(toMro[j].canonicalName, toMro[j].version)) else last;
      if cur.None? then Raised(UnboundTarget)
      else if cur.value.canonicalName != klassFrom then ScanTargets(tr, klassFrom, versionFrom, toMro, j + 1, cur)
      else if klassFrom !in tr then Raised(MissingTransformMap(klassFrom))
      else if MappingKey(versionFrom, cur.value.version) in tr[klassFrom] then
        Found(tr[klassFrom][MappingKey(versionFrom, cur.value.version)])
      else ScanTargets(tr, klassFrom, versionFrom, toMro, j + 1, cur)
  }

  /** The outer loop from source index i on. */
  function ScanSources(tr: TransformMap, fromMro: seq<MroEntry>, toMro: seq<MroEntry>,
                       i: nat, last: Option<Target>): Result<Transform, MigrationError>
    requires i <= |fromMro|
    decreases |fromMro| - i
  {
    if i == |fromMro| then Err(NoMigrationFound)
    else if fromMro[i].PlainClass? then ScanSources(tr, fromMro, toMro, i + 1, last)
    else
      match ScanTargets(tr, fromMro[i].canonicalName, fromMro[i].version, toMro, 0, last)
      case Found(t) => Ok(t)
      case Raised(e) => Err(e)
      case Exhausted(l) => ScanSources(tr, fromMro, toMro, i + 1, l)
  }

  /** What get_migration returns or raises for two MROs. */
  function FindMigration(tr: TransformMap, fromMro: seq<MroEntry>, toMro: seq<MroEntry>): (r: Result<Transform, MigrationError>)
    // the two most-derived classes are tried first
    ensures |fromMro| > 0 && |toMro| > 0 && fromMro[0].SyftClass? && toMro[0].SyftClass?
            && fromMro[0].canonicalName == toMro[0].canonicalName ==>
              var name := fromMro[0].canonicalName;
              var key := MappingKey(fromMro[0].version, toMro[0].version);
              && (name !in tr ==> r == Err(MissingTransformMap(name)))
              && (name in tr && key in tr[name] ==> r == Ok(tr[name][key]))
  {
    ScanSources(tr, fromMro, toMro, 0, None)
  }

  /** Entry `from` and entry `to` are Syft classes with the same canonical name. */
  ghost predicate SameName(from: MroEntry, to: MroEntry)
  {
    from.SyftClass? && to.SyftClass? && from.canonicalName == to.canonicalName
  }

  /** `t` is the transform filed under `name` for the version pair (versionFrom, versionTo). */
  ghost predicate Filed(tr: TransformMap, name: string, versionFrom: int, versionTo: int, t: Transform)
  {
    name in tr && MappingKey(versionFrom, versionTo) in tr[name] && tr[name][MappingKey(versionFrom, versionTo)] == t
  }

  /** The bound pair, if any, is one of the target MRO's Syft entries. */
  ghost predicate BoundFrom(toMro: seq<MroEntry>, last: Option<Target>)
  {
    last.Some? ==> exists j :: 0 <= j < |toMro| && toMro[j] == SyftClass(last.value.canonicalName, last.value.version)
  }

  lemma {:induction false} ScanTargetsSound(tr: TransformMap, klassFrom: string, versionFrom: int, toMro: seq<MroEntry>,
                                           j: nat, last: Option<Target>)
    requires j <= |toMro| && BoundFrom(toMro, last)
    ensures var o := ScanTargets(tr, klassFrom, versionFrom, toMro, j, last);
      && (o.Found? ==> exists jj :: 0 <= jj < |toMro| && toMro[jj].SyftClass? && toMro[jj].canonicalName == klassFrom
                                     && Filed(tr, klassFrom, versionFrom, toMro[jj].version, o.t))
      && (o.Raised? && o.e.MissingTransformMap? ==>
            o.e.canonicalName == klassFrom && klassFrom !in tr
            && exists jj :: 0 <= jj < |toMro| && toMro[jj].SyftClass? && toMro[jj].canonicalName == klassFrom)
      && (o.Exhausted? ==> BoundFrom(toMro, o.last))
    decreases |toMro| - j
  {
    if j < |toMro| {
      var cur := if toMro[j].SyftClass? then Some(Target(toMro[j].canonicalName, toMro[j].version)) else last;
      assert BoundFrom(toMro, cur);
      if cur.Some? {
        ScanTargetsSound(tr, klassFrom, versionFrom, toMro, j + 1, cur);
      }
    }
  }

  lemma {:induction false} ScanSourcesSound(tr: TransformMap, fromMro: seq<MroEntry>, toMro: seq<MroEntry>,
                                           i: nat, last: Option<Target>)
    requires i <= |fromMro| && BoundFrom(toMro, last)
    ensures var r := ScanSources(tr, fromMro, toMro, i, last);
      && (r.Ok? ==> exists ii, jj :: i <= ii < |fromMro| && 0 <= jj < |toMro| && SameName(fromMro[ii], toMro[jj])
                                      && Filed(tr, fromMro[ii].canonicalName, fromMro[ii].version, toMro[jj].version, r.value))
      && (r.Err? && r.error.MissingTransformMap? ==>
            r.error.canonicalName !in tr
            && exists ii, jj :: i <= ii < |fromMro| && 0 <= jj < |toMro| && SameName(fromMro[ii], toMro[jj])
                                && fromMro[ii].canonicalName == r.error.canonicalName)
    decreases |fromMro| - i
  {
    if i < |fromMro| {
      if fromMro[i].PlainClass? {
        ScanSourcesSound(tr, fromMro, toMro, i + 1, last);
      } else {
        ScanTargetsSound(tr, fromMro[i].canonicalName, fromMro[i].version, toMro, 0, last);
        var o := ScanTargets(tr, fromMro[i].canonicalName, fromMro[i].version, toMro, 0, last);
        if o.Exhausted? {
          ScanSourcesSound(tr, fromMro, toMro, i + 1, o.last);
        }
      }
    }
  }

  /**
    A transform get_migration returns is the one filed for some pair of
    same-named Syft classes of the two MROs, under exactly that pair's versions;
    a KeyError names a canonical name that both MROs carry and that has no
    transform map.
   */
  lemma FindMigrationSound(tr: TransformMap, fromMro: seq<MroEntry>, toMro: seq<MroEntry>)
    ensures var r := FindMigration(tr, fromMro, toMro);
      && (r.Ok? ==> exists i, j :: 0 <= i < |fromMro| && 0 <= j < |toMro| && SameName(fromMro[i], toMro[j])
                                    && Filed(tr, fromMro[i].canonicalName, fromMro[i].version, toMro[j].version, r.value))
      && (r.Err? && r.error.MissingTransformMap? ==>
            r.error.canonicalName !in tr
            && exists i, j :: 0 <= i < |fromMro| && 0 <= j < |toMro| && SameName(fromMro[i], toMro[j])
                              && fromMro[i].canonicalName == r.error.canonicalName)
  {
    ScanSourcesSound(tr, fromMro, toMro, 0, None);
  }

  lemma {:induction false} ScanTargetsExhausted(tr: TransformMap, klassFrom: string, versionFrom: int, toMro: seq<MroEntry>,
                                               j: nat, last: Option<Target>)
    requires j <= |toMro|
    requires ScanTargets(tr, klassFrom, versionFrom, toMro, j, last).Exhausted?
    ensures forall jj :: j <= jj < |toMro| && toMro[jj].SyftClass? && toMro[jj].canonicalName == klassFrom ==>
              klassFrom in tr && MappingKey(versionFrom, toMro[jj].version) !in tr[klassFrom]
    decreases |toMro| - j
  {
    if j < |toMro| {
      var cur := if toMro[j].SyftClass? then Some(Target(toMro[j].canonicalName, toMro[j].version)) else last;
      ScanTargetsExhausted(tr, klassFrom, versionFrom, toMro, j + 1, cur);
    }
  }

  lemma {:induction false} ScanSourcesNotFound(tr: TransformMap, fromMro: seq<MroEntry>, toMro: seq<MroEntry>,
                                              i: nat, last: Option<Target>)
    requires i <= |fromMro|
    requires ScanSources(tr, fromMro, toMro, i, last) == Err(NoMigrationFound)
    ensures forall ii, jj :: i <= ii < |fromMro| && 0 <= jj < |toMro| && SameName(fromMro[ii], toMro[jj]) ==>
              fromMro[ii].canonicalName in tr
              && MappingKey(fromMro[ii].version, toMro[jj].version) !in tr[fromMro[ii].canonicalName]
    decreases |fromMro| - i
  {
    if i < |fromMro| {
      if fromMro[i].PlainClass? {
        ScanSourcesNotFound(tr, fromMro, toMro, i + 1, last);
      } else {
        var o := ScanTargets(tr, fromMro[i].canonicalName, fromMro[i].version, toMro, 0, last);
        ScanTargetsExhausted(tr, fromMro[i].canonicalName, fromMro[i].version, toMro, 0, last);
        ScanSourcesNotFound(tr, fromMro, toMro, i + 1, o.last);
      }
    }
  }

  /** "No migration found" means that no same-named pair of the two MROs has a transform filed. */
  lemma FindMigrationNotFound(tr: TransformMap, fromMro: seq<MroEntry>, toMro: seq<MroEntry>)
    requires FindMigration(tr, fromMro, toMro) == Err(NoMigrationFound)
    ensures forall i, j :: 0 <= i < |fromMro| && 0 <= j < |toMro| && SameName(fromMro[i], toMro[j]) ==>
              fromMro[i].canonicalName in tr
              && MappingKey(fromMro[i].version, toMro[j].version) !in tr[fromMro[i].canonicalName]
  {
    ScanSourcesNotFound(tr, fromMro, toMro, 0, None);
  }

  lemma {:induction false} ScanTargetsBound(tr: TransformMap, klassFrom: string, versionFrom: int, toMro: seq<MroEntry>,
                                           j: nat, last: Option<Target>)
    requires j <= |toMro|
    ensures var o := ScanTargets(tr, klassFrom, versionFrom, toMro, j, last);
      && (o == Raised(UnboundTarget) <==> last.None? && j < |toMro| && toMro[j].PlainClass?)
      && (o.Exhausted? && o.last.None? ==> last.None? && j == |toMro|)
    decreases |toMro| - j
  {
    if j < |toMro| {
      var cur := if toMro[j].SyftClass? then Some(Target(toMro[j].canonicalName, toMro[j].version)) else last;
      ScanTargetsBound(tr, klassFrom, versionFrom, toMro, j + 1, cur);
    }
  }

  lemma {:induction false} ScanSourcesUnbound(tr: TransformMap, fromMro: seq<MroEntry>, toMro: seq<MroEntry>,
                                             i: nat, last: Option<Target>)
    requires i <= |fromMro|
    ensures ScanSources(tr, fromMro, toMro, i, last) == Err(UnboundTarget) <==>
              last.None? && (exists ii :: i <= ii < |fromMro| && fromMro[ii].SyftClass?) && |toMro| > 0 && toMro[0].PlainClass?
    decreases |fromMro| - i
  {
    if i < |fromMro| {
      if fromMro[i].PlainClass? {
        ScanSourcesUnbound(tr, fromMro, toMro, i + 1, last);
        if exists ii :: i <= ii < |fromMro| && fromMro[ii].SyftClass? {
          var ii :| i <= ii < |fromMro| && fromMro[ii].SyftClass?;
          assert ii != i;
        }
      } else {
        ScanTargetsBound(tr, fromMro[i].canonicalName, fromMro[i].version, toMro, 0, last);
        var o := ScanTargets(tr, fromMro[i].canonicalName, fromMro[i].version, toMro, 0, last);
        if o.Exhausted? {
          ScanSourcesUnbound(tr, fromMro, toMro, i + 1, o.last);
        }
      }
    }
  }

  /**
    get_migration raises UnboundLocalError exactly when the source MRO holds a
    Syft class and the target MRO starts with a class that is not one: the
    inner loop's `klass_from == klass_to` test then reads klass_to before any
    assignment.
   */
  lemma FindMigrationUnbound(tr: TransformMap, fromMro: seq<MroEntry>, toMro: seq<MroEntry>)
    ensures FindMigration(tr, fromMro, toMro) == Err(UnboundTarget) <==>
              (exists i :: 0 <= i < |fromMro| && fromMro[i].SyftClass?) && |toMro| > 0 && toMro[0].PlainClass?
  {
    ScanSourcesUnbound(tr, fromMro, toMro, 0, None);
  }

  /** A declaration executed at import time: a class statement or an `@migrate` decorator. */
  datatype Declaration =
    | DeclareClass(decl: ClassDecl)
    | DeclareMigration(nameFrom: string, versionFrom: Option<int>, nameTo: string, versionTo: Option<int>, ops: seq<Operation>)

  datatype RegistryState = RegistryState(versions: VersionMap, transforms: TransformMap)

  /** Executes one declaration: a class statement runs the subclass hook, a decorator registers its transform or raises. */
  function Step(s: RegistryState, d: Declaration, autoreload: bool): (r: Result<RegistryState, MigrationError>)
    ensures d.DeclareClass? ==> r == Ok(RegistryState(RegisterVersion(s.versions, d.decl, autoreload), s.transforms))
    ensures d.DeclareMigration? ==>
      r == (match MigrateResult(s.versions, s.transforms, d.nameFrom, d.versionFrom, d.nameTo, d.versionTo, d.ops)
            case Ok(t) => Ok(RegistryState(s.versions, t))
            case Err(e) => Err(e))
    ensures r.Ok? ==> s.versions.Keys <= r.value.versions.Keys && s.transforms.Keys <= r.value.transforms.Keys
  {
    match d
    case DeclareClass(decl) => Ok(RegistryState(RegisterVersion(s.versions, decl, autoreload), s.transforms))
    case DeclareMigration(nameFrom, versionFrom, nameTo, versionTo, ops) =>
      match MigrateResult(s.versions, s.transforms, nameFrom, versionFrom, nameTo, versionTo, ops)
      case Err(e) => Err(e)
      case Ok(t) => Ok(RegistryState(s.versions, t))
  }

  /**
    Executes declarations in order; the first one that raises stops the import
    with its error. Only a decorator can raise, and an import never removes a
    name from either table.
   */
  function Execute(s: RegistryState, decls: seq<Declaration>, autoreload: bool): (r: Result<RegistryState, MigrationError>)
    ensures r.Err? ==> exists i :: 0 <= i < |decls| && decls[i].DeclareMigration?
    decreases |decls|
  {
    if decls == [] then Ok(s)
    else match Step(s, decls[0], autoreload)
      case Err(e) => Err(e)
      case Ok(next) => Execute(next, decls[1..], autoreload)
  }

  /** An import that succeeds never removes a canonical name from either table. */
  lemma {:induction false} ExecuteKeepsNames(s: RegistryState, decls: seq<Declaration>, autoreload: bool)
    requires Execute(s, decls, autoreload).Ok?
    ensures var r := Execute(s, decls, autoreload).value;
      s.versions.Keys <= r.versions.Keys && s.transforms.Keys <= r.transforms.Keys
    decreases |decls|
  {
    if decls != [] {
      ExecuteKeepsNames(Step(s, decls[0], autoreload).value, decls[1..], autoreload);
    }
  }

  /** Executing two blocks of declarations is executing the first, then the second from where it left off. */
  lemma {:induction false} ExecuteAppend(s: RegistryState, a: seq<Declaration>, b: seq<Declaration>, autoreload: bool)
    ensures Execute(s, a + b, autoreload) ==
      (match Execute(s, a, autoreload)
       case Ok(next) => Execute(next, b, autoreload)
       case Err(e) => Err(e))
    decreases |a|
  {
    if a == [] {
      assert a + b == b;
    } else {
      assert (a + b)[0] == a[0] && (a + b)[1..] == a[1..] + b;
      match Step(s, a[0], autoreload)
      case Err(e) =>
      case Ok(next) => ExecuteAppend(next, a[1..], b, autoreload);
    }
  }

  /** The process-wide registry (the two class-level dictionaries of SyftMigrationRegistry). */
  class Registry {
    var versionRegistry: VersionMap
    var transformRegistry: TransformMap

    constructor ()
      ensures versionRegistry == map[] && transformRegistry == map[]
    {
      versionRegistry := map[];
      transformRegistry := map[];
    }

    /** The subclass hook: files the new class under its canonical name and version. */
    method InitSubclass(decl: ClassDecl, autoreload: bool)
      modifies this`versionRegistry
      ensures versionRegistry == RegisterVersion(old(versionRegistry), decl, autoreload)
    {
      if decl.canonicalName.Some? && decl.version.Some? {
        var mappingString := decl.canonicalName.value;
        var klassVersion := decl.version.value;
        var fqn := FullyQualifiedName(decl);
        if mappingString in versionRegistry && !autoreload {
          var versions := versionRegistry[mappingString];
          versions := versions[klassVersion := fqn];
          versionRegistry := versionRegistry[mappingString := versions];
        } else {
          versionRegistry := versionRegistry[mappingString := map[klassVersion := fqn]];
        }
      }
    }

    method RegisterTransform(name: string, versionFrom: int, versionTo: int, t: Transform)
      returns (r: Result<(), MigrationError>)
      modifies this`transformRegistry
      ensures (match RegisterTransformResult(versionRegistry, old(transformRegistry), name, versionFrom, versionTo, t)
        case Ok(m) => r.Ok? && transformRegistry == m
        case Err(e) => r == Err(e) && transformRegistry == old(transformRegistry))
    {
      if name !in versionRegistry {
        return Err(NotRegistered(name));
      }
      var availableVersions := versionRegistry[name];
      var versionsExist := versionFrom in availableVersions && versionTo in availableVersions;
      if versionsExist {
        var mappingString := MappingKey(versionFrom, versionTo);
        ghost var inner := if name in transformRegistry then transformRegistry[name] else map[];
        if name !in transformRegistry {
          transformRegistry := transformRegistry[name := map[]];
        }
        assert transformRegistry[name] == inner;
        transformRegistry := transformRegistry[name := transformRegistry[name][mappingString := t]];
        assert transformRegistry == old(transformRegistry)[name := inner[mappingString := t]];
        r := Ok(());
      } else {
        r := Err(UnknownVersion(name, versionFrom, versionTo));
      }
    }

    /** `@migrate(...)` applied to a function returning `ops`: check the arguments, then register. */
    method Migrate(nameFrom: string, versionFrom: Option<int>, nameTo: string, versionTo: Option<int>, ops: seq<Operation>)
      returns (r: Result<(), MigrationError>)
      modifies this`transformRegistry
      ensures (match MigrateResult(versionRegistry, old(transformRegistry), nameFrom, versionFrom, nameTo, versionTo, ops)
        case Ok(m) => r.Ok? && transformRegistry == m
        case Err(e) => r == Err(e) && transformRegistry == old(transformRegistry))
    {
      if nameFrom != nameTo {
        return Err(CrossTypeMigration(nameFrom, nameTo));
      }
      if versionFrom.None? || versionTo.None? {
        return Err(MissingVersion);
      }
      r := RegisterTransform(nameFrom, versionFrom.value, versionTo.value, Transform(ops));
    }

    /** get_migration: the nested walk over both MROs, returning the first transform found. */
    method GetMigration(fromMro: seq<MroEntry>, toMro: seq<MroEntry>) returns (r: Result<Transform, MigrationError>)
      ensures r == FindMigration(transformRegistry, fromMro, toMro)
    {
      var klassTo: Option<Target> := None;
      for i := 0 to |fromMro|
        invariant FindMigration(transformRegistry, fromMro, toMro) == ScanSources(transformRegistry, fromMro, toMro, i, klassTo)
      {
        if fromMro[i].SyftClass? {
          var klassFrom, versionFrom := fromMro[i].canonicalName, fromMro[i].version;
          ghost var entry := klassTo;
          for j := 0 to |toMro|
            invariant ScanTargets(transformRegistry, klassFrom, versionFrom, toMro, 0, entry)
                      == ScanTargets(transformRegistry, klassFrom, versionFrom, toMro, j, klassTo)
          {
            if toMro[j].SyftClass? {
              klassTo := Some(Target(toMro[j].canonicalName, toMro[j].version));
            }
            if klassTo.None? {
              return Err(UnboundTarget);
            }
            if klassFrom == klassTo.value.canonicalName {
              if klassFrom !in transformRegistry {
                return Err(MissingTransformMap(klassFrom));
              }
              var mappingString := MappingKey(versionFrom, klassTo.value.version);
              if mappingString in transformRegistry[klassFrom] {
                return Ok(transformRegistry[klassFrom][mappingString]);
              }
            }
          }
        }
      }
      return Err(NoMigrationFound);
    }

    /** SyftObjectTable.migrate_to: look the transform up for (type(self), projection) and apply it to the object's fields. */
    method MigrateTo(obj: Record, objMro: seq<MroEntry>, projectionMro: seq<MroEntry>) returns (r: Result<Record, MigrationError>)
      ensures FindMigration(transformRegistry, objMro, projectionMro).Ok? ==>
                r == Ok(Apply(FindMigration(transformRegistry, objMro, projectionMro).value.ops, obj))
      ensures FindMigration(transformRegistry, objMro, projectionMro).Err? ==>
                r == Err(FindMigration(transformRegistry, objMro, projectionMro).error)
    {
      var found := GetMigration(objMro, projectionMro);
      if found.Ok? {
        r := Ok(Apply(found.value.ops, obj));
      } else {
        r := Err(found.error);
      }
    }
  }
}

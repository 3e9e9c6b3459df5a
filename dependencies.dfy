/**
 * The dependency extractor of the code editor: the name-to-version map of
 * the libraries the editor's tooling (type acquisition, completion) should
 * know about, read from the sandbox's root `package.json` when there is one.
 */
module DependencyExtractor {
  import opened Wrappers
  import opened Workspace

  const ManifestTitle := "package.json"
  const TypesPrefix := "@types"

  /** The shape the extractor destructures out of a parsed manifest. */
  datatype Manifest = Manifest(dependencies: Option<DepMap>, devDependencies: Option<DepMap>)

  /** What `JSON.parse` yields: a manifest, or an exception (caught by the extractor). */
  datatype Parsed = ParseError | Parsed(manifest: Manifest)

  /** The parser the extractor calls; it stands for `JSON.parse`, whose internals are not modelled. */
  type Parser = string -> Parsed

  /** `JSON.parse('')` throws; a parser faithful to it rejects the empty text. */
  predicate RejectsEmpty(parse: Parser) {
    parse("") == ParseError
  }

  /** The root manifest: titled `package.json` and in no directory. */
  predicate IsRootManifest(m: Module) {
    m.title == ManifestTitle && m.directoryShortid.None?
  }

  /** `key.startsWith('@types')`: no slash is required after the prefix. */
  predicate IsTypesPackage(key: string) {
    TypesPrefix <= key
  }

  /** The text handed to the parser: `code || ''`. */
  function ManifestText(m: Module): string {
    m.code.GetOr("")
  }

  /**
   * `modules.find(...)`: the index of the first root manifest, if any.
   */
  function FindRootManifest(ms: seq<Module>): (r: Option<nat>)
    ensures r.Some? ==> r.value < |ms| && IsRootManifest(ms[r.value])
    ensures r.Some? ==> forall j :: 0 <= j < r.value ==> !IsRootManifest(ms[j])
    ensures r.None? <==> forall j :: 0 <= j < |ms| ==> !IsRootManifest(ms[j])
  {
    if |ms| == 0 then None
    else if IsRootManifest(ms[0]) then Some(0)
    else match FindRootManifest(ms[1..])
      case Some(i) => Some(i + 1)
      case None => None
  }

  /** The development dependencies that the extractor keeps: those whose key has the types prefix. */
  function TypesDevDependencies(dev: DepMap): DepMap {
    map d | d in dev && IsTypesPackage(d) :: dev[d]
  }

  /** `{ ...dependencies, ...usedDevDependencies }` for a successfully parsed manifest. */
  function ManifestDependencies(m: Manifest): DepMap {
    m.dependencies.GetOr(map[]) + TypesDevDependencies(m.devDependencies.GetOr(map[]))
  }

  /**
   * What `getDependencies(sandbox)` returns; `None` is its `null`.
   */
  function Dependencies(s: Sandbox, parse: Parser): (r: Option<DepMap>)
    ensures var found := FindRootManifest(s.modules);
      r.None? <==> found.Some? && parse(ManifestText(s.modules[found.value])).ParseError?
  {
    match FindRootManifest(s.modules)
    case Some(i) =>
      (match parse(ManifestText(s.modules[i]))
       case ParseError => None
       case Parsed(m) => Some(ManifestDependencies(m)))
    case None => Some(s.npmDependencies.ToPlain())
  }

  /**
   * The `forEach` over the keys of `devDependencies` that fills
   * `usedDevDependencies`. Keys are visited in an unspecified order; the
   * result does not depend on it.
   */
  method CollectUsedDevDependencies(dev: DepMap) returns (used: DepMap)
    ensures used == TypesDevDependencies(dev)
  {
    used := map[];
    var pending := dev.Keys;
    while pending != {}
      invariant pending <= dev.Keys
      invariant forall d :: d in used <==> d in dev && d !in pending && IsTypesPackage(d)
      invariant forall d :: d in used ==> used[d] == dev[d]
      decreases pending
    {
      var d :| d in pending;
      if IsTypesPackage(d) {
        used := used[d := dev[d]];
      }
      pending := pending - {d};
    }
  }

  /**
   * `getDependencies`: find the root manifest; parse it and merge, or give
   * `None` when parsing throws; with no manifest, the sandbox's own record.
   */
  method GetDependencies(s: Sandbox, parse: Parser) returns (r: Option<DepMap>)
    ensures r == Dependencies(s, parse)
  {
    var found := FindRootManifest(s.modules);
    if found.Some? {
      var parsed := parse(ManifestText(s.modules[found.value]));
      if parsed.ParseError? {
        // The source reports the exception to the console here.
        r := None;
      } else {
        var dependencies := parsed.manifest.dependencies.GetOr(map[]);
        var devDependencies := parsed.manifest.devDependencies.GetOr(map[]);
        var used := CollectUsedDevDependencies(devDependencies);
        r := Some(dependencies + used);
      }
    } else {
      r := Some(s.npmDependencies.ToPlain());
    }
  }

  // ---------------------------------------------------------------------
  // Properties of the extractor
  // ---------------------------------------------------------------------

  /**
   * With a root manifest that parses, the result holds every regular
   * dependency and every types-prefixed development dependency and nothing
   * else; a types-prefixed development entry wins on a shared key.
   */
  lemma ParsedManifestOverlay(s: Sandbox, parse: Parser, i: nat, m: Manifest)
    requires FindRootManifest(s.modules) == Some(i)
    requires parse(ManifestText(s.modules[i])) == Parsed(m)
    ensures Dependencies(s, parse).Some?
    ensures var r, deps, dev := Dependencies(s, parse).value, m.dependencies.GetOr(map[]), m.devDependencies.GetOr(map[]);
      && (forall k :: k in r <==> k in deps || (k in dev && IsTypesPackage(k)))
      && (forall k :: k in dev && IsTypesPackage(k) ==> r[k] == dev[k])
      && (forall k :: k in deps && !(k in dev && IsTypesPackage(k)) ==> r[k] == deps[k])
  {
  }

  /**
   * A development dependency without the types prefix is in the result only
   * when it is also a regular dependency, and then with that value.
   */
  lemma OtherDevDependenciesDropped(s: Sandbox, parse: Parser, i: nat, m: Manifest, k: string)
    requires FindRootManifest(s.modules) == Some(i)
    requires parse(ManifestText(s.modules[i])) == Parsed(m)
    requires m.devDependencies.Some? && k in m.devDependencies.value && !IsTypesPackage(k)
    ensures Dependencies(s, parse).Some?
    ensures var r, deps := Dependencies(s, parse).value, m.dependencies.GetOr(map[]);
      && (k in r <==> k in deps)
      && (k in r ==> r[k] == deps[k])
  {
  }

  /** A root manifest whose text does not parse gives `None`. */
  lemma ParseErrorGivesNone(s: Sandbox, parse: Parser, i: nat)
    requires FindRootManifest(s.modules) == Some(i)
    requires parse(ManifestText(s.modules[i])) == ParseError
    ensures Dependencies(s, parse) == None
  {
  }

  /**
   * A root manifest with no code or empty code gives `None`, because
   * `JSON.parse('')` throws.
   */
  lemma EmptyManifestGivesNone(s: Sandbox, parse: Parser, i: nat)
    requires RejectsEmpty(parse)
    requires FindRootManifest(s.modules) == Some(i)
    requires s.modules[i].code == None || s.modules[i].code == Some("")
    ensures Dependencies(s, parse) == None
  {
  }

  /** With no root manifest, the result is the sandbox's own record of its dependencies, made plain. */
  lemma NoManifestFallsBack(s: Sandbox, parse: Parser)
    requires forall j :: 0 <= j < |s.modules| ==> !IsRootManifest(s.modules[j])
    ensures Dependencies(s, parse) == Some(s.npmDependencies.entries)
  {
  }

  /** The first root manifest is found again when more modules follow it. */
  lemma {:induction false} FindRootManifestAppend(ms: seq<Module>, rest: seq<Module>)
    requires FindRootManifest(ms).Some?
    ensures FindRootManifest(ms + rest) == FindRootManifest(ms)
  {
    assert (ms + rest)[0] == ms[0];
    if !IsRootManifest(ms[0]) {
      assert (ms + rest)[1..] == ms[1..] + rest;
      FindRootManifestAppend(ms[1..], rest);
    }
  }

  /** Only the first root manifest is consulted: any modules after it do not matter. */
  lemma LaterModulesIgnored(s: Sandbox, parse: Parser, rest: seq<Module>)
    requires FindRootManifest(s.modules).Some?
    ensures Dependencies(s.(modules := s.modules + rest), parse) == Dependencies(s, parse)
  {
    var i := FindRootManifest(s.modules).value;
    FindRootManifestAppend(s.modules, rest);
    assert (s.modules + rest)[i] == s.modules[i];
  }

  /** A module that is not a root manifest does not move the search to a different manifest. */
  lemma {:induction false} FindRootManifestInsert(ms: seq<Module>, j: nat, m: Module)
    requires j <= |ms| && !IsRootManifest(m)
    ensures var ms' := ms[..j] + [m] + ms[j..];
      match FindRootManifest(ms)
      case None => FindRootManifest(ms') == None
      case Some(i) => FindRootManifest(ms') == Some(if i < j then i else i + 1)
  {
    var ms' := ms[..j] + [m] + ms[j..];
    if j == 0 {
      assert ms'[0] == m && ms'[1..] == ms;
    } else {
      assert ms'[0] == ms[0];
      if !IsRootManifest(ms[0]) {
        assert ms'[1..] == ms[1..][..j - 1] + [m] + ms[1..][j - 1..];
        FindRootManifestInsert(ms[1..], j - 1, m);
      }
    }
  }

  /**
   * A `package.json` inside a subdirectory (or any other module that is not
   * a root manifest), wherever it sits in the module list, changes nothing.
   */
  lemma NonRootManifestIgnored(s: Sandbox, parse: Parser, j: nat, m: Module)
    requires j <= |s.modules| && !IsRootManifest(m)
    ensures Dependencies(s.(modules := s.modules[..j] + [m] + s.modules[j..]), parse) == Dependencies(s, parse)
  {
    var ms' := s.modules[..j] + [m] + s.modules[j..];
    FindRootManifestInsert(s.modules, j, m);
    match FindRootManifest(s.modules)
    case None =>
    case Some(i) =>
      if i < j {
        assert ms'[i] == s.modules[i];
      } else {
        assert ms'[i + 1] == s.modules[i];
      }
  }

  /**
   * The prefix test is `startsWith('@types')`: a development dependency such
   * as `@typescript-eslint/parser` is kept along with `@types/...` ones.
   */
  lemma TypesPrefixWithoutSlash()
    ensures IsTypesPackage("@typescript-eslint/parser")
    ensures IsTypesPackage("@types/node")
    ensures !IsTypesPackage("jest")
    ensures !IsTypesPackage("@type")
  {
  }

  /**
   * A worked manifest: `lodash` as a dependency, `@types/lodash` and `jest`
   * as development dependencies; `jest` is left out.
   */
  lemma LodashManifest(s: Sandbox, parse: Parser, i: nat)
    requires FindRootManifest(s.modules) == Some(i)
    requires parse(ManifestText(s.modules[i])) == Parsed(Manifest(
      Some(map["lodash" := "^4.0.0"]),
      Some(map["@types/lodash" := "^4.0.0", "jest" := "^24.0.0"])))
    ensures Dependencies(s, parse) == Some(map["lodash" := "^4.0.0", "@types/lodash" := "^4.0.0"])
  {
    var dev := map["@types/lodash" := "^4.0.0", "jest" := "^24.0.0"];
    assert IsTypesPackage("@types/lodash");
    assert !IsTypesPackage("jest");
    assert TypesDevDependencies(dev).Keys == {"@types/lodash"};
    assert TypesDevDependencies(dev) == map["@types/lodash" := "^4.0.0"];
    var m := Manifest(Some(map["lodash" := "^4.0.0"]), Some(dev));
    assert Dependencies(s, parse) == Some(ManifestDependencies(m));
    assert map["lodash" := "^4.0.0"] + map["@types/lodash" := "^4.0.0"]
        == map["lodash" := "^4.0.0", "@types/lodash" := "^4.0.0"];
  }
}

/** The transpiler's driver: classifies every file the watcher reports, keeps one
    transformer (or plain asset) per path, and on a change either re-runs the
    file's transformer or copies the file. */
module Transpile {
  import opened Options
  import opened Text
  import opened Paths
  import opened Syntax
  import Asset
  import opened Css
  import opened Ordinary
  import opened App

  // ---------------------------------------------------------------------------
  // Classification
  // ---------------------------------------------------------------------------

  datatype FileType = AppFile | OrdinaryJavaScriptFile | CssFile | StaticFile

  /** `isTransformable(type)`. */
  predicate IsTransformable(kind: FileType)
  {
    kind != StaticFile
  }

  /** `/\.(s?css|less)$/`. */
  predicate IsStyleSheetName(s: string)
  {
    EndsWith(s, ".css") || EndsWith(s, ".scss") || EndsWith(s, ".less")
  }

  /** `distinguishFileType(sourceFilePath)`: the first rule that applies, in
      order: the app entry itself, `.js`, a style sheet, anything else. */
  function DistinguishFileType(appJSPath: Path, p: Path): (kind: FileType)
    ensures kind == AppFile <==> p == appJSPath
    ensures IsTransformable(kind) <==>
      p == appJSPath || EndsWith(Render(p), ".js") || IsStyleSheetName(Render(p))
  {
    if p == appJSPath then AppFile
    else if EndsWith(Render(p), ".js") then OrdinaryJavaScriptFile
    else if IsStyleSheetName(Render(p)) then CssFile
    else StaticFile
  }

  /** The printed path ends with its last segment, after a separator. */
  lemma {:induction false} RenderEndsWithName(dir: Path, name: Segment)
    ensures EndsWith(Render(dir + [name]), "/" + name)
    decreases |dir|
  {
    var r := RenderSegments(dir + [name]);
    if dir == [] {
      assert [name][1..] == [];
      assert r == "/" + name + RenderSegments([]);
      assert r == "/" + name;
    } else {
      RenderEndsWithName(dir[1..], name);
      assert (dir + [name])[1..] == dir[1..] + [name];
      var head := "/" + dir[0];
      var rest := RenderSegments(dir[1..] + [name]);
      assert r == head + rest;
      assert r[|r| - |name| - 1..] == rest[|rest| - |name| - 1..];
    }
  }

  /** A suffix without a separator is a suffix of the printed path exactly when
      it is a suffix of the file name. */
  lemma SuffixOfName(dir: Path, name: Segment, ext: string)
    requires '/' !in ext
    ensures EndsWith(Render(dir + [name]), ext) <==> EndsWith(name, ext)
  {
    RenderEndsWithName(dir, name);
    var r := Render(dir + [name]);
    var tail := "/" + name;
    assert r[|r| - |tail|..] == tail;
    if |ext| <= |name| {
      assert r[|r| - |ext|..] == tail[|tail| - |ext|..];
      assert tail[|tail| - |ext|..] == name[|name| - |ext|..];
    } else if |ext| <= |r| {
      var k := |ext| - |name| - 1;
      assert r[|r| - |ext|..][k] == r[|r| - |tail|] == tail[0] == '/';
      assert ext[k] != '/';
    }
  }

  /** A file other than the app entry is classified by the end of its name:
      `.js` is ordinary JavaScript (so `.jsx` and `.ts` are not), `.css`, `.scss`
      and `.less` are style sheets, the rest is static. */
  lemma ClassifiedByName(appJSPath: Path, dir: Path, name: Segment)
    requires dir + [name] != appJSPath
    ensures var kind := DistinguishFileType(appJSPath, dir + [name]);
      (kind == OrdinaryJavaScriptFile <==> EndsWith(name, ".js")) &&
      (kind == CssFile <==> !EndsWith(name, ".js") && IsStyleSheetName(name)) &&
      (kind == StaticFile <==> !EndsWith(name, ".js") && !IsStyleSheetName(name))
  {
    SuffixOfName(dir, name, ".js");
    SuffixOfName(dir, name, ".css");
    SuffixOfName(dir, name, ".scss");
    SuffixOfName(dir, name, ".less");
  }

  /** The app entry is never ordinary JavaScript, although its name ends in `.js`. */
  lemma AppEntryIsNeverOrdinary(srcDirPath: Path)
    ensures DistinguishFileType(srcDirPath + ["app.js"], srcDirPath + ["app.js"]) == AppFile
    ensures EndsWith(Render(srcDirPath + ["app.js"]), ".js")
  {
    SuffixOfName(srcDirPath, "app.js", ".js");
  }

  /** Names close to a handled kind that are nevertheless static: `.jsx` and
      `.ts` are not `.js`, `.sass` is not a style sheet the pattern accepts. */
  lemma LookalikesAreStatic(appJSPath: Path, dir: Path, name: Segment)
    requires name == "a.jsx" || name == "a.ts" || name == "a.sass" || name == "a.json" || name == "a.png"
    requires dir + [name] != appJSPath
    ensures DistinguishFileType(appJSPath, dir + [name]) == StaticFile
  {
    ClassifiedByName(appJSPath, dir, name);
  }

  // ---------------------------------------------------------------------------
  // The stored instances
  // ---------------------------------------------------------------------------

  /** A value of `assetsMap`: one of the three transformers. */
  datatype Transformer =
    | AppInstance(app: AppTransformer)
    | OrdinaryInstance(ordinary: OrdinaryJavaScript)
    | CssInstance(css: CssTransformer)

  /** A value of `allAssets`. */
  datatype AnyAsset = TransformerAsset(transformer: Transformer) | StaticAsset(asset: Asset.Asset)

  /** The file identity a transformer inherits from `Asset`. */
  function AssetOf(t: Transformer): Asset.Asset
  {
    match t
    case AppInstance(a) => a.js.asset
    case OrdinaryInstance(o) => o.js.asset
    case CssInstance(c) => c.asset
  }

  /** The objects a transformer's state lives in. */
  ghost function Footprint(t: Transformer): set<object>
  {
    match t
    case AppInstance(a) => {a, a.js, a.js.asset}
    case OrdinaryInstance(o) => {o, o.js, o.js.asset}
    case CssInstance(c) => {c, c.asset}
  }

  ghost predicate InstanceValid(t: Transformer)
    reads Footprint(t)
  {
    match t
    case AppInstance(a) => a.Valid()
    case OrdinaryInstance(o) => o.Valid()
    case CssInstance(_) => true
  }

  /** Which transformer a file type gets. */
  predicate Matches(t: Transformer, kind: FileType)
  {
    match kind
    case AppFile => t.AppInstance?
    case OrdinaryJavaScriptFile => t.OrdinaryInstance?
    case CssFile => t.CssInstance?
    case StaticFile => false
  }

  /** Every transformer's objects are in `repr`, and no two transformers share
      one. */
  ghost predicate Separate(m: map<Path, Transformer>, repr: set<object>)
  {
    (forall p :: p in m ==> Footprint(m[p]) <= repr) &&
    (forall p, q :: p in m && q in m && p != q ==> Footprint(m[p]) !! Footprint(m[q]))
  }

  /** Storing a transformer made of new objects keeps the transformers apart. */
  lemma SeparateAfterStore(m: map<Path, Transformer>, repr: set<object>, p: Path, t: Transformer)
    requires Separate(m, repr) && Footprint(t) !! repr
    ensures Separate(m[p := t], repr + Footprint(t))
  {
    var m' := m[p := t];
    forall q, r | q in m' && r in m' && q != r
      ensures Footprint(m'[q]) !! Footprint(m'[r])
    {
      if q != p && r != p {
        assert m'[q] == m[q] && m'[r] == m[r];
      } else if q == p {
        assert Footprint(m[r]) <= repr;
      } else {
        assert Footprint(m[q]) <= repr;
      }
    }
  }

  /** What `onFileChange` did: the dispatch threw (nothing stored for the path,
      or a stored plain asset has no `transform`), a copy, or a transform that
      completed (`ok`) or threw inside (`!ok`). */
  datatype ChangeOutcome = Threw | Copied(effect: Asset.FileEffect) | Transformed(ok: bool)

  class Transpile {
    const cwd: Path
    const srcRootDir: Path
    /** Relative to `srcRootDir`. */
    const sourceDirName: seq<Segment>
    const intermediateRootDir: Path
    /** Relative to `intermediateRootDir`. */
    const intermediateDirName: seq<Segment>
    const appJSPath: Path
    var staticAssetsMap: map<Path, Asset.Asset>
    var assetsMap: map<Path, Transformer>

    /** `srcDirPath`: `path.resolve(srcRootDir, sourceDirName)`. */
    function SrcDirPath(): (r: Path)
      ensures IsNormal(sourceDirName) ==> r == srcRootDir + sourceDirName
    {
      if IsNormal(sourceDirName) then
        ResolveAppends(srcRootDir, sourceDirName);
        Resolve(srcRootDir, sourceDirName)
      else
        Resolve(srcRootDir, sourceDirName)
    }

    /** `destDirPath`: `path.resolve(intermediateRootDir, intermediateDirName)`. */
    function DestDirPath(): (r: Path)
      ensures IsNormal(intermediateDirName) ==> r == intermediateRootDir + intermediateDirName
    {
      if IsNormal(intermediateDirName) then
        ResolveAppends(intermediateRootDir, intermediateDirName);
        Resolve(intermediateRootDir, intermediateDirName)
      else
        Resolve(intermediateRootDir, intermediateDirName)
    }

    /** Where a source file lands. */
    function DestinationOf(p: Path): (r: Path)
      ensures forall rel :: p == SrcDirPath() + rel && IsNormal(rel) ==> r == DestDirPath() + rel
    {
      var src := SrcDirPath();
      if |src| <= |p| && p[..|src|] == src && IsNormal(p[|src|..]) then
        assert p == src + p[|src|..];
        ReRootNested(src, DestDirPath(), p[|src|..]);
        Resolve(DestDirPath(), Relative(src, p))
      else
        Resolve(DestDirPath(), Relative(src, p))
    }

    /** The objects of the stored transformers. */
    ghost var Repr: set<object>

    /** `t` is what `onAddFile` stores under `p`: the transformer its file type
        calls for, made for `p`. */
    predicate Stored(p: Path, t: Transformer)
    {
      Matches(t, DistinguishFileType(appJSPath, p)) &&
      AssetOf(t).sourceFilePath == p && AssetOf(t).destinationFilePath == DestinationOf(p)
    }

    predicate StoredStatic(p: Path, a: Asset.Asset)
    {
      DistinguishFileType(appJSPath, p) == StaticFile &&
      a.sourceFilePath == p && a.destinationFilePath == DestinationOf(p)
    }

    predicate AllStored(m: map<Path, Transformer>)
    {
      forall p :: p in m ==> Stored(p, m[p])
    }

    predicate AllStoredStatic(m: map<Path, Asset.Asset>)
    {
      forall p :: p in m ==> StoredStatic(p, m[p])
    }

    ghost predicate InstancesValid()
      reads this, Repr
    {
      forall p :: p in assetsMap && Footprint(assetsMap[p]) <= Repr ==> InstanceValid(assetsMap[p])
    }

    /** Each stored instance was made for its key, by the rule for its file type;
        the transformers share no state. */
    ghost predicate Valid()
      reads this, Repr
    {
      this !in Repr && Separate(assetsMap, Repr) &&
      AllStored(assetsMap) && AllStoredStatic(staticAssetsMap) && InstancesValid()
    }

    constructor (cwd: Path, srcRootDir: Path, sourceDirName: seq<Segment>,
                 intermediateRootDir: Path, intermediateDirName: seq<Segment>)
      ensures this.cwd == cwd && this.srcRootDir == srcRootDir && this.sourceDirName == sourceDirName
      ensures this.intermediateRootDir == intermediateRootDir && this.intermediateDirName == intermediateDirName
      ensures appJSPath == SrcDirPath() + ["app.js"]
      ensures staticAssetsMap == map[] && assetsMap == map[]
      ensures Valid()
    {
      this.cwd := cwd;
      this.srcRootDir := srcRootDir;
      this.sourceDirName := sourceDirName;
      this.intermediateRootDir := intermediateRootDir;
      this.intermediateDirName := intermediateDirName;
      appJSPath := Resolve(Resolve(srcRootDir, sourceDirName), ["app.js"]);
      staticAssetsMap := map[];
      assetsMap := map[];
      Repr := {};
      ResolveAppends(Resolve(srcRootDir, sourceDirName), ["app.js"]);
    }

    /** `allAssets`: both maps spread into one; a static entry wins. */
    function AllAssets(): (r: map<Path, AnyAsset>)
      reads this
      ensures r.Keys == assetsMap.Keys + staticAssetsMap.Keys
      ensures forall p :: p in staticAssetsMap ==> r[p] == StaticAsset(staticAssetsMap[p])
      ensures forall p :: p in assetsMap && p !in staticAssetsMap ==> r[p] == TransformerAsset(assetsMap[p])
    {
      (map p | p in assetsMap :: TransformerAsset(assetsMap[p])) +
      (map p | p in staticAssetsMap :: StaticAsset(staticAssetsMap[p]))
    }

    /** `allAssets[filePath]`; `None` stands for `undefined`. */
    function AssetAt(p: Path): (r: Option<AnyAsset>)
      reads this
      ensures r.Some? <==> p in assetsMap || p in staticAssetsMap
      ensures p in staticAssetsMap ==> r == Some(StaticAsset(staticAssetsMap[p]))
    {
      if p in staticAssetsMap then Some(StaticAsset(staticAssetsMap[p]))
      else if p in assetsMap then Some(TransformerAsset(assetsMap[p]))
      else None
    }

    /** The lookup agrees with the spread of the two maps. */
    lemma AssetAtIsAllAssets(p: Path)
      ensures AssetAt(p).Some? <==> p in AllAssets()
      ensures AssetAt(p).Some? ==> AssetAt(p).value == AllAssets()[p]
    {
    }

    /** A path is stored in at most one of the two maps, so neither entry hides
        the other in `allAssets`. */
    lemma MapsAreDisjoint()
      requires Valid()
      ensures assetsMap.Keys !! staticAssetsMap.Keys
      ensures forall p :: p in assetsMap ==> AllAssets()[p] == TransformerAsset(assetsMap[p])
    {
      forall p | p in assetsMap
        ensures p !in staticAssetsMap
      {
        assert Stored(p, assetsMap[p]);
      }
    }

    /** `onAddFile(filePath)`: a fresh instance of the kind the path calls for,
        stored under the path in the map for that kind; an earlier instance for
        the same path is replaced, every other entry stays. */
    method OnAddFile(p: Path)
      requires Valid()
      modifies this
      ensures Repr >= old(Repr)
      ensures Valid()
      ensures var kind := DistinguishFileType(appJSPath, p);
        if kind == StaticFile then
          assetsMap == old(assetsMap) &&
          p in staticAssetsMap && fresh(staticAssetsMap[p]) &&
          staticAssetsMap == old(staticAssetsMap)[p := staticAssetsMap[p]]
        else
          staticAssetsMap == old(staticAssetsMap) &&
          p in assetsMap && fresh(Footprint(assetsMap[p])) && Matches(assetsMap[p], kind) &&
          assetsMap == old(assetsMap)[p := assetsMap[p]]
    {
      var kind := DistinguishFileType(appJSPath, p);
      if kind == StaticFile {
        var asset := new Asset.Asset(p, SrcDirPath(), DestDirPath());
        staticAssetsMap := staticAssetsMap[p := asset];
      } else {
        var t := NewTransformer(p, kind);
        Store(p, t);
      }
    }

    /** The `new AppTransformer(filePath, this)`, `new OrdinaryJavaScript(…)` and
        `new CSSTransformer(…)` arms of `onAddFile`. */
    method NewTransformer(p: Path, kind: FileType) returns (t: Transformer)
      requires IsTransformable(kind)
      ensures Matches(t, kind) && fresh(Footprint(t)) && InstanceValid(t)
      ensures AssetOf(t).sourceFilePath == p && AssetOf(t).destinationFilePath == DestinationOf(p)
    {
      match kind
      case AppFile =>
        var app := new AppTransformer(p, SrcDirPath(), DestDirPath());
        t := AppInstance(app);
      case OrdinaryJavaScriptFile =>
        var ordinary := new OrdinaryJavaScript(p, SrcDirPath(), DestDirPath());
        t := OrdinaryInstance(ordinary);
      case CssFile =>
        var css := new CssTransformer(p, SrcDirPath(), DestDirPath());
        t := CssInstance(css);
    }

    /** `this.assetsMap[filePath] = instance` for a newly made instance. */
    method Store(p: Path, t: Transformer)
      requires Valid()
      requires Stored(p, t) && InstanceValid(t)
      requires Footprint(t) !! Repr && this !in Footprint(t)
      modifies this
      ensures Valid() && Repr == old(Repr) + Footprint(t)
      ensures assetsMap == old(assetsMap)[p := t] && staticAssetsMap == old(staticAssetsMap)
    {
      ghost var before := assetsMap;
      SeparateAfterStore(assetsMap, Repr, p, t);
      assetsMap := assetsMap[p := t];
      Repr := Repr + Footprint(t);
      forall q | q in assetsMap
        ensures Stored(q, assetsMap[q])
        ensures Footprint(assetsMap[q]) <= Repr ==> InstanceValid(assetsMap[q])
      {
        if q != p {
          assert assetsMap[q] == before[q] && Footprint(before[q]) <= old(Repr);
        }
      }
    }

    /** `transform()` on one transformer, with the file's text, the Babel parser
        and printer, and the truthiness of `selfClosing`. */
    static method TransformInstance(t: Transformer, text: string, parser: string -> Option<Program>,
                                    printer: Program -> string, selfClosingTruthy: bool) returns (ok: bool)
      requires InstanceValid(t)
      modifies Footprint(t)
      ensures InstanceValid(t)
      ensures t.CssInstance? ==> ok && t.css.asset.content == Some(RpxToRem(text))
      ensures t.AppInstance? ==> t.app.TransformedFrom(text, parser, printer, ok)
      ensures t.OrdinaryInstance? ==> t.ordinary.TransformedFrom(text, parser, printer, selfClosingTruthy, ok)
    {
      match t
      case AppInstance(app) =>
        ok := app.Transform(text, parser, printer);
      case OrdinaryInstance(ordinary) =>
        ok := ordinary.Transform(text, parser, printer, selfClosingTruthy);
      case CssInstance(css) =>
        css.Transform(text);
        ok := true;
    }

    /** `transform()` on the transformer stored under `p`, with the file's text,
        the Babel parser and printer, and the truthiness of `selfClosing`. The
        other stored transformers are untouched. */
    method TransformStored(p: Path, text: string, parser: string -> Option<Program>,
                           printer: Program -> string, selfClosingTruthy: bool) returns (ok: bool)
      requires Valid() && p in assetsMap
      modifies Footprint(assetsMap[p])
      ensures Valid()
      ensures assetsMap[p].CssInstance? ==> ok && assetsMap[p].css.asset.content == Some(RpxToRem(text))
      ensures assetsMap[p].AppInstance? ==> assetsMap[p].app.TransformedFrom(text, parser, printer, ok)
      ensures assetsMap[p].OrdinaryInstance? ==>
        assetsMap[p].ordinary.TransformedFrom(text, parser, printer, selfClosingTruthy, ok)
    {
      var t := assetsMap[p];
      ok := TransformInstance(t, text, parser, printer, selfClosingTruthy);
      forall q | q in assetsMap && q != p
        ensures InstanceValid(assetsMap[q])
      {
        assert Footprint(assetsMap[q]) !! Footprint(t);
      }
    }

    /** `onFileChange(filePath)`: a transformable path re-runs its transformer, any
        other path is copied. Nothing is stored for a path the watcher never
        reported as added: the call on `undefined` throws. */
    method OnFileChange(p: Path, text: string, parser: string -> Option<Program>,
                        printer: Program -> string, selfClosingTruthy: bool) returns (outcome: ChangeOutcome)
      requires Valid()
      modifies if p in assetsMap then Footprint(assetsMap[p]) else {}
      ensures Valid() && Repr == old(Repr)
      ensures assetsMap == old(assetsMap) && staticAssetsMap == old(staticAssetsMap)
      ensures outcome == Threw <==> p !in assetsMap && p !in staticAssetsMap
      ensures IsTransformable(DistinguishFileType(appJSPath, p)) && outcome != Threw ==>
        outcome.Transformed? && p in assetsMap
      ensures !IsTransformable(DistinguishFileType(appJSPath, p)) && outcome != Threw ==>
        outcome == Copied(Asset.CopyFile(p, DestinationOf(p)))
      ensures outcome.Transformed? && assetsMap[p].CssInstance? ==>
        outcome.ok && assetsMap[p].css.asset.content == Some(RpxToRem(text))
      ensures outcome.Transformed? && assetsMap[p].AppInstance? ==>
        assetsMap[p].app.TransformedFrom(text, parser, printer, outcome.ok)
      ensures outcome.Transformed? && assetsMap[p].OrdinaryInstance? ==>
        assetsMap[p].ordinary.TransformedFrom(text, parser, printer, selfClosingTruthy, outcome.ok)
    {
      var kind := DistinguishFileType(appJSPath, p);
      var stored := AssetAt(p);
      if stored.None? {
        return Threw;
      }
      if IsTransformable(kind) {
        if stored.value.TransformerAsset? {
          var ok := TransformStored(p, text, parser, printer, selfClosingTruthy);
          outcome := Transformed(ok);
        } else {
          outcome := Threw;
        }
      } else {
        var asset := match stored.value {
          case StaticAsset(a) => a
          case TransformerAsset(t) => AssetOf(t)
        };
        var effect := asset.Copy();
        outcome := Copied(effect);
      }
    }
  }
}

/** The transformer for every script other than the app entry: renames
    mini-program tags, turns local `src="…assets…"` attributes into `require`
    calls, and prepends imports for the components a file uses. */
module Ordinary {
  import opened Options
  import opened Text
  import opened Paths
  import opened Syntax
  import opened ComponentsNameMap
  import opened JavaScript

  const ExternalPrefix: string := "schnee-ui/components/X"
  const InternalPrefix: string := "@internalComponents/"

  // ---------------------------------------------------------------------------
  // The discovered-name list and its two filters
  // ---------------------------------------------------------------------------

  /** `addComponentName(name)`: the name is pushed only when the list already
      holds it. */
  function AddName(list: seq<string>, name: string): (r: seq<string>)
    ensures forall x :: x in r <==> x in list
    ensures name in list ==> r == list + [name]
    ensures name !in list ==> r == list
  {
    if name in list then list + [name] else list
  }

  /** `addComponentName` applied to each name of `names` in turn. */
  function AddNames(list: seq<string>, names: seq<string>): seq<string>
    decreases |names|
  {
    if names == [] then list
    else AddName(AddNames(list, names[..|names| - 1]), names[|names| - 1])
  }

  /** The list never gains a name it did not already hold; in particular the
      list, which starts empty, stays empty. */
  lemma {:induction false} AddNamesAddsNothingNew(list: seq<string>, names: seq<string>)
    ensures forall x :: x in AddNames(list, names) <==> x in list
    ensures list == [] ==> AddNames(list, names) == []
    decreases |names|
  {
    if names != [] {
      AddNamesAddsNothingNew(list, names[..|names| - 1]);
    }
  }

  /** `list.filter(name => !!table[name])`. */
  function FilterIn(names: seq<string>, table: map<string, string>): (r: seq<string>)
    ensures |r| <= |names|
    ensures forall x :: x in r <==> x in names && x in table
    decreases |names|
  {
    if names == [] then []
    else (if names[0] in table then [names[0]] else []) + FilterIn(names[1..], table)
  }

  /** The filter keeps the order of the list: filtering a concatenation is
      concatenating the filtered parts. */
  lemma {:induction false} FilterInDistributes(a: seq<string>, b: seq<string>, table: map<string, string>)
    ensures FilterIn(a + b, table) == FilterIn(a, table) + FilterIn(b, table)
    decreases |a|
  {
    if a == [] {
      assert a + b == b;
    } else {
      assert (a + b)[0] == a[0] && (a + b)[1..] == a[1..] + b;
      FilterInDistributes(a[1..], b, table);
    }
  }

  /** `externalComponentsWaitingImported`. */
  function ExternalWaiting(list: seq<string>): (r: seq<string>)
    ensures forall x :: x in r <==> x in list && x in NativeComponentsMap
  {
    FilterIn(list, NativeComponentsMap)
  }

  /** `internalComponentsWaitingImported`. */
  function InternalWaiting(list: seq<string>): (r: seq<string>)
    ensures forall x :: x in r <==> x in list && x in InternalComponentsMap
  {
    FilterIn(list, InternalComponentsMap)
  }

  /** A name waits for at most one of the two imports, since the native and
      internal tables share no key. */
  lemma WaitingListsAreDisjoint(list: seq<string>, name: string)
    ensures !(name in ExternalWaiting(list) && name in InternalWaiting(list))
  {
    NativeInternalDisjoint();
    if name in ExternalWaiting(list) {
      assert name in NativeComponentsMap.Keys;
    }
  }

  // ---------------------------------------------------------------------------
  // Prepending imports
  // ---------------------------------------------------------------------------

  /** The statements that one `unshift` per name leaves in front of the body:
      `import <name> from '<prefix><name>'`, last name first. */
  function ImportsFor(names: seq<string>, prefix: string): (r: seq<Stmt>)
    ensures |r| == |names|
    ensures forall i :: 0 <= i < |r| ==>
      r[i] == Import(names[|names| - 1 - i], prefix + names[|names| - 1 - i])
    decreases |names|
  {
    if names == [] then []
    else
      var last := names[|names| - 1];
      [Import(last, prefix + last)] + ImportsFor(names[..|names| - 1], prefix)
  }

  /** The body after `insertExternalComponents` and then
      `insertInternalComponents`: the internal imports end up first. */
  function BodyWithImports(list: seq<string>, body: seq<Stmt>): seq<Stmt>
  {
    ImportsFor(InternalWaiting(list), InternalPrefix) +
    (ImportsFor(ExternalWaiting(list), ExternalPrefix) + body)
  }

  /** With nothing waiting, the body is left as it is. */
  lemma NothingWaitingNothingImported(body: seq<Stmt>)
    ensures BodyWithImports([], body) == body
  {
    assert ImportsFor([], InternalPrefix) == [] && ImportsFor([], ExternalPrefix) == [];
  }

  /** The layout of the body after both insert steps: the internal imports come
      first, then the external ones, then the original body; each import binds a
      waiting name to its prefixed source. */
  lemma InternalImportsFirst(list: seq<string>, body: seq<Stmt>)
    ensures var r := BodyWithImports(list, body);
      var ni := |InternalWaiting(list)|;
      var ne := |ExternalWaiting(list)|;
      |r| == ni + ne + |body| &&
      (forall i :: 0 <= i < ni ==>
        r[i].Import? && r[i].local in InternalComponentsMap && r[i].source == InternalPrefix + r[i].local) &&
      (forall i :: ni <= i < ni + ne ==>
        r[i].Import? && r[i].local in NativeComponentsMap && r[i].source == ExternalPrefix + r[i].local) &&
      r[ni + ne..] == body
  {
    var r := BodyWithImports(list, body);
    var internal := ImportsFor(InternalWaiting(list), InternalPrefix);
    var external := ImportsFor(ExternalWaiting(list), ExternalPrefix);
    var ni := |internal|;
    var ne := |external|;
    forall i | 0 <= i < ni
      ensures r[i].Import? && r[i].local in InternalComponentsMap && r[i].source == InternalPrefix + r[i].local
    {
      assert r[i] == internal[i];
      assert InternalWaiting(list)[ni - 1 - i] in InternalWaiting(list);
    }
    forall i | ni <= i < ni + ne
      ensures r[i].Import? && r[i].local in NativeComponentsMap && r[i].source == ExternalPrefix + r[i].local
    {
      assert r[i] == external[i - ni];
      assert ExternalWaiting(list)[ne - 1 - (i - ni)] in ExternalWaiting(list);
    }
    assert r[ni + ne..] == body;
  }

  // ---------------------------------------------------------------------------
  // The tag rename (`replaceNodeName`)
  // ---------------------------------------------------------------------------

  /** The visitor on one opening tag. A plain identifier is replaced by its
      table entry when there is one. When `!path.get('selfClosing')` holds
      (`selfClosingTruthy` false), the closing identifier is set to the table
      entry even when there is none. */
  function RenameTag(e: JsxElement, selfClosingTruthy: bool): (r: JsxElement)
    ensures r.attrs == e.attrs && r.children == e.children
    ensures e.name.OtherName? ==> r == e
    ensures e.name.Ident? && Lookup(e.name.id).Some? ==> r.name == Ident(Lookup(e.name.id).value)
    ensures e.name.Ident? && Lookup(e.name.id).None? ==> r.name == e.name
    ensures (selfClosingTruthy || e.closing.None? || e.closing == Some(ClosingOther)) ==> r.closing == e.closing
    ensures e.name.Ident? && !selfClosingTruthy && e.closing.Some? && e.closing.value.ClosingIdent? ==>
              r.closing == Some(ClosingIdent(Lookup(e.name.id)))
  {
    match e.name
    case OtherName => e
    case Ident(n) =>
      var replaced := Lookup(n);
      var name := if replaced.Some? then Ident(replaced.value) else e.name;
      var closing :=
        if !selfClosingTruthy && e.closing.Some? && e.closing.value.ClosingIdent?
        then Some(ClosingIdent(replaced))
        else e.closing;
      e.(name := name, closing := closing)
  }

  /** Renaming a renamed tag changes nothing more: no replacement is itself a
      key of the tables. */
  lemma RenameTagIdempotent(e: JsxElement)
    ensures RenameTag(RenameTag(e, true), true) == RenameTag(e, true)
  {
    if e.name.Ident? && Lookup(e.name.id).Some? {
      ReplacementsAreNotKeys(e.name.id);
    }
  }

  /** When the closing branch runs, a second pass is not a no-op: it looks up the
      replacement, finds no entry and clears the closing name. */
  lemma RenameTagClearsClosing(e: JsxElement)
    requires e.name.Ident? && e.closing.Some? && e.closing.value.ClosingIdent?
    ensures var twice := RenameTag(RenameTag(e, false), false);
      twice.name == RenameTag(e, false).name && twice.closing == Some(ClosingIdent(None))
  {
    if Lookup(e.name.id).Some? {
      ReplacementsAreNotKeys(e.name.id);
    }
  }

  /** `<view></view>` renamed twice with the closing branch running differs from
      renamed once: the first pass closes with `div`, the second with nothing. */
  lemma RenameTagTwiceDiffers()
    ensures var e := Element(Ident("view"), [], Some(ClosingIdent(Some("view"))), []);
      RenameTag(e, false).closing == Some(ClosingIdent(Some("div"))) &&
      RenameTag(RenameTag(e, false), false).closing == Some(ClosingIdent(None))
  {
    WebEntries();
    ReplacementsAreNotKeys("view");
  }

  /** Whatever the closing branch does, the rename settles after two passes. */
  lemma RenameTagSettles(e: JsxElement, selfClosingTruthy: bool)
    ensures var twice := RenameTag(RenameTag(e, selfClosingTruthy), selfClosingTruthy);
      RenameTag(twice, selfClosingTruthy) == twice
  {
    if e.name.Ident? && Lookup(e.name.id).Some? {
      ReplacementsAreNotKeys(e.name.id);
    }
  }

  // ---------------------------------------------------------------------------
  // The asset rewrite (`replaceAssets`)
  // ---------------------------------------------------------------------------

  /** `\s` of JavaScript regular expressions. */
  predicate IsSpace(c: char)
  {
    c == ' ' || c == '\t' || c == '\n' || c == '\U{000B}' || c == '\U{000C}' || c == '\r' ||
    c == '\U{00A0}' || c == '\U{1680}' || '\U{2000}' <= c <= '\U{200A}' ||
    c == '\U{2028}' || c == '\U{2029}' || c == '\U{202F}' || c == '\U{205F}' ||
    c == '\U{3000}' || c == '\U{FEFF}'
  }

  /** `/^https?:\/\//`. */
  predicate IsRemoteUrl(s: string)
  {
    StartsWith(s, "http://") || StartsWith(s, "https://")
  }

  /** The longest prefix of `s` without white space: `[^\s]+` taken greedily. */
  function NonSpaceRun(s: string): (r: string)
    ensures |r| <= |s| && r == s[..|r|]
    ensures forall i :: 0 <= i < |r| ==> !IsSpace(r[i])
    ensures |r| < |s| ==> IsSpace(s[|r|])
    decreases |s|
  {
    if s == [] || IsSpace(s[0]) then []
    else [s[0]] + NonSpaceRun(s[1..])
  }

  /** `assets` at `i`, followed by a character other than white space: where
      `/(?:@?assets)([^\s]+)/` can match (an `@` in front changes only where the
      match starts, not the captured group). */
  predicate AssetsAt(s: string, i: nat)
  {
    i + 6 < |s| && s[i..i + 6] == "assets" && !IsSpace(s[i + 6])
  }

  /** The captured group of `/(?:@?assets)([^\s]+)/.exec(s)`, if it matches. */
  function AssetsCapture(s: string): (c: Option<string>)
    ensures c.Some? ==> |c.value| > 0 && forall i :: 0 <= i < |c.value| ==> !IsSpace(c.value[i])
    decreases |s|
  {
    if |s| < 7 then None
    else if AssetsAt(s, 0) then Some(NonSpaceRun(s[6..]))
    else AssetsCapture(s[1..])
  }

  /** The first place the pattern matches decides the group. */
  lemma {:induction false} CaptureAtFirstMatch(s: string, k: nat)
    requires AssetsAt(s, k)
    requires forall i :: 0 <= i < k ==> !AssetsAt(s, i)
    ensures AssetsCapture(s) == Some(NonSpaceRun(s[k + 6..]))
    decreases k
  {
    if k > 0 {
      assert !AssetsAt(s, 0);
      forall i | 0 <= i < k - 1 ensures !AssetsAt(s[1..], i) {
        assert !AssetsAt(s, i + 1);
        assert s[1..][i..i + 6] == s[i + 1..i + 7];
      }
      assert s[1..][k - 1..k + 5] == s[k..k + 6];
      CaptureAtFirstMatch(s[1..], k - 1);
      assert s[1..][k - 1 + 6..] == s[k + 6..];
    }
  }

  /** The pattern fails only when it can match nowhere. */
  lemma {:induction false} NoCaptureWithoutMatch(s: string)
    requires AssetsCapture(s).None?
    ensures forall i :: 0 <= i < |s| ==> !AssetsAt(s, i)
    decreases |s|
  {
    if |s| >= 7 {
      NoCaptureWithoutMatch(s[1..]);
      forall i | 1 <= i < |s| ensures !AssetsAt(s, i) {
        if i + 6 < |s| {
          assert s[1..][i - 1..i + 5] == s[i..i + 6];
          assert !AssetsAt(s[1..], i - 1);
        }
      }
    }
  }

  /** The `shouldReplaceAssets` test: a `src` attribute whose value is a string
      literal, not a remote URL, in which the assets pattern matches. */
  predicate ShouldReplaceAssets(a: JsxAttr)
  {
    a.Attribute? && a.name == Ident("src") && a.value.StringLiteral? &&
    !IsRemoteUrl(a.value.value) && AssetsCapture(a.value.value).Some?
  }

  /** The path the rewritten attribute requires. */
  function AssetPath(v: string): (r: string)
    requires AssetsCapture(v).Some?
    ensures StartsWith(r, "@assets") && !IsRemoteUrl(r)
  {
    "@assets" + AssetsCapture(v).value
  }

  /** A relative path up to an `assets` directory keeps what follows it:
      `../assets/a.png` requires `@assets/a.png`. */
  lemma AssetPathUnderAssets(up: string, rest: string)
    requires forall i :: 0 <= i < |up| ==> up[i] != 'a'
    requires |rest| > 0 && forall i :: 0 <= i < |rest| ==> !IsSpace(rest[i])
    ensures AssetsCapture(up + "assets" + rest) == Some(rest)
    ensures AssetPath(up + "assets" + rest) == "@assets" + rest
  {
    var s := up + "assets" + rest;
    var k := |up|;
    assert s[k..k + 6] == "assets" && s[k + 6] == rest[0];
    forall i | 0 <= i < k ensures !AssetsAt(s, i) {
      assert s[i..i + 6][0] == up[i];
    }
    CaptureAtFirstMatch(s, k);
    assert s[k + 6..] == rest;
    NonSpaceRunOfNonSpace(rest);
  }

  /** The rewritten path is a fixed point of the path rewrite. */
  lemma AssetPathIdempotent(v: string)
    requires AssetsCapture(v).Some?
    ensures AssetsCapture(AssetPath(v)) == AssetsCapture(v)
    ensures AssetPath(AssetPath(v)) == AssetPath(v)
  {
    var c := AssetsCapture(v).value;
    var r := "@assets" + c;
    assert r[0..6][0] == '@';
    assert r[1..] == "assets" + c;
    assert AssetsAt(r[1..], 0);
    assert r[1..][6..] == c;
    NonSpaceRunOfNonSpace(c);
  }

  lemma {:induction false} NonSpaceRunOfNonSpace(c: string)
    requires forall i :: 0 <= i < |c| ==> !IsSpace(c[i])
    ensures NonSpaceRun(c) == c
    decreases |c|
  {
    if c != [] {
      NonSpaceRunOfNonSpace(c[1..]);
    }
  }

  /** The visitor on one attribute: a qualifying attribute becomes
      `require("@assets<group>")`; every other attribute is left alone. */
  function RewriteAttr(a: JsxAttr): (r: JsxAttr)
    ensures ShouldReplaceAssets(a) ==> r == RequireCall(AssetPath(a.value.value))
    ensures !ShouldReplaceAssets(a) ==> r == a
    ensures !ShouldReplaceAssets(r)
  {
    if ShouldReplaceAssets(a) then RequireCall(AssetPath(a.value.value)) else a
  }

  // ---------------------------------------------------------------------------
  // The traversal
  // ---------------------------------------------------------------------------

  /** One element and all its descendants, with the registered visitors applied
      to every opening tag and every attribute. */
  function RewriteElement(e: JsxElement, rename: bool, assets: bool, selfClosingTruthy: bool): (r: JsxElement)
    ensures |r.attrs| == |e.attrs| && |r.children| == |e.children|
    decreases e
  {
    var renamed := if rename then RenameTag(e, selfClosingTruthy) else e;
    Element(
      renamed.name,
      if assets then seq(|e.attrs|, i requires 0 <= i < |e.attrs| => RewriteAttr(e.attrs[i])) else e.attrs,
      renamed.closing,
      seq(|e.children|, i requires 0 <= i < |e.children| =>
        RewriteElement(e.children[i], rename, assets, selfClosingTruthy)))
  }

  function RewriteAll(es: seq<JsxElement>, rename: bool, assets: bool, selfClosingTruthy: bool): (r: seq<JsxElement>)
    ensures |r| == |es|
  {
    seq(|es|, i requires 0 <= i < |es| => RewriteElement(es[i], rename, assets, selfClosingTruthy))
  }

  /** No attribute anywhere in the element still qualifies for the asset rewrite. */
  predicate NoPendingAsset(e: JsxElement)
    decreases e
  {
    (forall i :: 0 <= i < |e.attrs| ==> !ShouldReplaceAssets(e.attrs[i])) &&
    (forall i :: 0 <= i < |e.children| ==> NoPendingAsset(e.children[i]))
  }

  /** With the asset visitor registered, no qualifying attribute survives. */
  lemma {:induction false} RewriteLeavesNoPendingAsset(e: JsxElement, rename: bool, selfClosingTruthy: bool)
    ensures NoPendingAsset(RewriteElement(e, rename, true, selfClosingTruthy))
    decreases e
  {
    var r := RewriteElement(e, rename, true, selfClosingTruthy);
    forall i | 0 <= i < |r.children|
      ensures NoPendingAsset(r.children[i])
    {
      RewriteLeavesNoPendingAsset(e.children[i], rename, selfClosingTruthy);
    }
  }

  /** The rewrite with both visitors is idempotent when the closing branch does
      not run. */
  lemma {:induction false} RewriteIdempotent(e: JsxElement)
    ensures RewriteElement(RewriteElement(e, true, true, true), true, true, true) ==
            RewriteElement(e, true, true, true)
    decreases e
  {
    var once := RewriteElement(e, true, true, true);
    var twice := RewriteElement(once, true, true, true);
    RenameTagIdempotent(e);
    assert twice.attrs == once.attrs;
    forall i | 0 <= i < |e.children|
      ensures twice.children[i] == once.children[i]
    {
      RewriteIdempotent(e.children[i]);
    }
  }

  /** With both visitors and either outcome of the closing test, the rewrite
      settles after two passes. */
  lemma {:induction false} RewriteSettles(e: JsxElement, selfClosingTruthy: bool)
    ensures var twice := RewriteElement(RewriteElement(e, true, true, selfClosingTruthy), true, true, selfClosingTruthy);
      RewriteElement(twice, true, true, selfClosingTruthy) == twice
    decreases e
  {
    var once := RewriteElement(e, true, true, selfClosingTruthy);
    var twice := RewriteElement(once, true, true, selfClosingTruthy);
    var thrice := RewriteElement(twice, true, true, selfClosingTruthy);
    RenameTagSettles(e, selfClosingTruthy);
    assert thrice.attrs == twice.attrs;
    forall i | 0 <= i < |e.children|
      ensures thrice.children[i] == twice.children[i]
    {
      RewriteSettles(e.children[i], selfClosingTruthy);
    }
  }

  /** The identifiers of the opening tags, in the order the traversal enters
      them (each element before its children). */
  function OpeningNames(e: JsxElement): seq<string>
    decreases e, 1
  {
    (if e.name.Ident? then [e.name.id] else []) + OpeningNamesAll(e.children)
  }

  function OpeningNamesAll(es: seq<JsxElement>): seq<string>
    decreases es, 0
  {
    if es == [] then [] else OpeningNames(es[0]) + OpeningNamesAll(es[1..])
  }

  /** The markup a statement holds, for the JSX visitors. */
  function RewriteStmt(s: Stmt, rename: bool, assets: bool, selfClosingTruthy: bool): (r: Stmt)
    ensures s.Import? || s.PageLoader? ==> r == s
  {
    match s
    case ClassDecl(id, superClass, body) =>
      ClassDecl(id, superClass, RewriteAll(body, rename, assets, selfClosingTruthy))
    case ExportDefault(OpaqueExpr(markup)) =>
      ExportDefault(OpaqueExpr(RewriteAll(markup, rename, assets, selfClosingTruthy)))
    case OtherStmt(markup) => OtherStmt(RewriteAll(markup, rename, assets, selfClosingTruthy))
    case _ => s
  }

  function StmtMarkup(s: Stmt): seq<JsxElement>
  {
    match s
    case ClassDecl(_, _, body) => body
    case ExportDefault(OpaqueExpr(markup)) => markup
    case OtherStmt(markup) => markup
    case _ => []
  }

  /** `traverse(ast, traverseOptions)` with the visitors the table holds. */
  function RewriteProgram(p: Program, options: TraverseOptions, selfClosingTruthy: bool): (r: Program)
    ensures |r.body| == |p.body|
  {
    var rename := Registered(options, JSXOpeningElement, ReplaceNodeName);
    var assets := Registered(options, JSXAttribute, ReplaceAssets);
    Program(seq(|p.body|, i requires 0 <= i < |p.body| => RewriteStmt(p.body[i], rename, assets, selfClosingTruthy)))
  }

  /** The names the tag visitor passes to `addComponentName`, in traversal order. */
  function VisitedNames(body: seq<Stmt>, options: TraverseOptions): seq<string>
    decreases |body|
  {
    if body == [] || !Registered(options, JSXOpeningElement, ReplaceNodeName) then []
    else OpeningNamesAll(StmtMarkup(body[0])) + VisitedNames(body[1..], options)
  }

  /** The visitors `register()` installs. */
  const OrdinaryVisitors: TraverseOptions := map[JSXAttribute := ReplaceAssets, JSXOpeningElement := ReplaceNodeName]

  class OrdinaryJavaScript {
    const js: JavaScriptTransformer
    var componentNameList: seq<string>

    /** The list stays empty: `addComponentName` pushes only names already in it. */
    predicate Valid()
      reads this
    {
      componentNameList == []
    }

    constructor (sourceFilePath: Path, srcDirPath: Path, destDirPath: Path)
      ensures fresh(js) && fresh(js.asset)
      ensures js.asset.sourceFilePath == sourceFilePath
      ensures js.asset.destinationFilePath == Resolve(destDirPath, Relative(srcDirPath, sourceFilePath))
      ensures js.asset.content == None && js.code == "" && js.sourceCode == None
      ensures js.ast == None && js.traverseOptions == map[]
      ensures Valid()
    {
      js := new JavaScriptTransformer(sourceFilePath, srcDirPath, destDirPath);
      componentNameList := [];
    }

    method AddComponentName(name: string)
      modifies this
      ensures componentNameList == AddName(old(componentNameList), name)
    {
      if name in componentNameList {
        componentNameList := componentNameList + [name];
      }
    }

    /** `register()`: the asset visitor, then the tag visitor. */
    method Register()
      modifies js
      ensures js.traverseOptions == Assign(old(js.traverseOptions), OrdinaryVisitors)
      ensures Registered(js.traverseOptions, JSXAttribute, ReplaceAssets)
      ensures Registered(js.traverseOptions, JSXOpeningElement, ReplaceNodeName)
      ensures js.ast == old(js.ast) && js.code == old(js.code) && js.sourceCode == old(js.sourceCode)
    {
      js.RegisterTraverse(map[JSXAttribute := ReplaceAssets]);
      js.RegisterTraverse(map[JSXOpeningElement := ReplaceNodeName]);
      assert js.traverseOptions == Assign(old(js.traverseOptions), OrdinaryVisitors);
    }

    /** `traverse()`: Babel returns at once on a missing tree; otherwise every
        statement's markup is rewritten, and the tag visitor reports each
        opening identifier to `addComponentName`. */
    method Traverse(selfClosingTruthy: bool)
      modifies this, js
      ensures old(js.ast).None? ==> js.ast == None && componentNameList == old(componentNameList)
      ensures old(js.ast).Some? ==>
        js.ast == Some(RewriteProgram(old(js.ast).value, js.traverseOptions, selfClosingTruthy)) &&
        componentNameList == AddNames(old(componentNameList), VisitedNames(old(js.ast).value.body, js.traverseOptions))
      ensures js.traverseOptions == old(js.traverseOptions) && js.code == old(js.code)
      ensures js.sourceCode == old(js.sourceCode)
    {
      if js.ast.None? {
        return;
      }
      var program := js.ast.value;
      ReportNames(VisitedNames(program.body, js.traverseOptions));
      js.ast := Some(RewriteProgram(program, js.traverseOptions, selfClosingTruthy));
    }

    /** The tag visitor's calls to `addComponentName`, one per visited name. */
    method ReportNames(names: seq<string>)
      modifies this
      ensures componentNameList == AddNames(old(componentNameList), names)
    {
      var i := 0;
      while i < |names|
        invariant 0 <= i <= |names|
        invariant componentNameList == AddNames(old(componentNameList), names[..i])
      {
        assert names[..i + 1][..i] == names[..i];
        AddComponentName(names[i]);
        i := i + 1;
      }
      assert names[..|names|] == names;
    }

    /** One `unshift` of `import <name> from '<prefix><name>'` per name, in list
        order. `this.program` throws a `TypeError` when there is no tree and at
        least one name: `ok` is then false and nothing changes. */
    method UnshiftImports(names: seq<string>, prefix: string) returns (ok: bool)
      modifies js
      ensures ok <==> names == [] || old(js.ast).Some?
      ensures ok && old(js.ast).Some? ==>
        js.ast == Some(Program(ImportsFor(names, prefix) + old(js.ast).value.body))
      ensures !ok || old(js.ast).None? || names == [] ==> js.ast == old(js.ast)
      ensures js.traverseOptions == old(js.traverseOptions) && js.code == old(js.code)
      ensures js.sourceCode == old(js.sourceCode)
    {
      if names == [] {
        if js.ast.Some? {
          var b := js.ast.value.body;
          assert ImportsFor(names, prefix) + b == b;
        }
        return true;
      }
      if js.ast.None? {
        return false;
      }
      var body := js.ast.value.body;
      var i := 0;
      while i < |names|
        invariant 0 <= i <= |names|
        invariant body == ImportsFor(names[..i], prefix) + old(js.ast).value.body
      {
        assert names[..i + 1][..i] == names[..i];
        body := [Import(names[i], prefix + names[i])] + body;
        i := i + 1;
      }
      assert names[..|names|] == names;
      js.ast := Some(Program(body));
      ok := true;
    }

    method InsertExternalComponents() returns (ok: bool)
      modifies js
      ensures ok <==> ExternalWaiting(componentNameList) == [] || old(js.ast).Some?
      ensures ok && old(js.ast).Some? ==>
        js.ast == Some(Program(ImportsFor(ExternalWaiting(componentNameList), ExternalPrefix) + old(js.ast).value.body))
      ensures !ok || old(js.ast).None? || ExternalWaiting(componentNameList) == [] ==> js.ast == old(js.ast)
      ensures js.traverseOptions == old(js.traverseOptions) && js.code == old(js.code)
      ensures js.sourceCode == old(js.sourceCode)
    {
      ok := UnshiftImports(ExternalWaiting(componentNameList), ExternalPrefix);
    }

    method InsertInternalComponents() returns (ok: bool)
      modifies js
      ensures ok <==> InternalWaiting(componentNameList) == [] || old(js.ast).Some?
      ensures ok && old(js.ast).Some? ==>
        js.ast == Some(Program(ImportsFor(InternalWaiting(componentNameList), InternalPrefix) + old(js.ast).value.body))
      ensures !ok || old(js.ast).None? || InternalWaiting(componentNameList) == [] ==> js.ast == old(js.ast)
      ensures js.traverseOptions == old(js.traverseOptions) && js.code == old(js.code)
      ensures js.sourceCode == old(js.sourceCode)
    {
      ok := UnshiftImports(InternalWaiting(componentNameList), InternalPrefix);
    }

    /** Lines 55-56 of `transform()`: the external imports, then the internal
        ones. A throw in the first step skips the second. */
    method InsertWaitingComponents() returns (ok: bool)
      modifies js
      ensures old(js.ast).Some? ==>
        ok && js.ast == Some(Program(BodyWithImports(componentNameList, old(js.ast).value.body)))
      ensures old(js.ast).None? ==>
        js.ast == None && (ok <==> ExternalWaiting(componentNameList) == [] && InternalWaiting(componentNameList) == [])
      ensures js.traverseOptions == old(js.traverseOptions) && js.code == old(js.code)
      ensures js.sourceCode == old(js.sourceCode)
    {
      ok := InsertExternalComponents();
      if ok {
        ok := InsertInternalComponents();
      }
    }

    /** What `transform()` leaves behind, relative to the state before it: the
        text read, the visitors registered, and either the rewritten tree and its
        printing (`ok`), or no tree and nothing printed. */
    twostate predicate TransformedFrom(text: string, parser: string -> Option<Program>,
                                       printer: Program -> string, selfClosingTruthy: bool, ok: bool)
      reads this, js, js.asset
    {
      var tree := if parser(text).Some? then parser(text) else old(js.ast);
      js.sourceCode == Some(text) &&
      js.traverseOptions == Assign(old(js.traverseOptions), OrdinaryVisitors) &&
      (ok <==> tree.Some?) &&
      (ok ==>
        js.ast == Some(RewriteProgram(tree.value, js.traverseOptions, selfClosingTruthy)) &&
        js.code == printer(js.ast.value) && js.asset.content == Some(js.code)) &&
      (!ok ==> js.ast == None && js.asset.content == Some(text) && js.code == old(js.code))
    }

    /** `transform()`: parse, register, traverse, insert the imports, print.
        `ok` is false when a step throws (no tree to print). Nothing is written
        to the destination. */
    method Transform(text: string, parser: string -> Option<Program>, printer: Program -> string,
                     selfClosingTruthy: bool) returns (ok: bool)
      requires Valid()
      modifies this, js, js.asset
      ensures Valid()
      ensures TransformedFrom(text, parser, printer, selfClosingTruthy, ok)
    {
      js.Parse(text, parser);
      ghost var tree := js.ast;
      Register();
      Traverse(selfClosingTruthy);
      AddNamesAddsNothingNew([], VisitedNames(if tree.Some? then tree.value.body else [], js.traverseOptions));
      assert componentNameList == [];
      assert ExternalWaiting(componentNameList) == [] && InternalWaiting(componentNameList) == [];
      ghost var rewritten := js.ast;
      var inserted := InsertWaitingComponents();
      if rewritten.Some? {
        NothingWaitingNothingImported(rewritten.value.body);
      }
      assert js.ast == rewritten;
      ok := js.Generate(printer);
    }
  }
}

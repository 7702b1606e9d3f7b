/** The transformer for the app entry: turns every `./pages` import into a lazily
    loaded page, collects the route table, renames the app class to
    `AppConfig` and exports an instance of it. */
module App {
  import opened Options
  import opened Text
  import opened Paths
  import opened Syntax
  import opened JavaScript

  /** The fixed imports that open `exportedPagesCode`. */
  const LoadableImports: string := "\nimport Loadable from 'react-loadable';\nimport DEFAULT_LOADING from 'DEFAULT_LOADING';\n"

  /** The line break and indentation between the parts of `exportedPagesCode`. */
  const Indent: string := "\n    "

  /** An import whose source starts with this is a page. */
  const PagesPrefix: string := "./pages"

  // ---------------------------------------------------------------------------
  // Page names and routes
  // ---------------------------------------------------------------------------

  /** `Page_${index}`. */
  function PageName(index: nat): (r: string)
    ensures StartsWith(r, "Page_")
  {
    "Page_" + NatToString(index)
  }

  /** Distinct indices give distinct page names. */
  lemma PageNamesDistinct(a: nat, b: nat)
    requires a != b
    ensures PageName(a) != PageName(b)
  {
    NatToStringInjective(a, b);
    assert PageName(a)[5..] == NatToString(a);
    assert PageName(b)[5..] == NatToString(b);
  }

  /** `importPath.slice(1)`: the import path without its first character. */
  function PageUrl(importPath: string): (r: string)
    ensures |importPath| > 0 ==> [importPath[0]] + r == importPath
    ensures |importPath| == 0 ==> r == ""
  {
    if importPath == [] then [] else importPath[1..]
  }

  /** The url of a page import keeps the separator after the dot:
      `./pages/home` is routed as `/pages/home`. */
  lemma PageUrlOfPageImport(importPath: string)
    requires StartsWith(importPath, PagesPrefix)
    ensures StartsWith(PageUrl(importPath), "/pages")
    ensures "." + PageUrl(importPath) == importPath
  {
    assert PageUrl(importPath)[..6] == importPath[1..7];
  }

  /** The loader statements for `paths`, numbered from `start`. */
  function Loaders(start: nat, paths: seq<string>): seq<Stmt>
  {
    seq(|paths|, i requires 0 <= i < |paths| => PageLoader(PageName(start + i), paths[i]))
  }

  /** The route table entries for `paths`, numbered from `start`. */
  function Items(start: nat, paths: seq<string>): seq<PageItem>
  {
    seq(|paths|, i requires 0 <= i < |paths| => PageItem(PageUrl(paths[i]), PageName(start + i)))
  }

  /** The loaders and the route table grow together: the i-th loader and the
      i-th route name the same page and the same path, and no two loaders share
      a name. */
  lemma PageTablesAgree(paths: seq<string>)
    ensures |Loaders(0, paths)| == |Items(0, paths)| == |paths|
    ensures forall i :: 0 <= i < |paths| ==>
      Loaders(0, paths)[i].PageLoader? &&
      Items(0, paths)[i].comp == Loaders(0, paths)[i].pageName &&
      Items(0, paths)[i].url == PageUrl(Loaders(0, paths)[i].importPath)
    ensures forall i, j :: 0 <= i < j < |paths| ==>
      Loaders(0, paths)[i].pageName != Loaders(0, paths)[j].pageName
  {
    var loaders := Loaders(0, paths);
    forall i, j | 0 <= i < j < |paths|
      ensures loaders[i].pageName != loaders[j].pageName
    {
      PageNamesDistinct(i, j);
    }
  }

  lemma LoadersAppend(paths: seq<string>, p: string)
    ensures Loaders(0, paths + [p]) == Loaders(0, paths) + [PageLoader(PageName(|paths|), p)]
    ensures Items(0, paths + [p]) == Items(0, paths) + [PageItem(PageUrl(p), PageName(|paths|))]
  {
    assert Loaders(0, paths + [p])[|paths|] == PageLoader(PageName(|paths|), p);
  }

  // ---------------------------------------------------------------------------
  // The statement rewrite
  // ---------------------------------------------------------------------------

  predicate IsPageImport(s: Stmt)
  {
    s.Import? && StartsWith(s.source, PagesPrefix)
  }

  /** What stands in place of `s` once the registered visitors ran on it, `None`
      when the page visitor removed it: a page import is removed, a class is
      replaced by `AppConfig` without a superclass and with the same body, the
      default export by `new AppConfig()`. */
  function RewriteAppStmt(s: Stmt, options: TraverseOptions): (r: Option<Stmt>)
    ensures r.None? <==> IsPageImport(s) && Registered(options, ImportDeclaration, ExtractPages)
    ensures r.Some? && r.value.Import? ==> r.value == s
    ensures r.Some? && s.ClassDecl? && Registered(options, ClassDeclaration, ModifyAppConfig) ==>
      r.value == ClassDecl("AppConfig", None, s.body)
    ensures r.Some? && s.ExportDefault? && Registered(options, ExportDefaultDeclaration, ModifyExport) ==>
      r.value == ExportDefault(NewInstance("AppConfig"))
    ensures !s.Import? && !s.ClassDecl? && !s.ExportDefault? ==> r == Some(s)
  {
    match s
    case Import(_, source) =>
      if Registered(options, ImportDeclaration, ExtractPages) && StartsWith(source, PagesPrefix) then None
      else Some(s)
    case ClassDecl(_, _, body) =>
      if Registered(options, ClassDeclaration, ModifyAppConfig) then Some(ClassDecl("AppConfig", None, body))
      else Some(s)
    case ExportDefault(_) =>
      if Registered(options, ExportDefaultDeclaration, ModifyExport) then Some(ExportDefault(NewInstance("AppConfig")))
      else Some(s)
    case _ => Some(s)
  }

  /** `traverse(ast, traverseOptions)` on the top-level statements, in order. */
  function RewriteAppBody(body: seq<Stmt>, options: TraverseOptions): (r: seq<Stmt>)
    ensures |r| <= |body|
    decreases |body|
  {
    if body == [] then []
    else
      var rest := RewriteAppBody(body[..|body| - 1], options);
      match RewriteAppStmt(body[|body| - 1], options)
      case None => rest
      case Some(s) => rest + [s]
  }

  /** The sources of the imports the page visitor removes, in traversal order. */
  function PagePaths(body: seq<Stmt>, options: TraverseOptions): (r: seq<string>)
    ensures |r| <= |body|
    decreases |body|
  {
    if body == [] then []
    else
      var last := body[|body| - 1];
      PagePaths(body[..|body| - 1], options) +
      (if RewriteAppStmt(last, options).None? then [last.source] else [])
  }

  /** One more statement of the traversal. */
  lemma AppStep(body: seq<Stmt>, i: nat, options: TraverseOptions)
    requires i < |body|
    ensures var r := RewriteAppStmt(body[i], options);
      RewriteAppBody(body[..i + 1], options) ==
        RewriteAppBody(body[..i], options) + (if r.Some? then [r.value] else []) &&
      PagePaths(body[..i + 1], options) ==
        PagePaths(body[..i], options) + (if r.None? then [body[i].source] else [])
  {
    assert body[..i + 1][..i] == body[..i];
  }

  /** Every statement is either kept (possibly replaced) or turned into a page. */
  lemma {:induction false} EveryStatementAccountedFor(body: seq<Stmt>, options: TraverseOptions)
    ensures |RewriteAppBody(body, options)| + |PagePaths(body, options)| == |body|
    decreases |body|
  {
    if body != [] {
      EveryStatementAccountedFor(body[..|body| - 1], options);
    }
  }

  /** The extracted paths are page paths, and none are extracted without the
      page visitor. */
  lemma {:induction false} PagePathsArePages(body: seq<Stmt>, options: TraverseOptions)
    ensures forall i :: 0 <= i < |PagePaths(body, options)| ==> StartsWith(PagePaths(body, options)[i], PagesPrefix)
    ensures !Registered(options, ImportDeclaration, ExtractPages) ==> PagePaths(body, options) == []
    decreases |body|
  {
    if body != [] {
      PagePathsArePages(body[..|body| - 1], options);
    }
  }

  /** With the page visitor registered, no page import is left. */
  lemma {:induction false} NoPageImportRemains(body: seq<Stmt>, options: TraverseOptions)
    requires Registered(options, ImportDeclaration, ExtractPages)
    ensures forall i :: 0 <= i < |RewriteAppBody(body, options)| ==> !IsPageImport(RewriteAppBody(body, options)[i])
    decreases |body|
  {
    if body != [] {
      NoPageImportRemains(body[..|body| - 1], options);
    }
  }

  /** Every other import is untouched: it is in the result exactly when it was in
      the input. */
  lemma {:induction false} OtherImportsKept(body: seq<Stmt>, options: TraverseOptions, s: Stmt)
    requires s.Import? && !IsPageImport(s)
    ensures s in RewriteAppBody(body, options) <==> s in body
    decreases |body|
  {
    if body != [] {
      var init := body[..|body| - 1];
      OtherImportsKept(init, options, s);
      assert body == init + [body[|body| - 1]];
    }
  }

  /** With the class visitor registered, every class left is an `AppConfig`
      without a superclass, and every class body of the input survives in one. */
  lemma {:induction false} ClassesBecomeAppConfig(body: seq<Stmt>, options: TraverseOptions)
    requires Registered(options, ClassDeclaration, ModifyAppConfig)
    ensures forall s :: s in RewriteAppBody(body, options) && s.ClassDecl? ==>
      s.id == "AppConfig" && s.superClass == None
    ensures forall i :: 0 <= i < |body| && body[i].ClassDecl? ==>
      ClassDecl("AppConfig", None, body[i].body) in RewriteAppBody(body, options)
    decreases |body|
  {
    if body != [] {
      var init := body[..|body| - 1];
      ClassesBecomeAppConfig(init, options);
      forall i | 0 <= i < |body| && body[i].ClassDecl?
        ensures ClassDecl("AppConfig", None, body[i].body) in RewriteAppBody(body, options)
      {
        if i < |init| {
          assert body[i] == init[i];
        }
      }
    }
  }

  /** With the export visitor registered, every default export left is
      `export default new AppConfig()`, and there is one when the input had one. */
  lemma {:induction false} ExportsBecomeAppConfig(body: seq<Stmt>, options: TraverseOptions)
    requires Registered(options, ExportDefaultDeclaration, ModifyExport)
    ensures forall s :: s in RewriteAppBody(body, options) && s.ExportDefault? ==>
      s == ExportDefault(NewInstance("AppConfig"))
    ensures (exists i :: 0 <= i < |body| && body[i].ExportDefault?) ==>
      ExportDefault(NewInstance("AppConfig")) in RewriteAppBody(body, options)
    decreases |body|
  {
    if body != [] {
      var init := body[..|body| - 1];
      ExportsBecomeAppConfig(init, options);
      if exists i :: 0 <= i < |init| && init[i].ExportDefault? {
        var i :| 0 <= i < |init| && init[i].ExportDefault?;
        assert ExportDefault(NewInstance("AppConfig")) in RewriteAppBody(init, options);
      }
    }
  }

  // ---------------------------------------------------------------------------
  // The generated route module
  // ---------------------------------------------------------------------------

  /** The text of `exportedPagesCode`, given the printed loaders and the printed
      export of the route table. */
  function ExportedPagesCode(importPagesCode: string, exportPagesCode: string): string
  {
    Indent + LoadableImports + Indent + importPagesCode + Indent + exportPagesCode + Indent
  }

  /** The parts come in a fixed order: the Loadable imports, the printed loaders,
      then the printed route table; each is recovered at its own offset. */
  lemma ExportedPagesCodeParts(importPagesCode: string, exportPagesCode: string)
    ensures var code := ExportedPagesCode(importPagesCode, exportPagesCode);
      var head := |Indent + LoadableImports + Indent|;
      var tail := head + |importPagesCode| + |Indent|;
      StartsWith(code, Indent + LoadableImports) &&
      code[head..head + |importPagesCode|] == importPagesCode &&
      code[tail..tail + |exportPagesCode|] == exportPagesCode &&
      EndsWith(code, exportPagesCode + Indent)
  {
    var a := Indent + LoadableImports + Indent;
    var code := ExportedPagesCode(importPagesCode, exportPagesCode);
    assert code == a + importPagesCode + Indent + exportPagesCode + Indent;
    assert code[..|Indent + LoadableImports|] == (a + importPagesCode + Indent + exportPagesCode + Indent)[..|Indent + LoadableImports|];
  }

  /** The route module determines its parts: two modules with loader texts of
      the same length are equal only when their loaders and exports are. */
  lemma ExportedPagesCodeDetermines(a: string, b: string, a': string, b': string)
    requires |a| == |a'|
    requires ExportedPagesCode(a, b) == ExportedPagesCode(a', b')
    ensures a == a' && b == b'
  {
    ExportedPagesCodeParts(a, b);
    ExportedPagesCodeParts(a', b');
  }

  /** The visitors `register()` installs. */
  const AppVisitors: TraverseOptions :=
    map[ImportDeclaration := ExtractPages, ClassDeclaration := ModifyAppConfig, ExportDefaultDeclaration := ModifyExport]

  /** The three registrations of `register()` add up to `AppVisitors`. */
  lemma RegistrationsMerge(target: TraverseOptions)
    ensures Assign(Assign(Assign(target, map[ImportDeclaration := ExtractPages]),
                          map[ClassDeclaration := ModifyAppConfig]),
                   map[ExportDefaultDeclaration := ModifyExport]) == Assign(target, AppVisitors)
  {
    var r := Assign(Assign(Assign(target, map[ImportDeclaration := ExtractPages]),
                           map[ClassDeclaration := ModifyAppConfig]),
                    map[ExportDefaultDeclaration := ModifyExport]);
    var q := Assign(target, AppVisitors);
    assert r.Keys == q.Keys;
    forall k | k in r
      ensures r[k] == q[k]
    {
    }
  }

  /** After `register()` all three visitors are in the table, whatever it held. */
  lemma AppVisitorsRegistered(target: TraverseOptions)
    ensures Registered(Assign(target, AppVisitors), ImportDeclaration, ExtractPages)
    ensures Registered(Assign(target, AppVisitors), ClassDeclaration, ModifyAppConfig)
    ensures Registered(Assign(target, AppVisitors), ExportDefaultDeclaration, ModifyExport)
  {
  }

  class AppTransformer {
    const js: JavaScriptTransformer
    /** Undefined until the first `generateExportedPagesCode`. */
    var exportedPagesCode: Option<string>
    var importedPages: seq<Stmt>
    /** `exportedPages.elements`. */
    var exportedPages: seq<PageItem>
    var pageIndex: nat
    /** The import paths turned into pages so far, in order. */
    ghost var loadedPaths: seq<string>

    /** The loaders, the route table and the counter describe the same pages. */
    ghost predicate Valid()
      reads this
    {
      importedPages == Loaders(0, loadedPaths) &&
      exportedPages == Items(0, loadedPaths) &&
      pageIndex == |loadedPaths|
    }

    constructor (sourceFilePath: Path, srcDirPath: Path, destDirPath: Path)
      ensures fresh(js) && fresh(js.asset)
      ensures js.asset.sourceFilePath == sourceFilePath
      ensures js.asset.destinationFilePath == Resolve(destDirPath, Relative(srcDirPath, sourceFilePath))
      ensures js.asset.content == None && js.code == "" && js.sourceCode == None
      ensures js.ast == None && js.traverseOptions == map[]
      ensures exportedPagesCode == None && importedPages == [] && exportedPages == [] && pageIndex == 0
      ensures Valid()
    {
      js := new JavaScriptTransformer(sourceFilePath, srcDirPath, destDirPath);
      exportedPagesCode := None;
      importedPages := [];
      exportedPages := [];
      pageIndex := 0;
      loadedPaths := [];
    }

    /** `loadable(importPath)`: takes the next page name, appends its route and
        returns its loader statement. */
    method Loadable(importPath: string) returns (loader: Stmt)
      modifies this
      ensures loader == PageLoader(PageName(old(pageIndex)), importPath)
      ensures pageIndex == old(pageIndex) + 1
      ensures exportedPages == old(exportedPages) + [PageItem(PageUrl(importPath), PageName(old(pageIndex)))]
      ensures importedPages == old(importedPages) && loadedPaths == old(loadedPaths)
      ensures exportedPagesCode == old(exportedPagesCode)
    {
      var pageName := PageName(pageIndex);
      pageIndex := pageIndex + 1;
      exportedPages := exportedPages + [PageItem(PageUrl(importPath), pageName)];
      loader := PageLoader(pageName, importPath);
    }

    /** `register()`: the page, class and export visitors. */
    method Register()
      modifies js
      ensures js.traverseOptions == Assign(old(js.traverseOptions), AppVisitors)
      ensures js.ast == old(js.ast) && js.code == old(js.code) && js.sourceCode == old(js.sourceCode)
    {
      js.RegisterTraverse(map[ImportDeclaration := ExtractPages]);
      js.RegisterTraverse(map[ClassDeclaration := ModifyAppConfig]);
      js.RegisterTraverse(map[ExportDefaultDeclaration := ModifyExport]);
      RegistrationsMerge(old(js.traverseOptions));
    }

    /** `traverse()`: Babel returns at once on a missing tree; otherwise each
        top-level statement meets the visitor registered for its kind. A page
        import is removed and its loader pushed onto `importedPages`. */
    method Traverse()
      requires Valid()
      modifies this, js
      ensures Valid()
      ensures old(js.ast).None? ==> js.ast == None && loadedPaths == old(loadedPaths)
      ensures old(js.ast).Some? ==>
        js.ast == Some(Program(RewriteAppBody(old(js.ast).value.body, js.traverseOptions))) &&
        loadedPaths == old(loadedPaths) + PagePaths(old(js.ast).value.body, js.traverseOptions)
      ensures js.traverseOptions == old(js.traverseOptions) && js.code == old(js.code)
      ensures js.sourceCode == old(js.sourceCode) && exportedPagesCode == old(exportedPagesCode)
    {
      if js.ast.None? {
        return;
      }
      var body := js.ast.value.body;
      var options := js.traverseOptions;
      var kept: seq<Stmt> := [];
      var i := 0;
      while i < |body|
        invariant 0 <= i <= |body|
        invariant Valid()
        invariant kept == RewriteAppBody(body[..i], options)
        invariant loadedPaths == old(loadedPaths) + PagePaths(body[..i], options)
        invariant js.ast == old(js.ast) && js.traverseOptions == options
        invariant js.code == old(js.code) && js.sourceCode == old(js.sourceCode)
        invariant exportedPagesCode == old(exportedPagesCode)
      {
        var s := body[i];
        AppStep(body, i, options);
        if s.Import? && Registered(options, ImportDeclaration, ExtractPages) && StartsWith(s.source, PagesPrefix) {
          var loader := Loadable(s.source);
          LoadersAppend(loadedPaths, s.source);
          importedPages := importedPages + [loader];
          loadedPaths := loadedPaths + [s.source];
        } else if s.ClassDecl? && Registered(options, ClassDeclaration, ModifyAppConfig) {
          kept := kept + [ClassDecl("AppConfig", None, s.body)];
        } else if s.ExportDefault? && Registered(options, ExportDefaultDeclaration, ModifyExport) {
          kept := kept + [ExportDefault(NewInstance("AppConfig"))];
        } else {
          kept := kept + [s];
        }
        i := i + 1;
      }
      assert body[..|body|] == body;
      js.ast := Some(Program(kept));
    }

    /** `generateExportedPagesCode()`: prints the loaders and the route table
        export after the fixed imports. */
    method GenerateExportedPagesCode(printer: Program -> string)
      modifies this
      ensures exportedPagesCode == Some(ExportedPagesCode(
        printer(Program(importedPages)), printer(Program([ExportDefault(PageArray(exportedPages))]))))
      ensures importedPages == old(importedPages) && exportedPages == old(exportedPages)
      ensures pageIndex == old(pageIndex) && loadedPaths == old(loadedPaths)
    {
      var importPagesCode := printer(Program(importedPages));
      var exportPagesCode := printer(Program([ExportDefault(PageArray(exportedPages))]));
      exportedPagesCode := Some(ExportedPagesCode(importPagesCode, exportPagesCode));
    }

    /** What `transform()` leaves behind, relative to the state before it: the
        text read, the visitors registered, and either the rewritten tree, its
        printing and the route module (`ok`), or no tree and nothing printed. */
    twostate predicate TransformedFrom(text: string, parser: string -> Option<Program>,
                                       printer: Program -> string, ok: bool)
      reads this, js, js.asset
    {
      var tree := if parser(text).Some? then parser(text) else old(js.ast);
      js.sourceCode == Some(text) &&
      js.traverseOptions == Assign(old(js.traverseOptions), AppVisitors) &&
      (ok <==> tree.Some?) &&
      (ok ==>
        js.ast == Some(Program(RewriteAppBody(tree.value.body, js.traverseOptions))) &&
        loadedPaths == old(loadedPaths) + PagePaths(tree.value.body, js.traverseOptions) &&
        js.code == printer(js.ast.value) && js.asset.content == Some(js.code) &&
        exportedPagesCode == Some(ExportedPagesCode(
          printer(Program(importedPages)), printer(Program([ExportDefault(PageArray(exportedPages))])))) &&
        forall i :: 0 <= i < |js.ast.value.body| ==> !IsPageImport(js.ast.value.body[i])) &&
      (!ok ==>
        js.ast == None && loadedPaths == old(loadedPaths) && js.asset.content == Some(text) &&
        js.code == old(js.code) && exportedPagesCode == old(exportedPagesCode))
    }

    /** `transform()`: parse, register, traverse, print, then assemble the route
        module. `ok` is false when printing throws for want of a tree; the route
        module is then not assembled. Page numbering is not reset: a second run
        continues after the pages of the first. */
    method Transform(text: string, parser: string -> Option<Program>, printer: Program -> string)
      returns (ok: bool)
      requires Valid()
      modifies this, js, js.asset
      ensures Valid()
      ensures TransformedFrom(text, parser, printer, ok)
    {
      js.Parse(text, parser);
      ghost var tree := js.ast;
      Register();
      AppVisitorsRegistered(old(js.traverseOptions));
      Traverse();
      if tree.Some? {
        NoPageImportRemains(tree.value.body, js.traverseOptions);
      }
      ok := js.Generate(printer);
      if ok {
        GenerateExportedPagesCode(printer);
      }
    }
  }
}

/** The state shared by the two script transformers: the text read from disk,
    the syntax tree, the printed code and the table of registered visitors. */
module JavaScript {
  import opened Options
  import opened Paths
  import opened Syntax
  import Asset

  /** The node kinds a visitor can be registered under. */
  datatype NodeKind =
    | ImportDeclaration
    | ClassDeclaration
    | ExportDefaultDeclaration
    | JSXOpeningElement
    | JSXAttribute

  /** The visitors the transformers register, by the method that registers them. */
  datatype Visitor =
    | ExtractPages
    | ModifyAppConfig
    | ModifyExport
    | ReplaceNodeName
    | ReplaceAssets

  type TraverseOptions = map<NodeKind, Visitor>

  /** Whether the table calls `visitor` on nodes of kind `kind`. */
  predicate Registered(options: TraverseOptions, kind: NodeKind, visitor: Visitor)
  {
    kind in options && options[kind] == visitor
  }

  /** `Object.assign(target, source)` on a visitor table: every key of `source`
      takes its visitor from `source`, every other key of `target` keeps its own. */
  function Assign(target: TraverseOptions, source: TraverseOptions): (r: TraverseOptions)
    ensures r.Keys == target.Keys + source.Keys
    ensures forall k :: k in source ==> r[k] == source[k]
    ensures forall k :: k in target && k !in source ==> r[k] == target[k]
  {
    target + source
  }

  /** Registering the same visitors a second time (a second `transform` on the
      same instance) leaves the table as it was after the first time. */
  lemma ReRegistrationChangesNothing(target: TraverseOptions, source: TraverseOptions)
    ensures Assign(Assign(target, source), source) == Assign(target, source)
  {
    var once := Assign(target, source);
    var twice := Assign(once, source);
    assert twice.Keys == once.Keys;
    forall k | k in once ensures twice[k] == once[k] {
      if k in source {
        assert twice[k] == source[k];
      } else {
        assert twice[k] == once[k];
      }
    }
  }

  /** Two registrations in a row merge as one of their merged tables. */
  lemma AssignAssociative(target: TraverseOptions, a: TraverseOptions, b: TraverseOptions)
    ensures Assign(Assign(target, a), b) == Assign(target, Assign(a, b))
  {
    assert Assign(Assign(target, a), b).Keys == Assign(target, Assign(a, b)).Keys;
  }

  /** Registrations under distinct keys all survive, whatever their order. */
  lemma DistinctRegistrationsCommute(target: TraverseOptions, a: TraverseOptions, b: TraverseOptions)
    requires a.Keys !! b.Keys
    ensures Assign(Assign(target, a), b) == Assign(Assign(target, b), a)
    ensures forall k :: k in a ==> Assign(Assign(target, a), b)[k] == a[k]
    ensures forall k :: k in b ==> Assign(Assign(target, a), b)[k] == b[k]
  {
    var ab := Assign(Assign(target, a), b);
    var ba := Assign(Assign(target, b), a);
    assert ab.Keys == ba.Keys;
    forall k | k in ab ensures ab[k] == ba[k] {
      if k in a {
        assert k !in b;
      } else if k in b {
        assert ba[k] == b[k];
      }
    }
  }

  class JavaScriptTransformer {
    const asset: Asset.Asset
    var code: string
    var sourceCode: Option<string>
    /** `ast.program`; `None` while no parse has succeeded. */
    var ast: Option<Program>
    var traverseOptions: TraverseOptions

    constructor (sourceFilePath: Path, srcDirPath: Path, destDirPath: Path)
      ensures fresh(asset)
      ensures asset.sourceFilePath == sourceFilePath
      ensures asset.relativePath == Relative(srcDirPath, sourceFilePath)
      ensures asset.destinationFilePath == Resolve(destDirPath, asset.relativePath)
      ensures asset.content == None
      ensures code == "" && sourceCode == None && ast == None && traverseOptions == map[]
    {
      asset := new Asset.Asset(sourceFilePath, srcDirPath, destDirPath);
      code := "";
      sourceCode := None;
      ast := None;
      traverseOptions := map[];
    }

    /** `registerTraverse(options)`: merges `options` into the table in place. */
    method RegisterTraverse(options: TraverseOptions)
      modifies this
      ensures traverseOptions == Assign(old(traverseOptions), options)
      ensures code == old(code) && sourceCode == old(sourceCode) && ast == old(ast)
    {
      traverseOptions := Assign(traverseOptions, options);
    }

    /** `parse()`: reads the file (`text` is what the file system returns), keeps
        the text as `sourceCode`, and replaces the tree when `parser` accepts the
        text. A rejected text is only logged: the previous tree stays. */
    method Parse(text: string, parser: string -> Option<Program>)
      modifies this, asset
      ensures asset.content == Some(text) && sourceCode == Some(text)
      ensures parser(text).Some? ==> ast == parser(text)
      ensures parser(text).None? ==> ast == old(ast)
      ensures code == old(code) && traverseOptions == old(traverseOptions)
    {
      asset.Read(text);
      sourceCode := asset.content;
      var parsed := parser(sourceCode.value);
      if parsed.Some? {
        ast := parsed;
      }
    }

    /** `generate()`: prints the tree into both `code` and `content`. Without a
        tree, `this.ast.program` throws a `TypeError`; `ok` is then false and
        nothing changes. */
    method Generate(printer: Program -> string) returns (ok: bool)
      modifies this, asset
      ensures ok <==> old(ast).Some?
      ensures ok ==> code == printer(old(ast).value) && asset.content == Some(code)
      ensures !ok ==> code == old(code) && asset.content == old(asset.content)
      ensures ast == old(ast) && sourceCode == old(sourceCode) && traverseOptions == old(traverseOptions)
    {
      if ast.None? {
        return false;
      }
      var printed := printer(ast.value);
      code := printed;
      asset.content := Some(printed);
      ok := true;
    }
  }
}

/** An abstract picture of the Babel syntax tree: only the node kinds the rewrite
    passes look at are distinguished. Source text never appears; the parser and
    the printer are parameters of the operations that use them. */
module Syntax {
  import opened Options

  /** The name of an opening tag or of an attribute: a plain `JSXIdentifier`, or a
      member / namespaced name (`<a.b>`, `xlink:href`), which the passes skip. */
  datatype JsxName = Ident(id: string) | OtherName

  /** The name of a closing tag. Its identifier may have been given the value
      `undefined` by the tag rename, hence the optional name. */
  datatype ClosingName = ClosingIdent(id: Option<string>) | ClosingOther

  /** The value of a JSX attribute: a string literal, any other expression, or
      none (`<input disabled />`). */
  datatype AttrValue = StringLiteral(value: string) | ExpressionValue | NoValue

  /** An entry of an opening tag's attribute list. `RequireCall` is what the asset
      rewrite puts in place of a whole attribute: `require("<path>")`. */
  datatype JsxAttr = Attribute(name: JsxName, value: AttrValue) | RequireCall(path: string)

  /** A JSX element: opening name and attributes, the closing tag's name when the
      element is not self-closing, and the child elements. */
  datatype JsxElement = Element(
    name: JsxName,
    attrs: seq<JsxAttr>,
    closing: Option<ClosingName>,
    children: seq<JsxElement>)

  /** An `{url, Comp}` entry of the generated route table. */
  datatype PageItem = PageItem(url: string, comp: string)

  /** Expressions the passes produce or inspect: `new C()`, the route table array,
      and any other expression (with the markup it contains). */
  datatype Expr =
    | NewInstance(className: string)
    | PageArray(items: seq<PageItem>)
    | OpaqueExpr(markup: seq<JsxElement>)

  /** Top-level statements of a module.
      - `Import`: `import <local> from '<source>'`;
      - `ClassDecl`: a class with an optional superclass; its methods are
        abstracted to the markup they render;
      - `ExportDefault`: `export default <expr>`;
      - `PageLoader`: the generated
        `const <pageName> = Loadable({loader: () => import('<importPath>'), loading: DEFAULT_LOADING})`;
      - `OtherStmt`: anything else, with the markup it contains. */
  datatype Stmt =
    | Import(local: string, source: string)
    | ClassDecl(id: string, superClass: Option<string>, body: seq<JsxElement>)
    | ExportDefault(expr: Expr)
    | PageLoader(pageName: string, importPath: string)
    | OtherStmt(markup: seq<JsxElement>)

  /** `ast.program`. */
  datatype Program = Program(body: seq<Stmt>)
}

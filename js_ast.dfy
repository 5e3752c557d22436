/** The part of an ECMAScript syntax tree the transformer looks at.

    Spans, comments, interned atoms, type annotations and `Box` ownership are
    left out. Node kinds whose contents the model does not represent
    (assignments, operators, conditionals, control-flow statements, class
    bodies, destructuring patterns, other module declarations) are collapsed
    into an `Other…` case carrying a tag, so that two such nodes can still
    differ; a `this.x` inside one of them is not represented either. */
module JsAst {
  import opened Outcomes

  /** The key of an object-literal member. */
  datatype PropName =
    | IdentKey(name: string)
    | StrKey(value: string)
    | NumKey(raw: string)
    | ComputedKey(expr: Expr)

  datatype Lit = StrLit(value: string) | OtherLit(raw: string)

  /** The property part of `obj.prop`, `obj.#prop` or `obj[expr]`. */
  datatype MemberProp = IdentProp(name: string) | PrivateProp(name: string) | ComputedProp(expr: Expr)

  datatype Callee = SuperCallee | ImportCallee | ExprCallee(expr: Expr)

  /** A call argument or array element, `e` or `...e`. */
  datatype ExprOrSpread = ExprOrSpread(spread: bool, expr: Expr)

  /** A binding pattern: a plain identifier, or a destructuring/default/rest pattern. */
  datatype Pat = IdentPat(name: string) | OtherPat(tag: string)

  datatype Expr =
    | Ident(name: string)
    | This
    | Member(obj: Expr, prop: MemberProp)
    | Call(callee: Callee, args: seq<ExprOrSpread>)
    | Arrow(params: seq<Pat>, body: ArrowBody, isAsync: bool, isGenerator: bool)
    | FnExpr(func: Function)
    | Object(props: seq<PropOrSpread>)
    | Array(elems: seq<Option<ExprOrSpread>>)   // None is a hole: `[a, , b]`
    | LitExpr(lit: Lit)
    | OtherExpr(tag: string)

  datatype ArrowBody = BlockBody(stmts: seq<Stmt>) | ExprBody(expr: Expr)

  /** A `{ … }` statement list. */
  datatype BlockStmt = BlockStmt(stmts: seq<Stmt>)

  /** A function: its parameter patterns, its body (absent for a declaration without one) and flags. */
  datatype Function = Function(params: seq<Pat>, body: Option<BlockStmt>, isAsync: bool, isGenerator: bool)

  datatype FnDecl = FnDecl(ident: string, func: Function)

  datatype Prop =
    | Shorthand(ident: string)
    | KeyValue(key: PropName, value: Expr)
    | Assign(ident: string, value: Expr)
    | Getter(key: PropName, body: Option<BlockStmt>)
    | Setter(key: PropName, param: Pat, body: Option<BlockStmt>)
    | Method(key: PropName, func: Function)

  /** swc's `KeyValueProp` and `MethodProp`: a member known to have that shape. */
  type KeyValueProp = p: Prop | p.KeyValue? witness KeyValue(NumKey("0"), This)
  type MethodProp = p: Prop | p.Method? witness Method(NumKey("0"), Function([], None, false, false))

  datatype PropOrSpread = PropItem(prop: Prop) | Spread(expr: Expr)

  datatype VarKind = Var | Let | Const

  datatype VarDeclarator = VarDeclarator(name: Pat, init: Option<Expr>)

  datatype Stmt =
    | ReturnStmt(arg: Option<Expr>)
    | VarDeclStmt(kind: VarKind, decls: seq<VarDeclarator>)
    | FnDeclStmt(decl: FnDecl)
    | ClassDeclStmt(ident: string)
    | ExprStmt(expr: Expr)
    | OtherStmt(tag: string)

  datatype ModuleItem =
    | ExportDefaultExpr(expr: Expr)
    | OtherModuleDecl(tag: string)   // imports, named exports, `export default function …`
    | StmtItem(stmt: Stmt)

  /** `name(args…)` with a bare identifier as callee. */
  function CallNamed(name: string, args: seq<Expr>): Expr {
    Call(ExprCallee(Ident(name)), seq(|args|, i requires 0 <= i < |args| => ExprOrSpread(false, args[i])))
  }

  /** `const name = init;` with a single identifier declarator. */
  function ConstDecl(name: string, init: Expr): Stmt {
    VarDeclStmt(Const, [VarDeclarator(IdentPat(name), Some(init))])
  }

  /** `{ a, b, … }` made of shorthand members. */
  function ShorthandObject(names: seq<string>): Expr {
    Object(seq(|names|, i requires 0 <= i < |names| => PropItem(Shorthand(names[i]))))
  }

  /** The member `key: value` with an identifier key. */
  function IdentKeyValue(key: string, value: Expr): PropOrSpread {
    PropItem(KeyValue(IdentKey(key), value))
  }
}

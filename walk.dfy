/** A mutating visitor's traversal of a module.

    A visitor overrides the hooks of some node kinds; the traversal visits every
    other node's children in order and, on a node with a hook, runs the hook
    INSTEAD of descending: a hook that does not itself visit its children stops
    the walk there. `onExpr`/`onProp` answer `None` for a node they do not
    handle, and otherwise the replacement node (or the panic it raised). */
module Walk {
  import opened Outcomes
  import opened JsAst

  datatype Hooks = Hooks(onExpr: Expr -> Option<Fallible<Expr>>, onProp: Prop -> Option<Fallible<Prop>>)

  /** No hook ever panics. */
  ghost predicate NeverPanics(h: Hooks) {
    && (forall e :: h.onExpr(e).Some? ==> h.onExpr(e).value.Ok?)
    && (forall p :: h.onProp(p).Some? ==> h.onProp(p).value.Ok?)
  }

  function WalkExpr(h: Hooks, e: Expr): Fallible<Expr>
    decreases e, 1
  {
    match h.onExpr(e)
    case Some(r) => r
    case None => WalkExprChildren(h, e)
  }

  function WalkExprChildren(h: Hooks, e: Expr): Fallible<Expr>
    decreases e, 0
  {
    match e
    case Member(obj, prop) =>
      var o :- WalkExpr(h, obj);
      var p :- WalkMemberProp(h, prop);
      Ok(Member(o, p))
    case Call(callee, args) =>
      var c :- WalkCallee(h, callee);
      var a :- WalkArgs(h, args);
      Ok(Call(c, a))
    case Arrow(params, body, isAsync, isGenerator) =>
      var b :- WalkArrowBody(h, body);
      Ok(Arrow(params, b, isAsync, isGenerator))
    case FnExpr(f) =>
      var g :- WalkFunction(h, f);
      Ok(FnExpr(g))
    case Object(props) =>
      var ps :- WalkProps(h, props);
      Ok(Object(ps))
    case Array(elems) =>
      var es :- WalkElems(h, elems);
      Ok(Array(es))
    case _ => Ok(e)
  }

  function WalkMemberProp(h: Hooks, p: MemberProp): Fallible<MemberProp>
    decreases p
  {
    match p
    case ComputedProp(e) =>
      var e' :- WalkExpr(h, e);
      Ok(ComputedProp(e'))
    case _ => Ok(p)
  }

  function WalkCallee(h: Hooks, c: Callee): Fallible<Callee>
    decreases c
  {
    match c
    case ExprCallee(e) =>
      var e' :- WalkExpr(h, e);
      Ok(ExprCallee(e'))
    case _ => Ok(c)
  }

  function WalkArg(h: Hooks, a: ExprOrSpread): Fallible<ExprOrSpread>
    decreases a
  {
    var e :- WalkExpr(h, a.expr);
    Ok(ExprOrSpread(a.spread, e))
  }

  function WalkArgs(h: Hooks, args: seq<ExprOrSpread>): Fallible<seq<ExprOrSpread>>
    decreases args
  {
    if args == [] then Ok([])
    else
      var a :- WalkArg(h, args[0]);
      var rest :- WalkArgs(h, args[1..]);
      Ok([a] + rest)
  }

  function WalkElems(h: Hooks, elems: seq<Option<ExprOrSpread>>): Fallible<seq<Option<ExprOrSpread>>>
    decreases elems
  {
    if elems == [] then Ok([])
    else
      var first :- WalkElem(h, elems[0]);
      var rest :- WalkElems(h, elems[1..]);
      Ok([first] + rest)
  }

  function WalkElem(h: Hooks, elem: Option<ExprOrSpread>): Fallible<Option<ExprOrSpread>>
    decreases elem
  {
    match elem
    case None => Ok(None)
    case Some(a) =>
      var a' :- WalkArg(h, a);
      Ok(Some(a'))
  }

  function WalkArrowBody(h: Hooks, b: ArrowBody): Fallible<ArrowBody>
    decreases b
  {
    match b
    case BlockBody(stmts) =>
      var s :- WalkStmts(h, stmts);
      Ok(BlockBody(s))
    case ExprBody(e) =>
      var e' :- WalkExpr(h, e);
      Ok(ExprBody(e'))
  }

  function WalkBlock(h: Hooks, b: BlockStmt): Fallible<BlockStmt>
    decreases b
  {
    var s :- WalkStmts(h, b.stmts);
    Ok(BlockStmt(s))
  }

  function WalkBody(h: Hooks, body: Option<BlockStmt>): Fallible<Option<BlockStmt>>
    decreases body
  {
    match body
    case None => Ok(None)
    case Some(b) =>
      var b' :- WalkBlock(h, b);
      Ok(Some(b'))
  }

  function WalkFunction(h: Hooks, f: Function): Fallible<Function>
    decreases f
  {
    var b :- WalkBody(h, f.body);
    Ok(f.(body := b))
  }

  function WalkPropName(h: Hooks, k: PropName): Fallible<PropName>
    decreases k
  {
    match k
    case ComputedKey(e) =>
      var e' :- WalkExpr(h, e);
      Ok(ComputedKey(e'))
    case _ => Ok(k)
  }

  function WalkProp(h: Hooks, p: Prop): Fallible<Prop>
    decreases p, 1
  {
    match h.onProp(p)
    case Some(r) => r
    case None => WalkPropChildren(h, p)
  }

  function WalkPropChildren(h: Hooks, p: Prop): Fallible<Prop>
    decreases p, 0
  {
    match p
    case Shorthand(_) => Ok(p)
    case KeyValue(key, value) =>
      var k :- WalkPropName(h, key);
      var v :- WalkExpr(h, value);
      Ok(KeyValue(k, v))
    case Assign(ident, value) =>
      var v :- WalkExpr(h, value);
      Ok(Assign(ident, v))
    case Getter(key, body) =>
      var k :- WalkPropName(h, key);
      var b :- WalkBody(h, body);
      Ok(Getter(k, b))
    case Setter(key, param, body) =>
      var k :- WalkPropName(h, key);
      var b :- WalkBody(h, body);
      Ok(Setter(k, param, b))
    case Method(key, f) =>
      var k :- WalkPropName(h, key);
      var g :- WalkFunction(h, f);
      Ok(Method(k, g))
  }

  function WalkPropOrSpread(h: Hooks, p: PropOrSpread): Fallible<PropOrSpread>
    decreases p
  {
    match p
    case PropItem(prop) =>
      var q :- WalkProp(h, prop);
      Ok(PropItem(q))
    case Spread(e) =>
      var e' :- WalkExpr(h, e);
      Ok(Spread(e'))
  }

  function WalkProps(h: Hooks, props: seq<PropOrSpread>): Fallible<seq<PropOrSpread>>
    decreases props
  {
    if props == [] then Ok([])
    else
      var p :- WalkPropOrSpread(h, props[0]);
      var rest :- WalkProps(h, props[1..]);
      Ok([p] + rest)
  }

  function WalkDeclarator(h: Hooks, d: VarDeclarator): Fallible<VarDeclarator>
    decreases d
  {
    match d.init
    case None => Ok(d)
    case Some(e) =>
      var e' :- WalkExpr(h, e);
      Ok(d.(init := Some(e')))
  }

  function WalkDeclarators(h: Hooks, ds: seq<VarDeclarator>): Fallible<seq<VarDeclarator>>
    decreases ds
  {
    if ds == [] then Ok([])
    else
      var d :- WalkDeclarator(h, ds[0]);
      var rest :- WalkDeclarators(h, ds[1..]);
      Ok([d] + rest)
  }

  function WalkStmt(h: Hooks, s: Stmt): Fallible<Stmt>
    decreases s
  {
    match s
    case ReturnStmt(None) => Ok(s)
    case ReturnStmt(Some(e)) =>
      var e' :- WalkExpr(h, e);
      Ok(ReturnStmt(Some(e')))
    case VarDeclStmt(kind, decls) =>
      var ds :- WalkDeclarators(h, decls);
      Ok(VarDeclStmt(kind, ds))
    case FnDeclStmt(FnDecl(ident, f)) =>
      var g :- WalkFunction(h, f);
      Ok(FnDeclStmt(FnDecl(ident, g)))
    case ExprStmt(e) =>
      var e' :- WalkExpr(h, e);
      Ok(ExprStmt(e'))
    case _ => Ok(s)
  }

  function WalkStmts(h: Hooks, stmts: seq<Stmt>): Fallible<seq<Stmt>>
    decreases stmts
  {
    if stmts == [] then Ok([])
    else
      var s :- WalkStmt(h, stmts[0]);
      var rest :- WalkStmts(h, stmts[1..]);
      Ok([s] + rest)
  }

  function WalkItem(h: Hooks, item: ModuleItem): Fallible<ModuleItem> {
    match item
    case ExportDefaultExpr(e) =>
      var e' :- WalkExpr(h, e);
      Ok(ExportDefaultExpr(e'))
    case OtherModuleDecl(_) => Ok(item)
    case StmtItem(s) =>
      var s' :- WalkStmt(h, s);
      Ok(StmtItem(s'))
  }

  function WalkItems(h: Hooks, items: seq<ModuleItem>): Fallible<seq<ModuleItem>> {
    if items == [] then Ok([])
    else
      var item :- WalkItem(h, items[0]);
      var rest :- WalkItems(h, items[1..]);
      Ok([item] + rest)
  }
}

/** With hooks that never panic, walking never panics. */
module WalkTotal {
  import opened Outcomes
  import opened JsAst
  import opened Walk

  lemma {:induction false} ExprOk(h: Hooks, e: Expr)
    requires NeverPanics(h)
    ensures WalkExpr(h, e).Ok?
    decreases e, 1
  {
    if h.onExpr(e).None? {
      ExprChildrenOk(h, e);
    }
  }

  lemma {:induction false} ExprChildrenOk(h: Hooks, e: Expr)
    requires NeverPanics(h)
    ensures WalkExprChildren(h, e).Ok?
    decreases e, 0
  {
    match e
    case Member(obj, prop) => ExprOk(h, obj); MemberPropOk(h, prop);
    case Call(callee, args) => CalleeOk(h, callee); ArgsOk(h, args);
    case Arrow(_, body, _, _) => ArrowBodyOk(h, body);
    case FnExpr(f) => FunctionOk(h, f);
    case Object(props) => PropsOk(h, props);
    case Array(elems) => ElemsOk(h, elems);
    case _ =>
  }

  lemma {:induction false} MemberPropOk(h: Hooks, p: MemberProp)
    requires NeverPanics(h)
    ensures WalkMemberProp(h, p).Ok?
    decreases p
  {
    if p.ComputedProp? { ExprOk(h, p.expr); }
  }

  lemma {:induction false} CalleeOk(h: Hooks, c: Callee)
    requires NeverPanics(h)
    ensures WalkCallee(h, c).Ok?
    decreases c
  {
    if c.ExprCallee? { ExprOk(h, c.expr); }
  }

  lemma {:induction false} ArgOk(h: Hooks, a: ExprOrSpread)
    requires NeverPanics(h)
    ensures WalkArg(h, a).Ok?
    decreases a
  {
    ExprOk(h, a.expr);
  }

  lemma {:induction false} ArgsOk(h: Hooks, args: seq<ExprOrSpread>)
    requires NeverPanics(h)
    ensures WalkArgs(h, args).Ok?
    decreases args
  {
    if args != [] { ArgOk(h, args[0]); ArgsOk(h, args[1..]); }
  }

  lemma {:induction false} ElemOk(h: Hooks, elem: Option<ExprOrSpread>)
    requires NeverPanics(h)
    ensures WalkElem(h, elem).Ok?
    decreases elem
  {
    if elem.Some? { ArgOk(h, elem.value); }
  }

  lemma {:induction false} ElemsOk(h: Hooks, elems: seq<Option<ExprOrSpread>>)
    requires NeverPanics(h)
    ensures WalkElems(h, elems).Ok?
    decreases elems
  {
    if elems != [] { ElemOk(h, elems[0]); ElemsOk(h, elems[1..]); }
  }

  lemma {:induction false} ArrowBodyOk(h: Hooks, b: ArrowBody)
    requires NeverPanics(h)
    ensures WalkArrowBody(h, b).Ok?
    decreases b
  {
    match b
    case BlockBody(stmts) => StmtsOk(h, stmts);
    case ExprBody(e) => ExprOk(h, e);
  }

  lemma {:induction false} BlockOk(h: Hooks, b: BlockStmt)
    requires NeverPanics(h)
    ensures WalkBlock(h, b).Ok?
    decreases b
  {
    StmtsOk(h, b.stmts);
  }

  lemma {:induction false} BodyOk(h: Hooks, body: Option<BlockStmt>)
    requires NeverPanics(h)
    ensures WalkBody(h, body).Ok?
    decreases body
  {
    if body.Some? { BlockOk(h, body.value); }
  }

  lemma {:induction false} FunctionOk(h: Hooks, f: Function)
    requires NeverPanics(h)
    ensures WalkFunction(h, f).Ok?
    decreases f
  {
    BodyOk(h, f.body);
  }

  lemma {:induction false} PropNameOk(h: Hooks, k: PropName)
    requires NeverPanics(h)
    ensures WalkPropName(h, k).Ok?
    decreases k
  {
    if k.ComputedKey? { ExprOk(h, k.expr); }
  }

  lemma {:induction false} PropOk(h: Hooks, p: Prop)
    requires NeverPanics(h)
    ensures WalkProp(h, p).Ok?
    decreases p, 1
  {
    if h.onProp(p).None? {
      PropChildrenOk(h, p);
    }
  }

  lemma {:induction false} PropChildrenOk(h: Hooks, p: Prop)
    requires NeverPanics(h)
    ensures WalkPropChildren(h, p).Ok?
    decreases p, 0
  {
    match p
    case Shorthand(_) =>
    case KeyValue(key, value) => PropNameOk(h, key); ExprOk(h, value);
    case Assign(_, value) => ExprOk(h, value);
    case Getter(key, body) => PropNameOk(h, key); BodyOk(h, body);
    case Setter(key, _, body) => PropNameOk(h, key); BodyOk(h, body);
    case Method(key, f) => PropNameOk(h, key); FunctionOk(h, f);
  }

  lemma {:induction false} PropOrSpreadOk(h: Hooks, p: PropOrSpread)
    requires NeverPanics(h)
    ensures WalkPropOrSpread(h, p).Ok?
    decreases p
  {
    match p
    case PropItem(prop) => PropOk(h, prop);
    case Spread(e) => ExprOk(h, e);
  }

  lemma {:induction false} PropsOk(h: Hooks, props: seq<PropOrSpread>)
    requires NeverPanics(h)
    ensures WalkProps(h, props).Ok?
    decreases props
  {
    if props != [] { PropOrSpreadOk(h, props[0]); PropsOk(h, props[1..]); }
  }

  lemma {:induction false} DeclaratorOk(h: Hooks, d: VarDeclarator)
    requires NeverPanics(h)
    ensures WalkDeclarator(h, d).Ok?
    decreases d
  {
    if d.init.Some? { ExprOk(h, d.init.value); }
  }

  lemma {:induction false} DeclaratorsOk(h: Hooks, ds: seq<VarDeclarator>)
    requires NeverPanics(h)
    ensures WalkDeclarators(h, ds).Ok?
    decreases ds
  {
    if ds != [] { DeclaratorOk(h, ds[0]); DeclaratorsOk(h, ds[1..]); }
  }

  lemma {:induction false} StmtOk(h: Hooks, s: Stmt)
    requires NeverPanics(h)
    ensures WalkStmt(h, s).Ok?
    decreases s
  {
    match s
    case ReturnStmt(Some(e)) => ExprOk(h, e);
    case VarDeclStmt(_, decls) => DeclaratorsOk(h, decls);
    case FnDeclStmt(FnDecl(_, f)) => FunctionOk(h, f);
    case ExprStmt(e) => ExprOk(h, e);
    case _ =>
  }

  lemma {:induction false} StmtsOk(h: Hooks, stmts: seq<Stmt>)
    requires NeverPanics(h)
    ensures WalkStmts(h, stmts).Ok?
    decreases stmts
  {
    if stmts != [] { StmtOk(h, stmts[0]); StmtsOk(h, stmts[1..]); }
  }

  lemma {:induction false} ItemOk(h: Hooks, item: ModuleItem)
    requires NeverPanics(h)
    ensures WalkItem(h, item).Ok?
  {
    match item
    case ExportDefaultExpr(e) => ExprOk(h, e);
    case OtherModuleDecl(_) =>
    case StmtItem(s) => StmtOk(h, s);
  }
}

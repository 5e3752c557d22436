/** The receiver rewrite of `src/visitor/mod.rs`: the `visit_mut_call_expr`
    and `visit_mut_member_expr` hooks, and their effect on a whole module.

    Neither hook visits its node's children, so the walk stops at the first
    call or member expression on every path: the arguments of a call and the
    object of a member expression are never rewritten. */
module Rewriter {
  import opened Outcomes
  import opened JsAst
  import opened Walk
  import WalkTotal

  /** `this.name` with an identifier property. */
  predicate IsThisAccess(e: Expr) {
    e.Member? && e.obj.This? && e.prop.IdentProp?
  }

  predicate IsThisCallee(c: Callee) {
    c.ExprCallee? && IsThisAccess(c.expr)
  }

  /** `visit_mut_call_expr`: the callee `this.m` becomes the bare identifier
      `m`, whatever `m` is; nothing else about the call changes. */
  function RewriteCall(callee: Callee, args: seq<ExprOrSpread>): (r: Expr)
    ensures r.Call? && r.args == args
    ensures IsThisCallee(callee) ==> r.callee == ExprCallee(Ident(callee.expr.prop.name))
    ensures !IsThisCallee(callee) ==> r.callee == callee
    ensures !IsThisCallee(r.callee)
  {
    match callee
    case ExprCallee(Member(This, IdentProp(m))) => Call(ExprCallee(Ident(m)), args)
    case _ => Call(callee, args)
  }

  /** `props_set` holds `name`. */
  predicate IsProp(propsSet: Option<set<string>>, name: string) {
    propsSet.Some? && name in propsSet.value
  }

  /** `visit_mut_member_expr`: `this.p` becomes `props.p` for a declared prop,
      any other `this.x` becomes `x.value`, and every other member expression
      is left as it is. */
  function RewriteMember(propsSet: Option<set<string>>, obj: Expr, prop: MemberProp): (r: Expr)
    ensures r.Member?
    ensures !IsThisAccess(r)
    ensures !IsThisAccess(Member(obj, prop)) ==> r == Member(obj, prop)
    ensures IsThisAccess(Member(obj, prop)) && IsProp(propsSet, prop.name) ==>
              r == Member(Ident("props"), prop)
    ensures IsThisAccess(Member(obj, prop)) && !IsProp(propsSet, prop.name) ==>
              r == Member(Ident(prop.name), IdentProp("value"))
  {
    match (obj, prop)
    case (This, IdentProp(name)) =>
      if propsSet.Some? && name in propsSet.value then Member(Ident("props"), prop)
      else Member(Ident(name), IdentProp("value"))
    case _ => Member(obj, prop)
  }

  function ReceiverHook(propsSet: Option<set<string>>, e: Expr): Option<Fallible<Expr>> {
    match e
    case Call(callee, args) => Some(Ok(RewriteCall(callee, args)))
    case Member(obj, prop) => Some(Ok(RewriteMember(propsSet, obj, prop)))
    case _ => None
  }

  /** The visitor's hooks: calls and member expressions; no property hook. */
  function ReceiverHooks(propsSet: Option<set<string>>): (h: Hooks)
    ensures NeverPanics(h)
  {
    Hooks(e => ReceiverHook(propsSet, e), p => None)
  }

  /** One module item after `module.visit_mut_children_with(self)`. */
  function RewriteItem(propsSet: Option<set<string>>, item: ModuleItem): (r: ModuleItem)
    ensures WalkItem(ReceiverHooks(propsSet), item) == Ok(r)
  {
    WalkTotal.ItemOk(ReceiverHooks(propsSet), item);
    WalkItem(ReceiverHooks(propsSet), item).value
  }

  function RewriteItems(propsSet: Option<set<string>>, items: seq<ModuleItem>): (r: seq<ModuleItem>)
    ensures |r| == |items|
    ensures forall i :: 0 <= i < |items| ==> r[i] == RewriteItem(propsSet, items[i])
  {
    seq(|items|, i requires 0 <= i < |items| => RewriteItem(propsSet, items[i]))
  }

  /** Rewriting keeps each item's kind, and an `export default {…}` stays an
      object-literal default export. */
  lemma RewriteItemKeepsShape(propsSet: Option<set<string>>, item: ModuleItem)
    ensures var r := RewriteItem(propsSet, item);
      && r.ExportDefaultExpr? == item.ExportDefaultExpr?
      && (item.ExportDefaultExpr? ==> r.expr.Object? == item.expr.Object?)
  {
    var h := ReceiverHooks(propsSet);
    if item.ExportDefaultExpr? && !item.expr.Call? && !item.expr.Member? {
      WalkTotal.ExprChildrenOk(h, item.expr);
    }
  }
}

/** Rewriting an already rewritten tree changes nothing: every `this.x` the
    walk reaches is gone after one pass, and what it cannot reach it never
    reaches. */
module RewriterIdempotence {
  import opened Outcomes
  import opened JsAst
  import opened Walk
  import opened Rewriter

  lemma {:induction false} Expr(ps: Option<set<string>>, e: JsAst.Expr)
    ensures var h := ReceiverHooks(ps); var r := WalkExpr(h, e);
      r.Ok? && WalkExpr(h, r.value) == r
    decreases e, 1
  {
    var h := ReceiverHooks(ps);
    if !e.Call? && !e.Member? {
      ExprChildren(ps, e);
    }
  }

  lemma {:induction false} ExprChildren(ps: Option<set<string>>, e: JsAst.Expr)
    requires !e.Call? && !e.Member?
    ensures var h := ReceiverHooks(ps); var r := WalkExprChildren(h, e);
      r.Ok? && !r.value.Call? && !r.value.Member? && WalkExprChildren(h, r.value) == r
    decreases e, 0
  {
    match e
    case Arrow(_, body, _, _) => ArrowBody(ps, body);
    case FnExpr(f) => Function(ps, f);
    case Object(props) => Props(ps, props);
    case Array(elems) => Elems(ps, elems);
    case _ =>
  }

  lemma {:induction false} Arg(ps: Option<set<string>>, a: ExprOrSpread)
    ensures var h := ReceiverHooks(ps); var r := WalkArg(h, a);
      r.Ok? && WalkArg(h, r.value) == r
    decreases a
  {
    Expr(ps, a.expr);
  }

  lemma {:induction false} Elem(ps: Option<set<string>>, elem: Option<ExprOrSpread>)
    ensures var h := ReceiverHooks(ps); var r := WalkElem(h, elem);
      r.Ok? && WalkElem(h, r.value) == r
    decreases elem
  {
    if elem.Some? { Arg(ps, elem.value); }
  }

  lemma {:induction false} Elems(ps: Option<set<string>>, elems: seq<Option<ExprOrSpread>>)
    ensures var h := ReceiverHooks(ps); var r := WalkElems(h, elems);
      r.Ok? && WalkElems(h, r.value) == r
    decreases elems
  {
    if elems != [] {
      Elem(ps, elems[0]);
      Elems(ps, elems[1..]);
      var h := ReceiverHooks(ps);
      var r := WalkElems(h, elems).value;
      assert r[0] == WalkElem(h, elems[0]).value && r[1..] == WalkElems(h, elems[1..]).value;
    }
  }

  lemma {:induction false} ArrowBody(ps: Option<set<string>>, b: JsAst.ArrowBody)
    ensures var h := ReceiverHooks(ps); var r := WalkArrowBody(h, b);
      r.Ok? && WalkArrowBody(h, r.value) == r
    decreases b
  {
    match b
    case BlockBody(stmts) => Stmts(ps, stmts);
    case ExprBody(e) => Expr(ps, e);
  }

  lemma {:induction false} Block(ps: Option<set<string>>, b: BlockStmt)
    ensures var h := ReceiverHooks(ps); var r := WalkBlock(h, b);
      r.Ok? && WalkBlock(h, r.value) == r
    decreases b
  {
    Stmts(ps, b.stmts);
  }

  lemma {:induction false} Body(ps: Option<set<string>>, body: Option<BlockStmt>)
    ensures var h := ReceiverHooks(ps); var r := WalkBody(h, body);
      r.Ok? && WalkBody(h, r.value) == r
    decreases body
  {
    if body.Some? { Block(ps, body.value); }
  }

  lemma {:induction false} Function(ps: Option<set<string>>, f: JsAst.Function)
    ensures var h := ReceiverHooks(ps); var r := WalkFunction(h, f);
      r.Ok? && WalkFunction(h, r.value) == r
    decreases f
  {
    Body(ps, f.body);
  }

  lemma {:induction false} PropName(ps: Option<set<string>>, k: JsAst.PropName)
    ensures var h := ReceiverHooks(ps); var r := WalkPropName(h, k);
      r.Ok? && WalkPropName(h, r.value) == r
    decreases k
  {
    if k.ComputedKey? { Expr(ps, k.expr); }
  }

  lemma {:induction false} Prop(ps: Option<set<string>>, p: JsAst.Prop)
    ensures var h := ReceiverHooks(ps); var r := WalkProp(h, p);
      r.Ok? && WalkProp(h, r.value) == r
    decreases p
  {
    match p
    case Shorthand(_) =>
    case KeyValue(key, value) => PropName(ps, key); Expr(ps, value);
    case Assign(_, value) => Expr(ps, value);
    case Getter(key, body) => PropName(ps, key); Body(ps, body);
    case Setter(key, _, body) => PropName(ps, key); Body(ps, body);
    case Method(key, f) => PropName(ps, key); Function(ps, f);
  }

  lemma {:induction false} PropOrSpread(ps: Option<set<string>>, p: JsAst.PropOrSpread)
    ensures var h := ReceiverHooks(ps); var r := WalkPropOrSpread(h, p);
      r.Ok? && WalkPropOrSpread(h, r.value) == r
    decreases p
  {
    match p
    case PropItem(prop) => Prop(ps, prop);
    case Spread(e) => Expr(ps, e);
  }

  lemma {:induction false} Props(ps: Option<set<string>>, props: seq<JsAst.PropOrSpread>)
    ensures var h := ReceiverHooks(ps); var r := WalkProps(h, props);
      r.Ok? && WalkProps(h, r.value) == r
    decreases props
  {
    if props != [] {
      PropOrSpread(ps, props[0]);
      Props(ps, props[1..]);
      var h := ReceiverHooks(ps);
      var r := WalkProps(h, props).value;
      assert r[0] == WalkPropOrSpread(h, props[0]).value && r[1..] == WalkProps(h, props[1..]).value;
    }
  }

  lemma {:induction false} Declarator(ps: Option<set<string>>, d: VarDeclarator)
    ensures var h := ReceiverHooks(ps); var r := WalkDeclarator(h, d);
      r.Ok? && WalkDeclarator(h, r.value) == r
    decreases d
  {
    if d.init.Some? { Expr(ps, d.init.value); }
  }

  lemma {:induction false} Declarators(ps: Option<set<string>>, ds: seq<VarDeclarator>)
    ensures var h := ReceiverHooks(ps); var r := WalkDeclarators(h, ds);
      r.Ok? && WalkDeclarators(h, r.value) == r
    decreases ds
  {
    if ds != [] {
      Declarator(ps, ds[0]);
      Declarators(ps, ds[1..]);
      var h := ReceiverHooks(ps);
      var r := WalkDeclarators(h, ds).value;
      assert r[0] == WalkDeclarator(h, ds[0]).value && r[1..] == WalkDeclarators(h, ds[1..]).value;
    }
  }

  lemma {:induction false} Stmt(ps: Option<set<string>>, s: JsAst.Stmt)
    ensures var h := ReceiverHooks(ps); var r := WalkStmt(h, s);
      r.Ok? && WalkStmt(h, r.value) == r
    decreases s
  {
    match s
    case ReturnStmt(Some(e)) => Expr(ps, e);
    case VarDeclStmt(_, decls) => Declarators(ps, decls);
    case FnDeclStmt(FnDecl(_, f)) => Function(ps, f);
    case ExprStmt(e) => Expr(ps, e);
    case _ =>
  }

  lemma {:induction false} Stmts(ps: Option<set<string>>, stmts: seq<JsAst.Stmt>)
    ensures var h := ReceiverHooks(ps); var r := WalkStmts(h, stmts);
      r.Ok? && WalkStmts(h, r.value) == r
    decreases stmts
  {
    if stmts != [] {
      Stmt(ps, stmts[0]);
      Stmts(ps, stmts[1..]);
      var h := ReceiverHooks(ps);
      var r := WalkStmts(h, stmts).value;
      assert r[0] == WalkStmt(h, stmts[0]).value && r[1..] == WalkStmts(h, stmts[1..]).value;
    }
  }

  /** Rewriting a rewritten module item changes nothing. */
  lemma RewriteItemIdempotent(ps: Option<set<string>>, item: ModuleItem)
    ensures RewriteItem(ps, RewriteItem(ps, item)) == RewriteItem(ps, item)
  {
    match item
    case ExportDefaultExpr(e) => Expr(ps, e);
    case OtherModuleDecl(_) =>
    case StmtItem(s) => Stmt(ps, s);
  }
}

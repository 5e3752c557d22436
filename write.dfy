/** The assembler (`src/visitor/write.rs`): the `setup(props, ctx)` method with
    its implicit `return { … }`, and the `defineComponent({ … })` export. */
module Write {
  import opened Outcomes
  import opened JsAst
  import opened Vue
  import opened Transform

  /** Names bound by identifier-pattern declarators; destructuring binds none here. */
  function DeclaratorNames(ds: seq<VarDeclarator>): seq<string> {
    if ds == [] then []
    else
      var d := ds[|ds| - 1];
      DeclaratorNames(ds[..|ds| - 1]) + (if d.name.IdentPat? then [d.name.name] else [])
  }

  /** The names one top-level statement declares: a class, a function, or the
      identifier declarators of a variable declaration. */
  function StmtNames(s: Stmt): seq<string> {
    match s
    case ClassDeclStmt(n) => [n]
    case FnDeclStmt(d) => [d.ident]
    case VarDeclStmt(_, ds) => DeclaratorNames(ds)
    case _ => []
  }

  /** Every name the statements declare, in order of occurrence. */
  function DeclaredNames(stmts: seq<Stmt>): seq<string> {
    if stmts == [] then [] else DeclaredNames(stmts[..|stmts| - 1]) + StmtNames(stmts[|stmts| - 1])
  }

  /** `return { a, b, … };` */
  function ReturnOf(names: seq<string>): Stmt {
    ReturnStmt(Some(ShorthandObject(names)))
  }

  /** The method member `setup(props, ctx) { stmts }` (`generate_setup_shell`):
      a plain method whose body is the given statements and nothing more. */
  function SetupMethod(stmts: seq<Stmt>): (r: MethodProp)
    ensures r.key == IdentKey("setup") && r.func.params == [IdentPat("props"), IdentPat("ctx")]
    ensures !r.func.isAsync && !r.func.isGenerator
    ensures r.func.body == Some(BlockStmt(stmts))
  {
    Method(IdentKey("setup"), Function([IdentPat("props"), IdentPat("ctx")], Some(BlockStmt(stmts)), false, false))
  }

  /** `write_setup`: the statements, then the return of every declared name. */
  method WriteSetup(stmts: seq<Stmt>) returns (setup: MethodProp)
    ensures setup == SetupMethod(stmts + [ReturnOf(DeclaredNames(stmts))])
    ensures setup.key == IdentKey("setup") && setup.func.params == [IdentPat("props"), IdentPat("ctx")]
    ensures !setup.func.isAsync && !setup.func.isGenerator
    ensures setup.func.body.Some? && |setup.func.body.value.stmts| == |stmts| + 1
    ensures setup.func.body.value.stmts[..|stmts|] == stmts
    ensures setup.func.body.value.stmts[|stmts|] == ReturnOf(DeclaredNames(stmts))
  {
    var declarations: seq<string> := [];
    for i := 0 to |stmts|
      invariant declarations == DeclaredNames(stmts[..i])
    {
      assert stmts[..i + 1][..i] == stmts[..i];
      match stmts[i]
      case ClassDeclStmt(n) =>
        declarations := declarations + [n];
      case FnDeclStmt(d) =>
        declarations := declarations + [d.ident];
      case VarDeclStmt(_, ds) =>
        declarations := declarations + DeclaratorNames(ds);
      case _ =>
    }
    assert stmts[..|stmts|] == stmts;
    var body := stmts + [ReturnStmt(Some(ShorthandObject(declarations)))];
    setup := Method(IdentKey("setup"), Function([IdentPat("props"), IdentPat("ctx")], Some(BlockStmt(body)), false, false));
  }

  /** An absent group contributes no statements. */
  function Group(s: Option<seq<Stmt>>): seq<Stmt> {
    if s.Some? then s.value else []
  }

  /** The setup body before its return: inject, refs, computed, watch, created,
      methods, mounted. */
  function SetupStatements(c: CompositionComponent): seq<Stmt> {
    Group(c.injectStmts) + Group(c.refStmts) + Group(c.computed) + Group(c.watch)
    + Group(c.createdStmts) + Group(c.methodDecls) + Group(c.mounted)
  }

  /** The export object's members before `setup`: components, then props. */
  function ExportHead(c: CompositionComponent): seq<PropOrSpread> {
    (if c.components.Some? then [IdentKeyValue("components", c.components.value)] else [])
    + (if c.props.Some? then [IdentKeyValue("props", c.props.value)] else [])
  }

  /** The `defineComponent({ … })` call for a Composition record. */
  function ComponentExpr(c: CompositionComponent): Expr {
    var stmts := SetupStatements(c);
    CallNamed("defineComponent", [Object(ExportHead(c) + [PropItem(SetupMethod(stmts + [ReturnOf(DeclaredNames(stmts))]))])])
  }

  /** `write_composition_component`. */
  method WriteCompositionComponent(c: CompositionComponent) returns (item: ModuleItem)
    ensures item == ExportDefaultExpr(ComponentExpr(c))
  {
    var exportProps: seq<PropOrSpread> := [];
    if c.components.Some? {
      exportProps := exportProps + [IdentKeyValue("components", c.components.value)];
    }
    if c.props.Some? {
      exportProps := exportProps + [IdentKeyValue("props", c.props.value)];
    }
    assert exportProps == ExportHead(c);
    var setupStmts: seq<Stmt> := [];
    if c.injectStmts.Some? { setupStmts := setupStmts + c.injectStmts.value; }
    assert setupStmts == Group(c.injectStmts);
    if c.refStmts.Some? { setupStmts := setupStmts + c.refStmts.value; }
    assert setupStmts == Group(c.injectStmts) + Group(c.refStmts);
    if c.computed.Some? { setupStmts := setupStmts + c.computed.value; }
    assert setupStmts == Group(c.injectStmts) + Group(c.refStmts) + Group(c.computed);
    if c.watch.Some? { setupStmts := setupStmts + c.watch.value; }
    assert setupStmts == Group(c.injectStmts) + Group(c.refStmts) + Group(c.computed) + Group(c.watch);
    if c.createdStmts.Some? { setupStmts := setupStmts + c.createdStmts.value; }
    assert setupStmts == Group(c.injectStmts) + Group(c.refStmts) + Group(c.computed) + Group(c.watch)
      + Group(c.createdStmts);
    if c.methodDecls.Some? { setupStmts := setupStmts + c.methodDecls.value; }
    assert setupStmts == Group(c.injectStmts) + Group(c.refStmts) + Group(c.computed) + Group(c.watch)
      + Group(c.createdStmts) + Group(c.methodDecls);
    if c.mounted.Some? { setupStmts := setupStmts + c.mounted.value; }
    assert setupStmts == SetupStatements(c);
    var setup := WriteSetup(setupStmts);
    exportProps := exportProps + [PropItem(setup)];
    item := ExportDefaultExpr(CallNamed("defineComponent", [Object(exportProps)]));
  }

  // ------------------------------------------------------------------ lemmas

  lemma DeclaredNamesSnoc(s: seq<Stmt>, x: Stmt)
    ensures DeclaredNames(s + [x]) == DeclaredNames(s) + StmtNames(x)
  {
    var t := s + [x];
    assert t[..|t| - 1] == s;
  }

  lemma DeclaredNamesAppendStep(a: seq<Stmt>, init: seq<Stmt>, last: Stmt)
    requires DeclaredNames(a + init) == DeclaredNames(a) + DeclaredNames(init)
    ensures DeclaredNames(a + (init + [last])) == DeclaredNames(a) + DeclaredNames(init + [last])
  {
    ConcatAssoc(a, init, [last]);
    DeclaredNamesSnoc(a + init, last);
    DeclaredNamesSnoc(init, last);
    ConcatAssoc(DeclaredNames(a), DeclaredNames(init), StmtNames(last));
  }

  lemma ConcatAssoc<T>(x: seq<T>, y: seq<T>, z: seq<T>)
    ensures x + y + z == x + (y + z)
  {
  }

  lemma {:induction false} DeclaredNamesAppend(a: seq<Stmt>, b: seq<Stmt>)
    ensures DeclaredNames(a + b) == DeclaredNames(a) + DeclaredNames(b)
    decreases |b|
  {
    if b == [] {
      assert a + b == a;
    } else {
      var n := |b| - 1;
      assert b == b[..n] + [b[n]];
      DeclaredNamesAppend(a, b[..n]);
      DeclaredNamesAppendStep(a, b[..n], b[n]);
    }
  }

  /** Every returned name is declared by some statement. */
  lemma {:induction false} DeclaredNamesSound(stmts: seq<Stmt>, x: string)
    requires x in DeclaredNames(stmts)
    ensures exists i :: 0 <= i < |stmts| && x in StmtNames(stmts[i])
  {
    var n := |stmts| - 1;
    var pre := stmts[..n];
    if x in DeclaredNames(pre) {
      DeclaredNamesSound(pre, x);
      var i :| 0 <= i < |pre| && x in StmtNames(pre[i]);
      assert stmts[i] == pre[i];
    } else {
      assert x in StmtNames(stmts[n]);
    }
  }

  /** Every name a statement declares is returned. */
  lemma {:induction false} DeclaredNamesComplete(stmts: seq<Stmt>, i: nat, x: string)
    requires i < |stmts| && x in StmtNames(stmts[i])
    ensures x in DeclaredNames(stmts)
  {
    var n := |stmts| - 1;
    var pre := stmts[..n];
    assert DeclaredNames(stmts) == DeclaredNames(pre) + StmtNames(stmts[n]);
    if i < n {
      assert pre[i] == stmts[i];
      DeclaredNamesComplete(pre, i, x);
      InLeftOfConcat(x, DeclaredNames(pre), StmtNames(stmts[n]));
    } else {
      InRightOfConcat(x, DeclaredNames(pre), StmtNames(stmts[n]));
    }
  }

  lemma InLeftOfConcat<T>(x: T, a: seq<T>, b: seq<T>)
    requires x in a
    ensures x in a + b
  {
    var j :| 0 <= j < |a| && a[j] == x;
    assert (a + b)[j] == x;
  }

  lemma InRightOfConcat<T>(x: T, a: seq<T>, b: seq<T>)
    requires x in b
    ensures x in a + b
  {
    var j :| 0 <= j < |b| && b[j] == x;
    assert (a + b)[|a| + j] == x;
  }

  /** The returned names are those of each group in turn; the groups'
      statements themselves come out unchanged, in the fixed order. */
  lemma ReturnedNamesByGroup(c: CompositionComponent)
    ensures DeclaredNames(SetupStatements(c)) ==
      DeclaredNames(Group(c.injectStmts)) + DeclaredNames(Group(c.refStmts)) + DeclaredNames(Group(c.computed))
      + DeclaredNames(Group(c.watch)) + DeclaredNames(Group(c.createdStmts)) + DeclaredNames(Group(c.methodDecls))
      + DeclaredNames(Group(c.mounted))
  {
    var a := Group(c.injectStmts) + Group(c.refStmts);
    var b := a + Group(c.computed);
    var d := b + Group(c.watch);
    var e := d + Group(c.createdStmts);
    var f := e + Group(c.methodDecls);
    DeclaredNamesAppend(Group(c.injectStmts), Group(c.refStmts));
    DeclaredNamesAppend(a, Group(c.computed));
    DeclaredNamesAppend(b, Group(c.watch));
    DeclaredNamesAppend(d, Group(c.createdStmts));
    DeclaredNamesAppend(e, Group(c.methodDecls));
    DeclaredNamesAppend(f, Group(c.mounted));
  }

  /** `const k = e;` declares exactly `k`. */
  lemma ConstDeclNames(k: string, e: Expr)
    ensures DeclaredNames([ConstDecl(k, e)]) == [k]
  {
    var ds := [VarDeclarator(IdentPat(k), Some(e))];
    assert ds[..0] == [];
    assert DeclaratorNames(ds) == DeclaratorNames([]) + [k];
    var stmts := [ConstDecl(k, e)];
    assert stmts[..0] == [];
    assert DeclaredNames(stmts) == DeclaredNames([]) + StmtNames(stmts[0]);
  }

  /** Appending `const k = e;` appends exactly `k` to the declared names. */
  lemma ConstDeclSnoc(stmts: seq<Stmt>, k: string, e: Expr)
    ensures DeclaredNames(stmts + [ConstDecl(k, e)]) == DeclaredNames(stmts) + [k]
  {
    var ds := [VarDeclarator(IdentPat(k), Some(e))];
    assert ds[..0] == [];
    assert DeclaratorNames(ds) == DeclaratorNames([]) + [k];
    DeclaredNamesSnoc(stmts, ConstDecl(k, e));
  }

  /** The refs declare exactly the data keys, in order. */
  lemma {:induction false} RefNames(ps: seq<PropOrSpread>)
    requires RefStmts(ps).Ok?
    ensures |DeclaredNames(RefStmts(ps).value)| == |ps|
    ensures forall i :: 0 <= i < |ps| ==> DeclaredNames(RefStmts(ps).value)[i] == ps[i].prop.key.name
  {
    if ps != [] {
      var n := |ps| - 1;
      assert RefStmts(ps[..n]).Ok?;
      RefNames(ps[..n]);
      assert RefStmts(ps).value == RefStmts(ps[..n]).value + [RefStmts(ps).value[n]];
      DeclaredNamesAppend(RefStmts(ps[..n]).value, [RefStmts(ps).value[n]]);
      ConstDeclNames(ps[n].prop.key.name, CallNamed("ref", [ps[n].prop.value]));
      assert forall i :: 0 <= i < n ==> ps[..n][i] == ps[i];
    }
  }

  /** Watch calls declare nothing, so watchers are never returned. */
  lemma {:induction false} WatchNamesEmpty(ds: seq<WatchDecl>)
    requires TransformWatch(ds).Ok?
    ensures DeclaredNames(TransformWatch(ds).value) == []
  {
    if ds != [] {
      var n := |ds| - 1;
      var prev, last := TransformWatch(ds[..n]).value, LowerWatch(ds[n]).value;
      assert TransformWatch(ds).value == prev + last;
      WatchNamesEmpty(ds[..n]);
      DeclaredNamesAppend(prev, last);
      if last != [] {
        assert last == [] + [last[0]];
        DeclaredNamesSnoc([], last[0]);
      }
    }
  }

  /** The names of the computed entries that have a body, in order. */
  function BodiedNames(ds: seq<FnDecl>): seq<string> {
    if ds == [] then []
    else BodiedNames(ds[..|ds| - 1]) + (if ds[|ds| - 1].func.body.Some? then [ds[|ds| - 1].ident] else [])
  }

  /** Each computed entry with a body is returned under its own name. */
  lemma {:induction false} ComputedNames(ds: seq<FnDecl>)
    requires TransformComputed(ds).Ok?
    ensures DeclaredNames(TransformComputed(ds).value) == BodiedNames(ds)
  {
    if ds != [] {
      var n := |ds| - 1;
      ComputedNames(ds[..n]);
      assert TransformComputed(ds).value == TransformComputed(ds[..n]).value + LowerComputed(ds[n]).value;
      DeclaredNamesAppend(TransformComputed(ds[..n]).value, LowerComputed(ds[n]).value);
      if ds[n].func.body.Some? {
        var a :| LowerComputed(ds[n]).value == [ConstDecl(ds[n].ident, CallNamed("computed", [Arrow([], a, false, false)]))];
        ConstDeclNames(ds[n].ident, CallNamed("computed", [Arrow([], a, false, false)]));
      } else {
        assert DeclaredNames(LowerComputed(ds[n]).value) == [];
      }
    }
  }

  /** Every method is returned under its own name, in order. */
  lemma {:induction false} MethodNames(ds: seq<FnDecl>)
    ensures DeclaredNames(MethodStmts(ds)) == seq(|ds|, i requires 0 <= i < |ds| => ds[i].ident)
  {
    if ds != [] {
      var n := |ds| - 1;
      MethodNames(ds[..n]);
      assert MethodStmts(ds) == MethodStmts(ds[..n]) + [FnDeclStmt(ds[n])];
      DeclaredNamesAppend(MethodStmts(ds[..n]), [FnDeclStmt(ds[n])]);
    }
  }

  /** `onMounted(…)` declares nothing. */
  lemma MountedNamesEmpty(f: Function)
    ensures DeclaredNames(TransformMounted(f)) == []
  {
    if f.body.Some? {
      assert TransformMounted(f)[..0] == [];
    }
  }

  /** The export is `defineComponent` applied to exactly one object literal whose
      last member is `setup`, preceded by components and props when present. */
  lemma ComponentExprShape(c: CompositionComponent)
    ensures var e := ComponentExpr(c);
      && e.Call? && e.callee == ExprCallee(Ident("defineComponent")) && |e.args| == 1
      && !e.args[0].spread && e.args[0].expr.Object?
      && var ps := e.args[0].expr.props;
      && |ps| == (if c.components.Some? then 1 else 0) + (if c.props.Some? then 1 else 0) + 1
      && ps[|ps| - 1].PropItem? && ps[|ps| - 1].prop.Method? && ps[|ps| - 1].prop.key == IdentKey("setup")
      && (c.components.Some? ==> ps[0] == IdentKeyValue("components", c.components.value))
      && (c.props.Some? ==> ps[|ps| - 2] == IdentKeyValue("props", c.props.value))
  {
  }
}

/** The earlier data-only transform (`src/visitor.rs`): when the module has an
    `export default {…}`, every `data() {…}` method member the walk reaches is
    renamed `setup` and its body replaced by the refs and their return. */
module SetupRename {
  import opened Outcomes
  import opened JsAst
  import opened Walk
  import opened Transform
  import opened Write
  import opened Visitor

  /** What `data_to_refs` of `src/visitor.rs` computes: the refs of
      `transform_data`, then `return { k1, k2, … }` of the names they declare. */
  function SetupFromData(stmts: seq<Stmt>): Fallible<seq<Stmt>> {
    var refs :- DataRefs(stmts);
    Ok(refs + [ReturnOf(DeclaredNames(refs))])
  }

  /** `data_to_refs` of `src/visitor.rs`: finds the returned object, then
      collects the ref names alongside the ref declarations. */
  method DataToRefs(stmts: seq<Stmt>) returns (r: Fallible<seq<Stmt>>)
    ensures r == SetupFromData(stmts)
  {
    var ret := FirstReturnArg(stmts);
    if ret.None? {
      return Err(DataReturnNotFound);
    }
    if !ret.value.Object? {
      return Err(DataReturnNotObject);
    }
    var refs, refNames := CollectRefs(ret.value.props);
    if refs.Err? {
      return Err(refs.error);
    }
    return Ok(refs.value + [ReturnOf(refNames)]);
  }

  /** The loop of `data_to_refs`: one ref per property, and the names they bind. */
  method CollectRefs(props: seq<PropOrSpread>) returns (r: Fallible<seq<Stmt>>, refNames: seq<string>)
    ensures r == RefStmts(props)
    ensures r.Ok? ==> refNames == DeclaredNames(r.value)
  {
    refNames := [];
    var setup: seq<Stmt> := [];
    for i := 0 to |props|
      invariant RefStmts(props[..i]) == Ok(setup)
      invariant refNames == DeclaredNames(setup)
    {
      var p := props[i];
      RefStmtsStep(props, i, setup);
      if !(p.PropItem? && p.prop.KeyValue?) {
        return Err(DataPropNotKeyValue), refNames;
      }
      if !p.prop.key.IdentKey? {
        return Err(DataKeyNotIdent), refNames;
      }
      RefLoopStep(props, i, setup);
      refNames := refNames + [p.prop.key.name];
      setup := setup + [RefDecl(p.prop.key.name, p.prop.value)];
    }
    assert props[..|props|] == props;
    return Ok(setup), refNames;
  }

  /** One iteration of the loop of `data_to_refs`: the next ref, and its name. */
  lemma RefLoopStep(props: seq<PropOrSpread>, i: nat, setup: seq<Stmt>)
    requires i < |props| && IsRefSource(props[i]) && RefStmts(props[..i]) == Ok(setup)
    ensures var k, v := props[i].prop.key.name, props[i].prop.value;
      && RefStmts(props[..i + 1]) == Ok(setup + [RefDecl(k, v)])
      && DeclaredNames(setup + [RefDecl(k, v)]) == DeclaredNames(setup) + [k]
  {
    RefStmtsStep(props, i, setup);
    ConstDeclSnoc(setup, props[i].prop.key.name, CallNamed("ref", [props[i].prop.value]));
  }

  /** On success the output is one ref per property of the returned object, in
      order, then a single return whose shorthand names are exactly those keys
      in the same order: the property count plus one statements. */
  lemma SetupFromDataShape(stmts: seq<Stmt>)
    requires SetupFromData(stmts).Ok?
    ensures var props := FirstReturnArg(stmts).value.props; var r := SetupFromData(stmts).value;
      && |r| == |props| + 1
      && (forall i :: 0 <= i < |props| ==> r[i] == RefDecl(props[i].prop.key.name, props[i].prop.value))
      && r[|props|].ReturnStmt? && r[|props|].arg.Some? && r[|props|].arg.value.Object?
      && var names := r[|props|].arg.value.props;
      && |names| == |props|
      && forall i :: 0 <= i < |props| ==> names[i] == PropItem(Shorthand(props[i].prop.key.name))
  {
    var props := FirstReturnArg(stmts).value.props;
    RefNames(props);
  }

  /** `visit_mut_method_prop`: a `data` method with a body becomes `setup` with
      the refs and their return as its body; every other method member, and a
      body-less `data`, is left as it is. */
  function RenamedData(p: MethodProp): (r: Fallible<Prop>)
    ensures p.key != IdentKey("data") || p.func.body.None? ==> r == Ok(p)
    ensures p.key == IdentKey("data") && p.func.body.Some? ==>
      (r.Ok? <==> SetupFromData(p.func.body.value.stmts).Ok?)
    ensures r.Ok? && p.key == IdentKey("data") && p.func.body.Some? ==>
      && r.value.Method? && r.value.key == IdentKey("setup")
      && r.value.func.params == p.func.params
      && r.value.func.isAsync == p.func.isAsync && r.value.func.isGenerator == p.func.isGenerator
      && r.value.func.body == Some(BlockStmt(SetupFromData(p.func.body.value.stmts).value))
  {
    if p.key == IdentKey("data") && p.func.body.Some? then
      var stmts :- SetupFromData(p.func.body.value.stmts);
      Ok(Method(IdentKey("setup"), p.func.(body := Some(BlockStmt(stmts)))))
    else Ok(p)
  }

  /** `visit_mut_method_prop`, renaming in place. */
  method VisitMutMethodProp(p: MethodProp) returns (r: Fallible<Prop>)
    ensures r == RenamedData(p)
  {
    if p.key.IdentKey? && p.key.name == "data" && p.func.body.Some? {
      var stmts := DataToRefs(p.func.body.value.stmts);
      if stmts.Err? {
        return Err(stmts.error);
      }
      var key := IdentKey("setup");
      return Ok(Method(key, p.func.(body := Some(BlockStmt(stmts.value)))));
    }
    return Ok(p);
  }

  function RenameHook(p: Prop): Option<Fallible<Prop>> {
    if p.Method? then Some(RenamedData(p)) else None
  }

  /** The visitor of `src/visitor.rs`: only method members have a hook, and it
      does not descend into them. */
  function RenameHooks(): Hooks {
    Hooks(e => None, RenameHook)
  }

  /** `visit_mut_module` of `src/visitor.rs`: without an `export default {…}`
      the module is left completely unchanged. */
  function RenameModule(items: seq<ModuleItem>): (r: Fallible<seq<ModuleItem>>)
    ensures (forall j :: 0 <= j < |items| ==> !IsDefaultObject(items[j])) ==> r == Ok(items)
  {
    if FirstDefaultObject(items).Some? then WalkItems(RenameHooks(), items) else Ok(items)
  }
}

/** The transformer's state and driver (`src/visitor/mod.rs`, the methods of
    `src/visitor/process.rs`, and `transform_component` of
    `src/visitor/transform.rs`). The `Visitor` methods run the loops; each is
    proved against the fold in `Extract` or the lowering in `Transform`. */
module Visitor {
  import opened Outcomes
  import opened JsAst
  import opened Vue
  import opened Utils
  import opened Extract
  import opened Rewriter
  import opened Transform
  import opened Write

  // --------------------------------------------------- loops shared by both extractors

  /** The loop of `process_computed` and `process_methods`. */
  method CollectMethodDecls(obj: seq<PropOrSpread>) returns (decls: seq<FnDecl>)
    ensures decls == MethodDecls(obj)
  {
    decls := [];
    for i := 0 to |obj|
      invariant decls == MethodDecls(obj[..i])
    {
      assert obj[..i + 1][..i] == obj[..i];
      var p := obj[i];
      if p.PropItem? && p.prop.Method? && p.prop.key.IdentKey? {
        decls := decls + [FnDecl(p.prop.key.name, p.prop.func)];
      }
    }
    assert obj[..|obj|] == obj;
  }

  /** The inner loop of `process_watch`: find `handler`, `deep` and `immediate`. */
  method ScanWatchObject(inner: seq<PropOrSpread>) returns (handler: Option<Function>, deep: Option<Expr>, immediate: Option<Expr>)
    ensures WatchConfig(handler, deep, immediate) == ScanWatchConfig(inner)
  {
    handler, deep, immediate := None, None, None;
    for j := 0 to |inner|
      invariant WatchConfig(handler, deep, immediate) == ScanWatchConfig(inner[..j])
    {
      assert inner[..j + 1][..j] == inner[..j];
      var item := inner[j];
      if !item.PropItem? {
        continue;
      }
      match item.prop
      case Method(key, f) =>
        if key.IdentKey? && key.name == "handler" {
          handler := Some(f);
        }
      case KeyValue(key, v) =>
        if key.IdentKey? {
          if key.name == "deep" {
            deep := Some(v);
          }
          if key.name == "immediate" {
            immediate := Some(v);
          }
        }
      case _ =>
    }
    assert inner[..|inner|] == inner;
  }

  /** The outer loop of `process_watch`. */
  method CollectWatchDecls(obj: seq<PropOrSpread>) returns (decls: seq<WatchDecl>)
    ensures decls == WatchDecls(obj)
  {
    decls := [];
    for i := 0 to |obj|
      invariant decls == WatchDecls(obj[..i])
    {
      assert obj[..i + 1][..i] == obj[..i];
      var p := obj[i];
      if p.PropItem? {
        if p.prop.Method? && p.prop.key.IdentKey? {
          decls := decls + [WatchDecl(p.prop.key.name, p.prop.func, None, None)];
        }
        if p.prop.KeyValue? && p.prop.value.Object? && p.prop.key.IdentKey? {
          var handler, deep, immediate := ScanWatchObject(p.prop.value.props);
          if handler.Some? {
            decls := decls + [WatchDecl(p.prop.key.name, handler.value, deep, immediate)];
          }
        }
      }
    }
    assert obj[..|obj|] == obj;
  }

  // ------------------------------------------------------------- the visitor

  class Visitor {
    var options: OptionsComponent
    var composition: CompositionComponent
    var propsSet: Option<set<string>>
    var injectSet: Option<map<string, string>>

    /** `Visitor::default()`. */
    constructor()
      ensures options == DefaultOptions() && composition == DefaultComposition()
      ensures propsSet == None && injectSet == None
    {
      options := DefaultOptions();
      composition := DefaultComposition();
      propsSet := None;
      injectSet := None;
    }

    /** `preprocess_default_export` of `process.rs`: the prop set and the inject
        set from the last identifier-keyed `props:` / `inject:` members;
        `injectSetOf` stands for `inject_set_from_object_lit`. */
    method PreprocessDefaultExport(members: seq<PropOrSpread>, injectSetOf: Expr -> Option<map<string, string>>)
      modifies this
      ensures propsSet == PropsSetAfter(members, old(propsSet))
      ensures injectSet == InjectSetAfter(members, injectSetOf, old(injectSet))
      ensures options == old(options) && composition == old(composition)
    {
      for i := 0 to |members|
        invariant propsSet == PropsSetAfter(members[..i], old(propsSet))
        invariant injectSet == InjectSetAfter(members[..i], injectSetOf, old(injectSet))
        invariant options == old(options) && composition == old(composition)
      {
        assert members[..i + 1][..i] == members[..i];
        var x := members[i];
        if x.PropItem? && x.prop.KeyValue? && x.prop.key.IdentKey? {
          if x.prop.key.name == "props" {
            propsSet := PropSetFromObjectLit(x.prop.value);
          } else if x.prop.key.name == "inject" {
            injectSet := injectSetOf(x.prop.value);
          }
        }
      }
      assert members[..|members|] == members;
    }

    /** `preprocess_default_export` of `mod.rs`: the prop set only. */
    method PreprocessPropsOnly(members: seq<PropOrSpread>)
      modifies this
      ensures propsSet == PropsSetAfter(members, old(propsSet))
      ensures injectSet == old(injectSet) && options == old(options) && composition == old(composition)
    {
      for i := 0 to |members|
        invariant propsSet == PropsSetAfter(members[..i], old(propsSet))
        invariant injectSet == old(injectSet) && options == old(options) && composition == old(composition)
      {
        assert members[..i + 1][..i] == members[..i];
        var x := members[i];
        if x.PropItem? && x.prop.KeyValue? && x.prop.key.IdentKey? && x.prop.key.name == "props" {
          propsSet := PropSetFromObjectLit(x.prop.value);
        }
      }
      assert members[..|members|] == members;
    }

    /** `process_method_prop`. */
    method ProcessMethodProp(methodProp: MethodProp)
      modifies this
      ensures options == MethodPropStep(old(options), methodProp.key, methodProp.func)
      ensures composition == old(composition) && propsSet == old(propsSet) && injectSet == old(injectSet)
    {
      if methodProp.key.IdentKey? {
        var name := methodProp.key.name;
        if name == "data" {
          options := options.(data := Some(methodProp.func));
        } else if name == "created" {
          options := options.(created := Some(methodProp.func));
        } else if name == "mounted" {
          options := options.(mounted := Some(methodProp.func));
        }
      }
    }

    /** `process_computed`. */
    method ProcessComputed(obj: seq<PropOrSpread>)
      modifies this
      ensures options == (var d := MethodDecls(obj); if |d| > 0 then old(options).(computed := Some(d)) else old(options))
      ensures composition == old(composition) && propsSet == old(propsSet) && injectSet == old(injectSet)
    {
      var computedDecls := CollectMethodDecls(obj);
      if |computedDecls| > 0 {
        options := options.(computed := Some(computedDecls));
      }
    }

    /** `process_watch`. */
    method ProcessWatch(obj: seq<PropOrSpread>)
      modifies this
      ensures options == (var d := WatchDecls(obj); if |d| > 0 then old(options).(watch := Some(d)) else old(options))
      ensures composition == old(composition) && propsSet == old(propsSet) && injectSet == old(injectSet)
    {
      var watchDecls := CollectWatchDecls(obj);
      if |watchDecls| > 0 {
        options := options.(watch := Some(watchDecls));
      }
    }

    /** `process_methods`. */
    method ProcessMethods(obj: seq<PropOrSpread>)
      modifies this
      ensures options == (var d := MethodDecls(obj); if |d| > 0 then old(options).(methods := Some(d)) else old(options))
      ensures composition == old(composition) && propsSet == old(propsSet) && injectSet == old(injectSet)
    {
      var methods := CollectMethodDecls(obj);
      if |methods| > 0 {
        options := options.(methods := Some(methods));
      }
    }

    /** `process_key_value`. */
    method ProcessKeyValue(kv: KeyValueProp)
      modifies this
      ensures options == KeyValueStep(old(options), kv.key, kv.value, true)
      ensures composition == old(composition) && propsSet == old(propsSet) && injectSet == old(injectSet)
    {
      if kv.key.IdentKey? {
        var name := kv.key.name;
        if name == "components" {
          options := options.(components := Some(kv.value));
        } else if name == "inject" {
          options := options.(inject := Some(kv.value));
        } else if name == "props" {
          options := options.(props := Some(kv.value));
        } else if name == "computed" {
          if kv.value.Object? {
            ProcessComputed(kv.value.props);
          }
        } else if name == "watch" {
          if kv.value.Object? {
            ProcessWatch(kv.value.props);
          }
        } else if name == "methods" {
          if kv.value.Object? {
            ProcessMethods(kv.value.props);
          }
        }
      }
    }

    /** `process_default_export` of `process.rs`. */
    method ProcessDefaultExport(members: seq<PropOrSpread>)
      modifies this
      ensures options == ExtractOptions(old(options), members, true)
      ensures composition == old(composition) && propsSet == old(propsSet) && injectSet == old(injectSet)
    {
      for i := 0 to |members|
        invariant options == ExtractOptions(old(options), members[..i], true)
        invariant composition == old(composition) && propsSet == old(propsSet) && injectSet == old(injectSet)
      {
        assert members[..i + 1][..i] == members[..i];
        var prop := members[i];
        if !prop.PropItem? {
          continue;
        }
        match prop.prop
        case Method(_, _) => ProcessMethodProp(prop.prop);
        case KeyValue(_, _) => ProcessKeyValue(prop.prop);
        case _ =>
      }
      assert members[..|members|] == members;
    }

    /** `process_default_export` of `mod.rs`: the same members, with the
        loops written inline and no `watch` case. */
    method ProcessDefaultExportWithoutWatch(members: seq<PropOrSpread>)
      modifies this
      ensures options == ExtractOptions(old(options), members, false)
      ensures composition == old(composition) && propsSet == old(propsSet) && injectSet == old(injectSet)
    {
      for i := 0 to |members|
        invariant options == ExtractOptions(old(options), members[..i], false)
        invariant composition == old(composition) && propsSet == old(propsSet) && injectSet == old(injectSet)
      {
        assert members[..i + 1][..i] == members[..i];
        var prop := members[i];
        if !prop.PropItem? {
          continue;
        }
        match prop.prop
        case Method(key, f) =>
          if key.IdentKey? {
            if key.name == "data" {
              options := options.(data := Some(f));
            } else if key.name == "created" {
              options := options.(created := Some(f));
            } else if key.name == "mounted" {
              options := options.(mounted := Some(f));
            }
          }
        case KeyValue(key, value) =>
          if key.IdentKey? {
            if key.name == "components" {
              options := options.(components := Some(value));
            } else if key.name == "inject" {
              options := options.(inject := Some(value));
            } else if key.name == "props" {
              options := options.(props := Some(value));
            } else if key.name == "computed" {
              if value.Object? {
                var computedDecls := CollectMethodDecls(value.props);
                if |computedDecls| > 0 {
                  options := options.(computed := Some(computedDecls));
                }
              }
            } else if key.name == "methods" {
              if value.Object? {
                var methods := CollectMethodDecls(value.props);
                if |methods| > 0 {
                  options := options.(methods := Some(methods));
                }
              }
            }
          }
        case _ =>
      }
      assert members[..|members|] == members;
    }

    /** `populate_composition` of `mod.rs`. */
    method PopulateComposition() returns (outcome: Fallible<()>)
      modifies this
      ensures outcome.Ok? <==> Populated(old(options), old(composition)).Ok?
      ensures outcome.Err? ==> outcome.error == Populated(old(options), old(composition)).error
      ensures outcome.Ok? ==> composition == Populated(old(options), old(composition)).value
      ensures options == old(options) && propsSet == old(propsSet) && injectSet == old(injectSet)
    {
      var r := PopulateSteps(options, composition);
      if r.Err? {
        return Err(r.error);
      }
      composition := r.value;
      return Ok(());
    }

    /** `transform_component`. The inject statements come from walking the
        inject map in an unspecified order; `injectStmts` names the ones this
        run produced and `order` the enumeration of the keys it took. */
    method TransformComponent() returns (outcome: Fallible<()>, ghost injectStmts: Option<seq<Stmt>>, ghost order: seq<string>)
      modifies this
      ensures old(injectSet).None? ==> injectStmts.None?
      ensures old(injectSet).Some? ==> injectStmts.Some? && InjectsAll(old(injectSet).value, order, injectStmts.value)
      ensures outcome.Ok? <==> LowerSections(old(options), old(composition), injectStmts).Ok?
      ensures outcome.Err? ==> outcome.error == LowerSections(old(options), old(composition), injectStmts).error
      ensures outcome.Ok? ==> composition == LowerSections(old(options), old(composition), injectStmts).value
      ensures options == old(options) && propsSet == old(propsSet) && injectSet == old(injectSet)
    {
      var lowered;
      lowered, injectStmts, order := LowerComponent(options, composition, injectSet);
      if lowered.Err? {
        return Err(lowered.error), injectStmts, order;
      }
      composition := lowered.value;
      return Ok(()), injectStmts, order;
    }

    /** `visit_mut_module` of `mod.rs`: rewrite every item in place, then
        replace the first `export default {…}` by its `defineComponent` export. */
    method VisitMutModule(body: array<ModuleItem>) returns (outcome: Fallible<()>)
      modifies this, body
      ensures propsSet == old(propsSet) && injectSet == old(injectSet)
      ensures var rewritten := RewriteItems(old(propsSet), old(body[..]));
        match FirstDefaultObject(rewritten)
        case None =>
          outcome.Ok? && body[..] == rewritten && options == old(options) && composition == old(composition)
        case Some(k) =>
          && options == ExtractOptions(old(options), rewritten[k].expr.props, false)
          && (outcome.Ok? <==> Populated(options, old(composition)).Ok?)
          && (outcome.Err? ==> outcome.error == Populated(options, old(composition)).error)
          && (outcome.Ok? ==> composition == Populated(options, old(composition)).value)
          && (outcome.Ok? ==> body[..] == rewritten[k := ExportDefaultExpr(ComponentExpr(composition))])
    {
      ghost var items := body[..];
      var ps := propsSet;
      for i := 0 to body.Length
        invariant forall j :: 0 <= j < i ==> body[j] == RewriteItem(ps, items[j])
        invariant forall j :: i <= j < body.Length ==> body[j] == items[j]
        invariant options == old(options) && composition == old(composition)
        invariant propsSet == ps && injectSet == old(injectSet)
      {
        body[i] := RewriteItem(ps, body[i]);
      }
      assert body[..] == RewriteItems(ps, items);
      var found := FirstDefaultObject(body[..]);
      if found.None? {
        return Ok(());
      }
      var idx := found.value;
      ProcessDefaultExportWithoutWatch(body[idx].expr.props);
      outcome := PopulateComposition();
      if outcome.Err? {
        return;
      }
      var item := WriteCompositionComponent(composition);
      body[idx] := item;
    }
  }

  /** The steps of `populate_composition`, one section after the other. */
  method PopulateSteps(o: OptionsComponent, c0: CompositionComponent) returns (r: Fallible<CompositionComponent>)
    ensures r == Populated(o, c0)
  {
    var c := c0;
    if o.components.Some? {
      c := c.(components := o.components);
    }
    if o.props.Some? {
      c := c.(props := o.props);
    }
    if o.data.Some? {
      if o.data.value.body.None? {
        return Err(MissingBody);
      }
      var refs := TransformData(o.data.value.body.value.stmts);
      if refs.Err? {
        return Err(refs.error);
      }
      c := c.(refStmts := Some(refs.value));
    }
    if o.computed.Some? {
      c := c.(computed := Some(MethodStmts(o.computed.value)));
    }
    if o.created.Some? && o.created.value.body.Some? {
      c := c.(createdStmts := Some(o.created.value.body.value.stmts));
    }
    if o.methods.Some? {
      c := c.(methodDecls := Some(MethodStmts(o.methods.value)));
    }
    return Ok(c);
  }

  /** The body of `transform_component`: the pass-through sections, the
      inject statements when there is an inject map, then the lowered groups. */
  method LowerComponent(o: OptionsComponent, c0: CompositionComponent, injectSet: Option<map<string, string>>)
    returns (r: Fallible<CompositionComponent>, injectStmts: Option<seq<Stmt>>, ghost order: seq<string>)
    ensures injectSet.None? ==> injectStmts.None?
    ensures injectSet.Some? ==> injectStmts.Some? && InjectsAll(injectSet.value, order, injectStmts.value)
    ensures r == LowerSections(o, c0, injectStmts)
  {
    var c := c0;
    if o.components.Some? {
      c := c.(components := o.components);
    }
    if o.props.Some? {
      c := c.(props := o.props);
    }
    injectStmts := None;
    order := [];
    if injectSet.Some? {
      var stmts;
      stmts, order := TransformInject(injectSet.value);
      c := c.(injectStmts := Some(stmts));
      injectStmts := Some(stmts);
    }
    assert c == PassThrough(o, c0, injectStmts);
    r := LowerGroupsInOrder(o, c);
  }

  /** The body of `transform_component` from `data` on, one section after the other. */
  method LowerGroupsInOrder(o: OptionsComponent, c0: CompositionComponent) returns (r: Fallible<CompositionComponent>)
    ensures r == LowerGroups(o, c0)
  {
    var c := c0;
    if o.data.Some? {
      if o.data.value.body.None? {
        return Err(MissingBody);
      }
      var refs := TransformData(o.data.value.body.value.stmts);
      if refs.Err? {
        return Err(refs.error);
      }
      c := c.(refStmts := Some(refs.value));
    }
    assert WithData(o, c0) == Ok(c);
    if o.created.Some? && o.created.value.body.Some? {
      c := c.(createdStmts := Some(o.created.value.body.value.stmts));
    }
    ghost var created := c;
    if o.computed.Some? {
      var stmts := TransformComputed(o.computed.value);
      if stmts.Err? {
        return Err(stmts.error);
      }
      c := c.(computed := Some(stmts.value));
    }
    assert WithComputed(o, created) == Ok(c);
    ghost var computed := c;
    if o.watch.Some? {
      var stmts := TransformWatch(o.watch.value);
      if stmts.Err? {
        return Err(stmts.error);
      }
      c := c.(watch := Some(stmts.value));
    }
    assert WithWatch(o, computed) == Ok(c);
    if o.methods.Some? {
      c := c.(methodDecls := Some(MethodStmts(o.methods.value)));
    }
    if o.mounted.Some? {
      c := c.(mounted := Some(TransformMounted(o.mounted.value)));
    }
    return Ok(c);
  }

  // ----------------------------------------------------------- specifications

  /** What `transform_inject` promises: `order` lists every key of the map once,
      and the statements are the keys' inject statements in that order. */
  ghost predicate InjectsAll(injects: map<string, string>, order: seq<string>, stmts: seq<Stmt>) {
    Enumerates(injects, order) && InjectsInOrder(injects, order, stmts)
  }

  /** `populate_composition` of `mod.rs`: components and props pass through,
      `data()` becomes refs, computed entries and methods become function
      declarations as they are, and `created` statements are copied when
      there is a body. */
  function Populated(o: OptionsComponent, c: CompositionComponent): Fallible<CompositionComponent> {
    var c1 :- WithData(o, PassThrough(o, c, None));
    var c2 := if o.computed.Some? then c1.(computed := Some(MethodStmts(o.computed.value))) else c1;
    Ok(WithMethods(o, WithCreated(o, c2)))
  }

  predicate IsDefaultObject(item: ModuleItem) {
    item.ExportDefaultExpr? && item.expr.Object?
  }

  /** The position of the first `export default {…}`, as `find_map` finds it. */
  function FirstDefaultObject(items: seq<ModuleItem>): (r: Option<nat>)
    ensures r.Some? ==>
      r.value < |items| && IsDefaultObject(items[r.value]) && forall j :: 0 <= j < r.value ==> !IsDefaultObject(items[j])
    ensures r.None? <==> forall j :: 0 <= j < |items| ==> !IsDefaultObject(items[j])
  {
    if items == [] then None
    else
      var n := |items| - 1;
      assert forall j :: 0 <= j < n ==> items[..n][j] == items[j];
      match FirstDefaultObject(items[..n])
      case Some(k) => Some(k)
      case None => if IsDefaultObject(items[n]) then Some(n) else None
  }

  /** The prop set `visit_module` has after the analysis pass: every
      `export default {…}` is preprocessed in turn. */
  function PreprocessedProps(items: seq<ModuleItem>): Option<set<string>> {
    if items == [] then None
    else
      var n := |items| - 1;
      var prev := PreprocessedProps(items[..n]);
      if IsDefaultObject(items[n]) then PropsSetAfter(items[n].expr.props, prev) else prev
  }

  /** `visit_module`: analyse, then rewrite and replace. */
  function TransformModule(items: seq<ModuleItem>): Fallible<seq<ModuleItem>> {
    var rewritten := RewriteItems(PreprocessedProps(items), items);
    match FirstDefaultObject(rewritten)
    case None => Ok(rewritten)
    case Some(k) =>
      var c :- Populated(ExtractOptions(DefaultOptions(), rewritten[k].expr.props, false), DefaultComposition());
      Ok(rewritten[k := ExportDefaultExpr(ComponentExpr(c))])
  }

  /** `visit_module`: a fresh visitor analyses the module, then rewrites it. */
  method VisitModule(items: seq<ModuleItem>) returns (r: Fallible<seq<ModuleItem>>)
    ensures r == TransformModule(items)
  {
    var v := new Visitor();
    for i := 0 to |items|
      invariant v.propsSet == PreprocessedProps(items[..i])
      invariant v.options == DefaultOptions() && v.composition == DefaultComposition()
    {
      assert items[..i + 1][..i] == items[..i];
      if items[i].ExportDefaultExpr? && items[i].expr.Object? {
        v.PreprocessPropsOnly(items[i].expr.props);
      }
    }
    assert items[..|items|] == items;
    var body := new ModuleItem[|items|](i requires 0 <= i < |items| => items[i]);
    assert body[..] == items;
    var outcome := v.VisitMutModule(body);
    if outcome.Err? {
      return Err(outcome.error);
    }
    return Ok(body[..]);
  }

  // ------------------------------------------------------------------ lemmas

  /** Rewriting never moves the default export: the first `export default {…}`
      of the rewritten items is the first one of the original items. */
  lemma RewriteKeepsDefaultExport(ps: Option<set<string>>, items: seq<ModuleItem>)
    ensures FirstDefaultObject(RewriteItems(ps, items)) == FirstDefaultObject(items)
  {
    var rewritten := RewriteItems(ps, items);
    forall j | 0 <= j < |items|
      ensures IsDefaultObject(rewritten[j]) == IsDefaultObject(items[j])
    {
      RewriteItemKeepsShape(ps, items[j]);
    }
  }

  /** Every item but the first `export default {…}` keeps its position and
      is only rewritten. */
  lemma TransformModuleKeepsOthers(items: seq<ModuleItem>)
    requires TransformModule(items).Ok?
    ensures var r := TransformModule(items).value;
      && |r| == |items|
      && forall j :: 0 <= j < |items| && FirstDefaultObject(items) != Some(j) ==>
           r[j] == RewriteItem(PreprocessedProps(items), items[j])
  {
    var ps := PreprocessedProps(items);
    var rewritten := RewriteItems(ps, items);
    RewriteKeepsDefaultExport(ps, items);
    match FirstDefaultObject(rewritten)
    case None =>
      assert TransformModule(items) == Ok(rewritten);
    case Some(k) =>
      var c := Populated(ExtractOptions(DefaultOptions(), rewritten[k].expr.props, false), DefaultComposition()).value;
      assert TransformModule(items) == Ok(rewritten[k := ExportDefaultExpr(ComponentExpr(c))]);
  }

  /** The first `export default {…}` is replaced by a `defineComponent` export. */
  lemma TransformModuleReplacesDefault(items: seq<ModuleItem>, k: nat)
    requires TransformModule(items).Ok? && FirstDefaultObject(items) == Some(k)
    ensures var r := TransformModule(items).value;
      && k < |r| && r[k].ExportDefaultExpr? && r[k].expr.Call?
      && r[k].expr.callee == ExprCallee(Ident("defineComponent"))
  {
    var ps := PreprocessedProps(items);
    var rewritten := RewriteItems(ps, items);
    RewriteKeepsDefaultExport(ps, items);
    var c := Populated(ExtractOptions(DefaultOptions(), rewritten[k].expr.props, false), DefaultComposition()).value;
    ComponentExprShape(c);
    assert TransformModule(items) == Ok(rewritten[k := ExportDefaultExpr(ComponentExpr(c))]);
  }

  /** A module without `export default {…}` only has its items rewritten. */
  lemma TransformModuleWithoutDefault(items: seq<ModuleItem>)
    requires forall j :: 0 <= j < |items| ==> !IsDefaultObject(items[j])
    ensures TransformModule(items) == Ok(RewriteItems(PreprocessedProps(items), items))
  {
    RewriteKeepsDefaultExport(PreprocessedProps(items), items);
  }

  /** `populate_composition` leaves the inject, watch and mounted groups as they were. */
  lemma PopulatedLeavesUntouched(o: OptionsComponent, c: CompositionComponent)
    requires Populated(o, c).Ok?
    ensures var r := Populated(o, c).value;
      && r.injectStmts == c.injectStmts && r.watch == c.watch && r.mounted == c.mounted
      && r.components == (if o.components.Some? then o.components else c.components)
      && r.props == (if o.props.Some? then o.props else c.props)
  {
  }
}

/** Section lowering (`src/visitor/transform.rs`): each Options-API section
    becomes Composition-API statements. */
module Transform {
  import opened Outcomes
  import opened JsAst
  import opened Vue

  // ------------------------------------------------ single-return arrow bodies

  /** The statements an arrow body stands for: an expression body `e` is `return e;`. */
  function Unfolded(b: ArrowBody): seq<Stmt> {
    match b
    case BlockBody(stmts) => stmts
    case ExprBody(e) => [ReturnStmt(Some(e))]
  }

  /** The arrow body for a function body: a body that is exactly one `return e;`
      becomes the expression `e`; any other body is kept as a block; a lone
      `return;` panics on `arg.unwrap()`. */
  function ArrowBodyOf(b: BlockStmt): (r: Fallible<ArrowBody>)
    ensures r.Err? <==> b.stmts == [ReturnStmt(None)]
    ensures r.Err? ==> r.error == ReturnWithoutArgument
    ensures r.Ok? ==> Unfolded(r.value) == b.stmts
    ensures r.Ok? ==> (r.value.ExprBody? <==> |b.stmts| == 1 && b.stmts[0].ReturnStmt?)
  {
    if |b.stmts| == 1 && b.stmts[0].ReturnStmt? then
      if b.stmts[0].arg.Some? then Ok(ExprBody(b.stmts[0].arg.value)) else Err(ReturnWithoutArgument)
    else Ok(BlockBody(b.stmts))
  }

  // ------------------------------------------------------- filter_map + collect

  /** Lower every entry in order and concatenate; the first panic aborts. */
  function LowerAll<T>(ds: seq<T>, lower: T -> Fallible<seq<Stmt>>): Fallible<seq<Stmt>> {
    if ds == [] then Ok([])
    else
      var prev :- LowerAll(ds[..|ds| - 1], lower);
      var last :- lower(ds[|ds| - 1]);
      Ok(prev + last)
  }

  /** Lowering a concatenation lowers each part in order. */
  lemma {:induction false} LowerAllAppend<T>(a: seq<T>, b: seq<T>, lower: T -> Fallible<seq<Stmt>>)
    ensures LowerAll(a + b, lower) ==
      (var ra :- LowerAll(a, lower); var rb :- LowerAll(b, lower); Ok(ra + rb))
    decreases |b|
  {
    if b == [] {
      assert a + b == a;
      if LowerAll(a, lower).Ok? {
        assert LowerAll(a, lower).value + [] == LowerAll(a, lower).value;
      }
    } else {
      var n := |b| - 1;
      assert (a + b)[..|a + b| - 1] == a + b[..n];
      assert (a + b)[|a + b| - 1] == b[n];
      LowerAllAppend(a, b[..n], lower);
      if LowerAll(a, lower).Ok? && LowerAll(b[..n], lower).Ok? && lower(b[n]).Ok? {
        assert LowerAll(a, lower).value + LowerAll(b[..n], lower).value + lower(b[n]).value
            == LowerAll(a, lower).value + (LowerAll(b[..n], lower).value + lower(b[n]).value);
      }
    }
  }

  /** Lowering succeeds exactly when every entry lowers. */
  lemma {:induction false} LowerAllOk<T>(ds: seq<T>, lower: T -> Fallible<seq<Stmt>>)
    ensures LowerAll(ds, lower).Ok? <==> forall i :: 0 <= i < |ds| ==> lower(ds[i]).Ok?
  {
    if ds != [] {
      var n := |ds| - 1;
      LowerAllOk(ds[..n], lower);
      assert forall i :: 0 <= i < n ==> ds[..n][i] == ds[i];
    }
  }

  // ------------------------------------------------------------------ computed

  /** One `computed` entry: `const name = computed(() => body)`, or nothing when
      the function has no body. */
  function LowerComputed(d: FnDecl): (r: Fallible<seq<Stmt>>)
    ensures d.func.body.None? ==> r == Ok([])
    ensures r.Err? <==> d.func.body.Some? && d.func.body.value.stmts == [ReturnStmt(None)]
    ensures r.Ok? && d.func.body.Some? ==>
      ArrowBodyOf(d.func.body.value).Ok?
      && r.value == [ConstDecl(d.ident, CallNamed("computed",
           [Arrow([], ArrowBodyOf(d.func.body.value).value, false, false)]))]
  {
    if d.func.body.None? then Ok([])
    else
      var body :- ArrowBodyOf(d.func.body.value);
      Ok([ConstDecl(d.ident, CallNamed("computed", [Arrow([], body, false, false)]))])
  }

  /** `transform_computed`. */
  function TransformComputed(ds: seq<FnDecl>): Fallible<seq<Stmt>> {
    LowerAll(ds, LowerComputed)
  }

  // --------------------------------------------------------------------- watch

  /** The third `watch` argument: only the present options, `deep` first. */
  function WatchOptions(d: WatchDecl): seq<PropOrSpread> {
    (if d.deep.Some? then [IdentKeyValue("deep", d.deep.value)] else [])
    + (if d.immediate.Some? then [IdentKeyValue("immediate", d.immediate.value)] else [])
  }

  /** The arguments of one `watch(...)` call. */
  function WatchArgs(d: WatchDecl, body: ArrowBody): (r: seq<ExprOrSpread>)
    ensures |r| == 3 <==> d.deep.Some? || d.immediate.Some?
    ensures |r| == 2 <==> d.deep.None? && d.immediate.None?
    ensures r[..2] == [ExprOrSpread(false, Ident(d.ident)), ExprOrSpread(false, Arrow(d.func.params, body, false, false))]
    ensures |r| == 3 ==> r[2] == ExprOrSpread(false, Object(WatchOptions(d)))
  {
    [ExprOrSpread(false, Ident(d.ident)), ExprOrSpread(false, Arrow(d.func.params, body, false, false))]
    + (if d.deep.Some? || d.immediate.Some? then [ExprOrSpread(false, Object(WatchOptions(d)))] else [])
  }

  /** One watcher: `watch(name, (params) => body[, { deep, immediate }])`, or
      nothing when the handler has no body. */
  function LowerWatch(d: WatchDecl): (r: Fallible<seq<Stmt>>)
    ensures d.func.body.None? ==> r == Ok([])
    ensures r.Err? <==> d.func.body.Some? && d.func.body.value.stmts == [ReturnStmt(None)]
    ensures r.Ok? && d.func.body.Some? ==>
      ArrowBodyOf(d.func.body.value).Ok?
      && r.value == [ExprStmt(Call(ExprCallee(Ident("watch")), WatchArgs(d, ArrowBodyOf(d.func.body.value).value)))]
  {
    if d.func.body.None? then Ok([])
    else
      var body :- ArrowBodyOf(d.func.body.value);
      Ok([ExprStmt(Call(ExprCallee(Ident("watch")), WatchArgs(d, body)))])
  }

  /** `transform_watch`. */
  function TransformWatch(ds: seq<WatchDecl>): Fallible<seq<Stmt>> {
    LowerAll(ds, LowerWatch)
  }

  /** The options object holds exactly the present options, `deep` before `immediate`. */
  lemma WatchOptionsKeys(d: WatchDecl)
    ensures |WatchOptions(d)| == (if d.deep.Some? then 1 else 0) + (if d.immediate.Some? then 1 else 0)
    ensures d.deep.Some? ==> WatchOptions(d)[0] == IdentKeyValue("deep", d.deep.value)
    ensures d.immediate.Some? ==> WatchOptions(d)[|WatchOptions(d)| - 1] == IdentKeyValue("immediate", d.immediate.value)
  {
  }

  // ------------------------------------------------------------------- mounted

  /** `transform_mounted`: nothing for a body-less function, else one
      `onMounted(arrow)` keeping the body and the async/generator flags. */
  function TransformMounted(f: Function): (r: seq<Stmt>)
    ensures f.body.None? <==> r == []
    ensures f.body.Some? ==> r == [ExprStmt(CallNamed("onMounted",
      [Arrow([], BlockBody(f.body.value.stmts), f.isAsync, f.isGenerator)]))]
  {
    if f.body.None? then []
    else [ExprStmt(CallNamed("onMounted", [Arrow([], BlockBody(f.body.value.stmts), f.isAsync, f.isGenerator)]))]
  }

  // -------------------------------------------------------------------- inject

  /** `const s = inject("s")` for the string value `s`. */
  function InjectStmt(s: string): Stmt {
    ConstDecl(s, CallNamed("inject", [LitExpr(StrLit(s))]))
  }

  /** `order` lists every key of `injects` exactly once. */
  ghost predicate Enumerates(injects: map<string, string>, order: seq<string>) {
    && |order| == |injects|
    && (forall i, j :: 0 <= i < j < |order| ==> order[i] != order[j])
    && (forall k :: k in injects <==> k in order)
  }

  /** `stmts` holds, position by position, the inject statement of each key of `order`. */
  ghost predicate InjectsInOrder(injects: map<string, string>, order: seq<string>, stmts: seq<Stmt>) {
    && (forall k :: k in order ==> k in injects)
    && |stmts| == |order|
    && (forall i :: 0 <= i < |order| ==> stmts[i] == InjectStmt(injects[order[i]]))
  }

  /** `transform_inject`: one statement per entry of the map, named after the
      entry's string value. The map is walked in an unspecified order; `order`
      is the enumeration of the keys this run took, each key exactly once. */
  method TransformInject(injects: map<string, string>) returns (stmts: seq<Stmt>, order: seq<string>)
    ensures |order| == |injects|
    ensures forall i, j :: 0 <= i < j < |order| ==> order[i] != order[j]
    ensures forall k :: k in injects <==> k in order
    ensures |stmts| == |order|
    ensures forall i :: 0 <= i < |order| ==> stmts[i] == InjectStmt(injects[order[i]])
  {
    var rest := injects.Keys;
    stmts := [];
    order := [];
    while rest != {}
      invariant rest <= injects.Keys
      invariant |order| + |rest| == |injects|
      invariant forall k :: k in order <==> k in injects && k !in rest
      invariant forall i, j :: 0 <= i < j < |order| ==> order[i] != order[j]
      invariant |stmts| == |order|
      invariant forall i :: 0 <= i < |order| ==> stmts[i] == InjectStmt(injects[order[i]])
      decreases |rest|
    {
      var k :| k in rest;
      stmts := stmts + [InjectStmt(injects[k])];
      order := order + [k];
      rest := rest - {k};
    }
  }

  // ---------------------------------------------------------------------- data

  predicate IsReturnWithArg(s: Stmt) {
    s.ReturnStmt? && s.arg.Some?
  }

  /** The argument of the first `return` statement that has one. */
  function FirstReturnArg(stmts: seq<Stmt>): Option<Expr> {
    if stmts == [] then None
    else if IsReturnWithArg(stmts[0]) then stmts[0].arg
    else FirstReturnArg(stmts[1..])
  }

  lemma {:induction false} FirstReturnArgIsFirst(stmts: seq<Stmt>)
    ensures FirstReturnArg(stmts).None? <==> forall i :: 0 <= i < |stmts| ==> !IsReturnWithArg(stmts[i])
    ensures FirstReturnArg(stmts).Some? ==>
      exists i :: 0 <= i < |stmts| && stmts[i] == ReturnStmt(FirstReturnArg(stmts))
        && forall j :: 0 <= j < i ==> !IsReturnWithArg(stmts[j])
  {
    if stmts != [] && !IsReturnWithArg(stmts[0]) {
      var tail := stmts[1..];
      FirstReturnArgIsFirst(tail);
      assert forall i :: 1 <= i < |stmts| ==> stmts[i] == tail[i - 1];
      if FirstReturnArg(tail).Some? {
        var i :| 0 <= i < |tail| && tail[i] == ReturnStmt(FirstReturnArg(tail))
          && forall j :: 0 <= j < i ==> !IsReturnWithArg(tail[j]);
        assert stmts[i + 1] == tail[i];
        assert forall j :: 0 <= j < i + 1 ==> !IsReturnWithArg(stmts[j]) by {
          forall j | 0 <= j < i + 1 ensures !IsReturnWithArg(stmts[j]) {
            if j > 0 { assert stmts[j] == tail[j - 1]; }
          }
        }
      }
    }
  }

  /** A data property that lowers to a ref: `key: value` with an identifier key. */
  predicate IsRefSource(p: PropOrSpread) {
    p.PropItem? && p.prop.KeyValue? && p.prop.key.IdentKey?
  }

  /** `const k = ref(v)`. */
  function RefDecl(k: string, v: Expr): Stmt {
    ConstDecl(k, CallNamed("ref", [v]))
  }

  /** One data property: spreads and every member other than key-value (shorthand
      included) panic, and so does a key that is not an identifier. */
  function RefEntry(p: PropOrSpread): Fallible<Stmt> {
    if !(p.PropItem? && p.prop.KeyValue?) then Err(DataPropNotKeyValue)
    else if !p.prop.key.IdentKey? then Err(DataKeyNotIdent)
    else Ok(RefDecl(p.prop.key.name, p.prop.value))
  }

  /** The ref declarations for the properties of the returned object, in order. */
  function RefStmts(ps: seq<PropOrSpread>): (r: Fallible<seq<Stmt>>)
    ensures r.Ok? <==> forall i :: 0 <= i < |ps| ==> IsRefSource(ps[i])
    ensures r.Ok? ==>
      |r.value| == |ps| && forall i :: 0 <= i < |ps| ==> r.value[i] == RefDecl(ps[i].prop.key.name, ps[i].prop.value)
    ensures r.Err? ==> r.error == DataPropNotKeyValue || r.error == DataKeyNotIdent
  {
    if ps == [] then Ok([])
    else
      var n := |ps| - 1;
      assert forall i :: 0 <= i < n ==> ps[..n][i] == ps[i];
      var prev :- RefStmts(ps[..n]);
      var last :- RefEntry(ps[n]);
      Ok(prev + [last])
  }

  /** Once a prefix panics, the whole list panics with the same error. */
  lemma {:induction false} RefStmtsPrefixErr(ps: seq<PropOrSpread>, k: nat)
    requires k <= |ps|
    requires RefStmts(ps[..k]).Err?
    ensures RefStmts(ps) == RefStmts(ps[..k])
    decreases |ps| - k
  {
    if k < |ps| {
      assert ps[..k + 1][..k] == ps[..k];
      RefStmtsPrefixErr(ps, k + 1);
    } else {
      assert ps[..k] == ps;
    }
  }

  /** One more property after an `Ok` prefix: its ref is appended, or its
      error is the error of the whole list. */
  lemma RefStmtsStep(ps: seq<PropOrSpread>, i: nat, prev: seq<Stmt>)
    requires i < |ps| && RefStmts(ps[..i]) == Ok(prev)
    ensures RefEntry(ps[i]).Err? ==> RefStmts(ps) == Err(RefEntry(ps[i]).error)
    ensures RefEntry(ps[i]).Ok? ==> RefStmts(ps[..i + 1]) == Ok(prev + [RefEntry(ps[i]).value])
  {
    assert ps[..i + 1][..i] == ps[..i];
    if RefEntry(ps[i]).Err? {
      RefStmtsPrefixErr(ps, i + 1);
    }
  }

  /** What `transform_data` computes from the statements of `data()`. */
  function DataRefs(stmts: seq<Stmt>): Fallible<seq<Stmt>> {
    match FirstReturnArg(stmts)
    case None => Err(DataReturnNotFound)
    case Some(e) => if e.Object? then RefStmts(e.props) else Err(DataReturnNotObject)
  }

  /** `transform_data`: the refs for the object returned by `data()`. */
  method TransformData(stmts: seq<Stmt>) returns (r: Fallible<seq<Stmt>>)
    ensures r == DataRefs(stmts)
  {
    var ret := FirstReturnArg(stmts);
    if ret.None? {
      return Err(DataReturnNotFound);
    }
    if !ret.value.Object? {
      return Err(DataReturnNotObject);
    }
    var props := ret.value.props;
    var setup: seq<Stmt> := [];
    var i := 0;
    while i < |props|
      invariant 0 <= i <= |props|
      invariant RefStmts(props[..i]) == Ok(setup)
    {
      var p := props[i];
      RefStmtsStep(props, i, setup);
      if !(p.PropItem? && p.prop.KeyValue?) {
        return Err(DataPropNotKeyValue);
      }
      if !p.prop.key.IdentKey? {
        return Err(DataKeyNotIdent);
      }
      setup := setup + [RefDecl(p.prop.key.name, p.prop.value)];
      i := i + 1;
    }
    assert props[..i] == props;
    return Ok(setup);
  }

  /** `transform_data` succeeds exactly when some `return` has an object-literal
      argument whose properties all lower, and then emits one ref per property
      of the first such return's object, in order. */
  lemma DataRefsMeaning(stmts: seq<Stmt>)
    ensures DataRefs(stmts).Ok? <==>
      FirstReturnArg(stmts).Some? && FirstReturnArg(stmts).value.Object?
      && forall i :: 0 <= i < |FirstReturnArg(stmts).value.props| ==> IsRefSource(FirstReturnArg(stmts).value.props[i])
    ensures DataRefs(stmts) == Err(DataReturnNotFound) <==> forall i :: 0 <= i < |stmts| ==> !IsReturnWithArg(stmts[i])
  {
    FirstReturnArgIsFirst(stmts);
  }

  // ------------------------------------------------------------ the component

  /** The method members as function declarations, one-to-one and in order. */
  function MethodStmts(ds: seq<FnDecl>): (r: seq<Stmt>)
    ensures |r| == |ds| && forall i :: 0 <= i < |ds| ==> r[i].FnDeclStmt? && r[i].decl == ds[i]
  {
    seq(|ds|, i requires 0 <= i < |ds| => FnDeclStmt(ds[i]))
  }

  /** `transform_component`, one section at a time. Each step says which
      group it may change; every other group is left as it was. */

  /** Components, props and the inject statements pass through verbatim. */
  function PassThrough(o: OptionsComponent, c: CompositionComponent, injectStmts: Option<seq<Stmt>>): (r: CompositionComponent)
    ensures r == c.(components := r.components, props := r.props, injectStmts := r.injectStmts)
    ensures r.components == (if o.components.Some? then o.components else c.components)
    ensures r.props == (if o.props.Some? then o.props else c.props)
    ensures r.injectStmts == (if injectStmts.Some? then injectStmts else c.injectStmts)
  {
    var c1 := if o.components.Some? then c.(components := o.components) else c;
    var c2 := if o.props.Some? then c1.(props := o.props) else c1;
    if injectStmts.Some? then c2.(injectStmts := injectStmts) else c2
  }

  /** `data()` becomes its refs; a body-less `data` panics. */
  function WithData(o: OptionsComponent, c: CompositionComponent): (r: Fallible<CompositionComponent>)
    ensures r.Ok? ==> r.value == c.(refStmts := r.value.refStmts)
    ensures r.Err? <==> o.data.Some? && (o.data.value.body.None? || DataRefs(o.data.value.body.value.stmts).Err?)
    ensures r.Ok? && o.data.Some? ==> r.value.refStmts == Some(DataRefs(o.data.value.body.value.stmts).value)
    ensures r.Ok? && o.data.None? ==> r.value == c
  {
    if o.data.None? then Ok(c)
    else if o.data.value.body.None? then Err(MissingBody)
    else
      var refs :- DataRefs(o.data.value.body.value.stmts);
      Ok(c.(refStmts := Some(refs)))
  }

  /** The statements of `created()` are copied only when it has a body. */
  function WithCreated(o: OptionsComponent, c: CompositionComponent): (r: CompositionComponent)
    ensures r == c.(createdStmts := r.createdStmts)
    ensures o.created.Some? && o.created.value.body.Some? ==> r.createdStmts == Some(o.created.value.body.value.stmts)
    ensures o.created.None? || o.created.value.body.None? ==> r == c
  {
    if o.created.Some? && o.created.value.body.Some? then c.(createdStmts := Some(o.created.value.body.value.stmts)) else c
  }

  function WithComputed(o: OptionsComponent, c: CompositionComponent): (r: Fallible<CompositionComponent>)
    ensures r.Ok? ==> r.value == c.(computed := r.value.computed)
    ensures r.Err? <==> o.computed.Some? && TransformComputed(o.computed.value).Err?
    ensures r.Ok? && o.computed.Some? ==> r.value.computed == Some(TransformComputed(o.computed.value).value)
    ensures o.computed.None? ==> r == Ok(c)
  {
    if o.computed.None? then Ok(c)
    else var s :- TransformComputed(o.computed.value); Ok(c.(computed := Some(s)))
  }

  function WithWatch(o: OptionsComponent, c: CompositionComponent): (r: Fallible<CompositionComponent>)
    ensures r.Ok? ==> r.value == c.(watch := r.value.watch)
    ensures r.Err? <==> o.watch.Some? && TransformWatch(o.watch.value).Err?
    ensures r.Ok? && o.watch.Some? ==> r.value.watch == Some(TransformWatch(o.watch.value).value)
    ensures o.watch.None? ==> r == Ok(c)
  {
    if o.watch.None? then Ok(c)
    else var s :- TransformWatch(o.watch.value); Ok(c.(watch := Some(s)))
  }

  /** Methods become function declarations, one-to-one and in order. */
  function WithMethods(o: OptionsComponent, c: CompositionComponent): (r: CompositionComponent)
    ensures r == c.(methodDecls := r.methodDecls)
    ensures o.methods.Some? ==> r.methodDecls.Some? && |r.methodDecls.value| == |o.methods.value|
    ensures o.methods.Some? ==> forall i :: 0 <= i < |o.methods.value| ==> r.methodDecls.value[i] == FnDeclStmt(o.methods.value[i])
    ensures o.methods.None? ==> r == c
  {
    if o.methods.Some? then c.(methodDecls := Some(MethodStmts(o.methods.value))) else c
  }

  function WithMounted(o: OptionsComponent, c: CompositionComponent): (r: CompositionComponent)
    ensures r == c.(mounted := r.mounted)
    ensures o.mounted.Some? ==> r.mounted == Some(TransformMounted(o.mounted.value))
    ensures o.mounted.None? ==> r == c
  {
    if o.mounted.Some? then c.(mounted := Some(TransformMounted(o.mounted.value))) else c
  }

  /** The Composition record after lowering every present section of `o` into
      `c`, given the inject statements. Sections run in source order, so the
      first panic is the one of the earliest section. */
  function LowerSections(o: OptionsComponent, c: CompositionComponent, injectStmts: Option<seq<Stmt>>): Fallible<CompositionComponent> {
    LowerGroups(o, PassThrough(o, c, injectStmts))
  }

  /** The sections after the pass-through ones: data, created, computed, watch,
      methods, mounted. */
  function LowerGroups(o: OptionsComponent, c: CompositionComponent): Fallible<CompositionComponent> {
    var c4 :- WithData(o, c);
    var c6 :- WithComputed(o, WithCreated(o, c4));
    var c7 :- WithWatch(o, c6);
    Ok(WithMounted(o, WithMethods(o, c7)))
  }

  /** Lowering panics exactly when `data()` has no body or does not lower, or a
      computed or watch entry is a lone `return;`. */
  lemma LowerSectionsFails(o: OptionsComponent, c: CompositionComponent, injectStmts: Option<seq<Stmt>>)
    ensures LowerSections(o, c, injectStmts).Err? <==>
      || (o.data.Some? && (o.data.value.body.None? || DataRefs(o.data.value.body.value.stmts).Err?))
      || (o.computed.Some? && exists i :: 0 <= i < |o.computed.value| && LowerComputed(o.computed.value[i]).Err?)
      || (o.watch.Some? && exists i :: 0 <= i < |o.watch.value| && LowerWatch(o.watch.value[i]).Err?)
  {
    if o.computed.Some? { LowerAllOk(o.computed.value, LowerComputed); }
    if o.watch.Some? { LowerAllOk(o.watch.value, LowerWatch); }
  }
}

/** What the analyzer and the extractor compute from the default-exported
    object literal (`src/visitor/process.rs`, and the older copy in
    `src/visitor/mod.rs`), as functions of the member list. The `Visitor`
    class runs the same steps as loops over its fields.

    The folds recurse on the last member, so that "after the first i members"
    is `F(ps[..i])`: later members overwrite what earlier ones set. */
module Extract {
  import opened Outcomes
  import opened JsAst
  import opened Vue
  import opened Utils

  predicate IsIdentKeyValue(p: PropOrSpread, name: string) {
    p.PropItem? && p.prop.KeyValue? && p.prop.key == IdentKey(name)
  }

  predicate IsIdentMethod(p: PropOrSpread, name: string) {
    p.PropItem? && p.prop.Method? && p.prop.key == IdentKey(name)
  }

  /** The value of the last member `name: v` with an identifier key. */
  function LastKeyValue(ps: seq<PropOrSpread>, name: string): Option<Expr> {
    if ps == [] then None
    else if IsIdentKeyValue(ps[|ps| - 1], name) then Some(ps[|ps| - 1].prop.value)
    else LastKeyValue(ps[..|ps| - 1], name)
  }

  /** The function of the last method member `name() {…}` with an identifier key. */
  function LastMethod(ps: seq<PropOrSpread>, name: string): Option<Function> {
    if ps == [] then None
    else if IsIdentMethod(ps[|ps| - 1], name) then Some(ps[|ps| - 1].prop.func)
    else LastMethod(ps[..|ps| - 1], name)
  }

  lemma {:induction false} LastKeyValueSound(ps: seq<PropOrSpread>, name: string, v: Expr) returns (i: nat)
    requires LastKeyValue(ps, name) == Some(v)
    ensures i < |ps| && ps[i] == IdentKeyValue(name, v)
    ensures forall j :: i < j < |ps| ==> !IsIdentKeyValue(ps[j], name)
  {
    var n := |ps| - 1;
    if IsIdentKeyValue(ps[n], name) {
      i := n;
    } else {
      var init := ps[..n];
      i := LastKeyValueSound(init, name, v);
      assert ps[i] == init[i];
      forall j | i < j < |ps| ensures !IsIdentKeyValue(ps[j], name) {
        if j < n { assert ps[j] == init[j]; }
      }
    }
  }

  lemma {:induction false} LastKeyValueComplete(ps: seq<PropOrSpread>, name: string, v: Expr, i: nat)
    requires i < |ps| && ps[i] == IdentKeyValue(name, v)
    requires forall j :: i < j < |ps| ==> !IsIdentKeyValue(ps[j], name)
    ensures LastKeyValue(ps, name) == Some(v)
  {
    var n := |ps| - 1;
    if i < n {
      var init := ps[..n];
      assert init[i] == ps[i];
      forall j | i < j < |init| ensures !IsIdentKeyValue(init[j], name) {
        assert init[j] == ps[j];
      }
      LastKeyValueComplete(init, name, v, i);
    }
  }

  /** The slot filled from `name: v` holds `v` exactly when some member is
      `name: v` and no later member has that name. */
  lemma LastKeyValueIsLast(ps: seq<PropOrSpread>, name: string, v: Expr)
    ensures LastKeyValue(ps, name) == Some(v) <==>
      exists i :: 0 <= i < |ps| && ps[i] == IdentKeyValue(name, v)
        && forall j :: i < j < |ps| ==> !IsIdentKeyValue(ps[j], name)
  {
    if LastKeyValue(ps, name) == Some(v) {
      var i := LastKeyValueSound(ps, name, v);
    }
    if exists i :: 0 <= i < |ps| && ps[i] == IdentKeyValue(name, v)
         && forall j :: i < j < |ps| ==> !IsIdentKeyValue(ps[j], name) {
      var i :| 0 <= i < |ps| && ps[i] == IdentKeyValue(name, v)
        && forall j :: i < j < |ps| ==> !IsIdentKeyValue(ps[j], name);
      LastKeyValueComplete(ps, name, v, i);
    }
  }

  lemma {:induction false} LastKeyValueAbsent(ps: seq<PropOrSpread>, name: string)
    ensures LastKeyValue(ps, name).None? <==> forall i :: 0 <= i < |ps| ==> !IsIdentKeyValue(ps[i], name)
  {
    if ps != [] {
      var n := |ps| - 1;
      LastKeyValueAbsent(ps[..n], name);
      if !IsIdentKeyValue(ps[n], name) && LastKeyValue(ps, name).None? {
        forall i | 0 <= i < |ps| ensures !IsIdentKeyValue(ps[i], name) {
          if i < n { assert ps[i] == ps[..n][i]; }
        }
      }
      if forall i :: 0 <= i < |ps| ==> !IsIdentKeyValue(ps[i], name) {
        assert forall i :: 0 <= i < n ==> ps[..n][i] == ps[i];
      }
    }
  }

  // ---------------------------------------------------------------- analyzer

  /** `props_set` after `preprocess_default_export`: the prop set of the last
      identifier-keyed `props:` member; unchanged if there is none. */
  function PropsSetAfter(ps: seq<PropOrSpread>, init: Option<set<string>>): Option<set<string>> {
    match LastKeyValue(ps, "props")
    case Some(v) => PropSetFromObjectLit(v)
    case None => init
  }

  /** `inject_set` after `preprocess_default_export`, for the given
      `inject_set_from_object_lit`. */
  function InjectSetAfter(ps: seq<PropOrSpread>, injectSetOf: Expr -> Option<map<string, string>>,
                          init: Option<map<string, string>>): Option<map<string, string>> {
    match LastKeyValue(ps, "inject")
    case Some(v) => injectSetOf(v)
    case None => init
  }

  // --------------------------------------------------------------- extractor

  /** `process_method_prop`: a `data`, `created` or `mounted` method fills its slot. */
  function MethodPropStep(o: OptionsComponent, key: PropName, f: Function): OptionsComponent {
    if key == IdentKey("data") then o.(data := Some(f))
    else if key == IdentKey("created") then o.(created := Some(f))
    else if key == IdentKey("mounted") then o.(mounted := Some(f))
    else o
  }

  /** One `computed` / `methods` entry: an identifier-keyed method member. */
  function MethodEntry(p: PropOrSpread): seq<FnDecl> {
    match p
    case PropItem(Method(IdentKey(n), f)) => [FnDecl(n, f)]
    case _ => []
  }

  /** The entries `process_computed` and `process_methods` collect, in order. */
  function MethodDecls(ps: seq<PropOrSpread>): seq<FnDecl> {
    if ps == [] then [] else MethodDecls(ps[..|ps| - 1]) + MethodEntry(ps[|ps| - 1])
  }

  /** What the scan of a watch configuration object has found so far. */
  datatype WatchConfig = WatchConfig(handler: Option<Function>, deep: Option<Expr>, immediate: Option<Expr>)

  function WatchConfigStep(c: WatchConfig, p: PropOrSpread): WatchConfig {
    match p
    case PropItem(Method(IdentKey(n), f)) => if n == "handler" then c.(handler := Some(f)) else c
    case PropItem(KeyValue(IdentKey(n), v)) =>
      var c' := if n == "deep" then c.(deep := Some(v)) else c;
      if n == "immediate" then c'.(immediate := Some(v)) else c'
    case _ => c
  }

  /** The inner loop of `process_watch` over `{ handler() {…}, deep: …, immediate: … }`. */
  function ScanWatchConfig(ps: seq<PropOrSpread>): WatchConfig {
    if ps == [] then WatchConfig(None, None, None)
    else WatchConfigStep(ScanWatchConfig(ps[..|ps| - 1]), ps[|ps| - 1])
  }

  /** One `watch` entry: a handler method, or a configuration object that has a `handler`. */
  function WatchEntry(p: PropOrSpread): seq<WatchDecl> {
    match p
    case PropItem(Method(IdentKey(n), f)) => [WatchDecl(n, f, None, None)]
    case PropItem(KeyValue(IdentKey(n), Object(inner))) =>
      var c := ScanWatchConfig(inner);
      if c.handler.Some? then [WatchDecl(n, c.handler.value, c.deep, c.immediate)] else []
    case _ => []
  }

  /** The entries `process_watch` collects, in order. */
  function WatchDecls(ps: seq<PropOrSpread>): seq<WatchDecl> {
    if ps == [] then [] else WatchDecls(ps[..|ps| - 1]) + WatchEntry(ps[|ps| - 1])
  }

  /** `process_key_value`; `handlesWatch` is false for the older copy in
      `mod.rs`, which has no `watch` case. */
  function KeyValueStep(o: OptionsComponent, key: PropName, value: Expr, handlesWatch: bool): OptionsComponent {
    if key == IdentKey("components") then o.(components := Some(value))
    else if key == IdentKey("inject") then o.(inject := Some(value))
    else if key == IdentKey("props") then o.(props := Some(value))
    else if key == IdentKey("computed") && value.Object? then
      var decls := MethodDecls(value.props);
      if |decls| > 0 then o.(computed := Some(decls)) else o
    else if key == IdentKey("watch") && value.Object? && handlesWatch then
      var decls := WatchDecls(value.props);
      if |decls| > 0 then o.(watch := Some(decls)) else o
    else if key == IdentKey("methods") && value.Object? then
      var decls := MethodDecls(value.props);
      if |decls| > 0 then o.(methods := Some(decls)) else o
    else o
  }

  function MemberStep(o: OptionsComponent, p: PropOrSpread, handlesWatch: bool): OptionsComponent {
    match p
    case PropItem(Method(key, f)) => MethodPropStep(o, key, f)
    case PropItem(KeyValue(key, value)) => KeyValueStep(o, key, value, handlesWatch)
    case _ => o
  }

  /** `process_default_export`: every member in turn. */
  function ExtractOptions(o: OptionsComponent, ps: seq<PropOrSpread>, handlesWatch: bool): OptionsComponent {
    if ps == [] then o else MemberStep(ExtractOptions(o, ps[..|ps| - 1], handlesWatch), ps[|ps| - 1], handlesWatch)
  }

  // ------------------------------------------------------------------ lemmas

  /** Collecting computed/methods entries preserves source order. */
  lemma {:induction false} MethodDeclsAppend(a: seq<PropOrSpread>, b: seq<PropOrSpread>)
    ensures MethodDecls(a + b) == MethodDecls(a) + MethodDecls(b)
    decreases |b|
  {
    if b != [] {
      var n := |b| - 1;
      assert (a + b)[..|a + b| - 1] == a + b[..n];
      assert (a + b)[|a + b| - 1] == b[n];
      MethodDeclsAppend(a, b[..n]);
      assert MethodDecls(b) == MethodDecls(b[..n]) + MethodEntry(b[n]);
    } else {
      assert a + b == a;
    }
  }

  /** The entries are exactly the identifier-keyed method members. */
  lemma {:induction false} MethodDeclsMembers(ps: seq<PropOrSpread>, d: FnDecl)
    ensures d in MethodDecls(ps) <==>
      exists i :: 0 <= i < |ps| && ps[i] == PropItem(Method(IdentKey(d.ident), d.func))
  {
    if ps != [] {
      var n := |ps| - 1;
      MethodDeclsMembers(ps[..n], d);
      if d in MethodDecls(ps[..n]) {
        var i :| 0 <= i < |ps[..n]| && ps[..n][i] == PropItem(Method(IdentKey(d.ident), d.func));
        assert ps[i] == ps[..n][i];
      }
      if exists i :: 0 <= i < |ps| && ps[i] == PropItem(Method(IdentKey(d.ident), d.func)) {
        var i :| 0 <= i < |ps| && ps[i] == PropItem(Method(IdentKey(d.ident), d.func));
        if i < n { assert ps[..n][i] == ps[i]; }
      }
    }
  }

  /** A watch configuration takes the last `handler` method and the last
      `deep` / `immediate` key-value members. */
  lemma {:induction false} ScanWatchConfigTakesLast(ps: seq<PropOrSpread>)
    ensures ScanWatchConfig(ps) ==
      WatchConfig(LastMethod(ps, "handler"), LastKeyValue(ps, "deep"), LastKeyValue(ps, "immediate"))
  {
    if ps != [] {
      ScanWatchConfigTakesLast(ps[..|ps| - 1]);
    }
  }

  /** Collecting watch entries preserves source order. */
  lemma {:induction false} WatchDeclsAppend(a: seq<PropOrSpread>, b: seq<PropOrSpread>)
    ensures WatchDecls(a + b) == WatchDecls(a) + WatchDecls(b)
    decreases |b|
  {
    if b != [] {
      var n := |b| - 1;
      assert (a + b)[..|a + b| - 1] == a + b[..n];
      assert (a + b)[|a + b| - 1] == b[n];
      WatchDeclsAppend(a, b[..n]);
      assert WatchDecls(b) == WatchDecls(b[..n]) + WatchEntry(b[n]);
    } else {
      assert a + b == a;
    }
  }

  /** No list-valued section is ever present but empty. */
  predicate ListsNonEmpty(o: OptionsComponent) {
    && (o.computed.Some? ==> |o.computed.value| > 0)
    && (o.watch.Some? ==> |o.watch.value| > 0)
    && (o.methods.Some? ==> |o.methods.value| > 0)
  }

  lemma {:induction false} ExtractKeepsListsNonEmpty(o: OptionsComponent, ps: seq<PropOrSpread>, handlesWatch: bool)
    requires ListsNonEmpty(o)
    ensures ListsNonEmpty(ExtractOptions(o, ps, handlesWatch))
  {
    if ps != [] {
      ExtractKeepsListsNonEmpty(o, ps[..|ps| - 1], handlesWatch);
    }
  }

  /** One member fills a single-valued slot only when it has that slot's name and shape. */
  lemma MemberStepSlots(o: OptionsComponent, p: PropOrSpread, handlesWatch: bool)
    ensures var r := MemberStep(o, p, handlesWatch);
      && r.data == (if IsIdentMethod(p, "data") then Some(p.prop.func) else o.data)
      && r.created == (if IsIdentMethod(p, "created") then Some(p.prop.func) else o.created)
      && r.mounted == (if IsIdentMethod(p, "mounted") then Some(p.prop.func) else o.mounted)
      && r.components == (if IsIdentKeyValue(p, "components") then Some(p.prop.value) else o.components)
      && r.inject == (if IsIdentKeyValue(p, "inject") then Some(p.prop.value) else o.inject)
      && r.props == (if IsIdentKeyValue(p, "props") then Some(p.prop.value) else o.props)
  {
  }

  /** The single-valued slots hold what the last member of the right name and
      shape holds: `data`/`created`/`mounted` only as methods,
      `components`/`inject`/`props` only as key-value members (verbatim). */
  lemma {:induction false} ExtractTakesLast(o: OptionsComponent, ps: seq<PropOrSpread>, handlesWatch: bool)
    ensures var r := ExtractOptions(o, ps, handlesWatch);
      && r.data == (if LastMethod(ps, "data").Some? then LastMethod(ps, "data") else o.data)
      && r.created == (if LastMethod(ps, "created").Some? then LastMethod(ps, "created") else o.created)
      && r.mounted == (if LastMethod(ps, "mounted").Some? then LastMethod(ps, "mounted") else o.mounted)
      && r.components == (if LastKeyValue(ps, "components").Some? then LastKeyValue(ps, "components") else o.components)
      && r.inject == (if LastKeyValue(ps, "inject").Some? then LastKeyValue(ps, "inject") else o.inject)
      && r.props == (if LastKeyValue(ps, "props").Some? then LastKeyValue(ps, "props") else o.props)
  {
    if ps != [] {
      var n := |ps| - 1;
      ExtractTakesLast(o, ps[..n], handlesWatch);
      MemberStepSlots(ExtractOptions(o, ps[..n], handlesWatch), ps[n], handlesWatch);
    }
  }

  /** A member that is neither a method nor a key-value member (spread,
      shorthand, getter, setter, assignment) or whose key is not an identifier
      changes nothing, wherever it stands. */
  predicate Inert(p: PropOrSpread) {
    !(p.PropItem? && (p.prop.Method? || p.prop.KeyValue?) && p.prop.key.IdentKey?)
  }

  lemma {:induction false} ExtractSkipsInert(o: OptionsComponent, a: seq<PropOrSpread>, p: PropOrSpread,
                                             b: seq<PropOrSpread>, handlesWatch: bool)
    requires Inert(p)
    ensures ExtractOptions(o, a + [p] + b, handlesWatch) == ExtractOptions(o, a + b, handlesWatch)
    decreases |b|
  {
    if b == [] {
      assert (a + [p] + b)[..|a + [p] + b| - 1] == a;
      assert a + b == a;
    } else {
      var n := |b| - 1;
      assert (a + [p] + b)[..|a + [p] + b| - 1] == a + [p] + b[..n];
      assert (a + b)[..|a + b| - 1] == a + b[..n];
      ExtractSkipsInert(o, a, p, b[..n], handlesWatch);
    }
  }

  /** The older extractor of `mod.rs` never touches `watch` and otherwise does
      what `process.rs` does. */
  lemma {:induction false} OlderExtractorIgnoresWatch(o: OptionsComponent, ps: seq<PropOrSpread>)
    ensures ExtractOptions(o, ps, false) == ExtractOptions(o, ps, true).(watch := o.watch)
  {
    if ps != [] {
      OlderExtractorIgnoresWatch(o, ps[..|ps| - 1]);
    }
  }
}

/** The earlier extractor (`src/ast.rs`): a record holding whole members, not
    their values, recognised by identifier or string key. */
module VueAst {
  import opened Outcomes
  import opened JsAst
  import opened Transform

  datatype VueOptionsComponent = VueOptionsComponent(
    components: Option<KeyValueProp>,
    props: Option<KeyValueProp>,
    data: Option<MethodProp>,
    created: Option<MethodProp>,
    mounted: Option<MethodProp>,
    methods: Option<KeyValueProp>)

  datatype VueCompositionComponent = VueCompositionComponent(props: Option<KeyValueProp>, setup: Option<MethodProp>)

  /** `VueOptionsComponent::default()`. */
  function DefaultVueOptions(): (v: VueOptionsComponent)
    ensures v.components.None? && v.props.None? && v.data.None?
    ensures v.created.None? && v.mounted.None? && v.methods.None?
  {
    VueOptionsComponent(None, None, None, None, None, None)
  }

  /** `VueCompositionComponent::default()`. */
  function DefaultVueComposition(): (v: VueCompositionComponent)
    ensures v.props.None? && v.setup.None?
  {
    VueCompositionComponent(None, None)
  }

  /** The name of a key: an identifier or a string; numeric and computed keys have none. */
  function KeyString(k: PropName): (r: Option<string>)
    ensures r.Some? <==> k.IdentKey? || k.StrKey?
  {
    match k
    case IdentKey(n) => Some(n)
    case StrKey(s) => Some(s)
    case _ => None
  }

  /** The name a member is recognised by: only key-value and method members have one. */
  function MemberName(p: PropOrSpread): Option<string> {
    if p.PropItem? && (p.prop.KeyValue? || p.prop.Method?) then KeyString(p.prop.key) else None
  }

  predicate IsKeyValueName(n: string) {
    n == "components" || n == "props" || n == "methods"
  }

  predicate IsMethodName(n: string) {
    n == "data" || n == "created" || n == "mounted"
  }

  /** A recognised name in the other shape: `key_value().unwrap()` or
      `method().unwrap()` panics on it. */
  predicate WrongShape(p: PropOrSpread) {
    MemberName(p).Some? &&
    ((IsKeyValueName(MemberName(p).value) && !p.prop.KeyValue?)
     || (IsMethodName(MemberName(p).value) && !p.prop.Method?))
  }

  /** One iteration of `create_vue_component`'s loop. */
  function VueStep(v: VueOptionsComponent, p: PropOrSpread): (r: Fallible<VueOptionsComponent>)
    ensures r.Err? <==> WrongShape(p)
    ensures MemberName(p).None? ==> r == Ok(v)
  {
    match MemberName(p)
    case None => Ok(v)
    case Some(name) =>
      var prop := p.prop;
      if name == "components" then (if prop.KeyValue? then Ok(v.(components := Some(prop))) else Err(WrongMemberShape))
      else if name == "props" then (if prop.KeyValue? then Ok(v.(props := Some(prop))) else Err(WrongMemberShape))
      else if name == "data" then (if prop.Method? then Ok(v.(data := Some(prop))) else Err(WrongMemberShape))
      else if name == "created" then (if prop.Method? then Ok(v.(created := Some(prop))) else Err(WrongMemberShape))
      else if name == "mounted" then (if prop.Method? then Ok(v.(mounted := Some(prop))) else Err(WrongMemberShape))
      else if name == "methods" then (if prop.KeyValue? then Ok(v.(methods := Some(prop))) else Err(WrongMemberShape))
      else Ok(v)
  }

  /** What `create_vue_component` computes: every member in turn. */
  function VueComponentOf(ps: seq<PropOrSpread>): Fallible<VueOptionsComponent> {
    if ps == [] then Ok(DefaultVueOptions())
    else
      var v :- VueComponentOf(ps[..|ps| - 1]);
      VueStep(v, ps[|ps| - 1])
  }

  lemma {:induction false} VueComponentPrefixErr(ps: seq<PropOrSpread>, k: nat)
    requires k <= |ps|
    requires VueComponentOf(ps[..k]).Err?
    ensures VueComponentOf(ps) == VueComponentOf(ps[..k])
    decreases |ps| - k
  {
    if k < |ps| {
      assert ps[..k + 1][..k] == ps[..k];
      VueComponentPrefixErr(ps, k + 1);
    } else {
      assert ps[..k] == ps;
    }
  }

  /** `create_vue_component`. */
  method CreateVueComponent(members: seq<PropOrSpread>) returns (r: Fallible<VueOptionsComponent>)
    ensures r == VueComponentOf(members)
  {
    var vue := DefaultVueOptions();
    for i := 0 to |members|
      invariant VueComponentOf(members[..i]) == Ok(vue)
    {
      assert members[..i + 1][..i] == members[..i];
      var x := members[i];
      if !x.PropItem? || !(x.prop.KeyValue? || x.prop.Method?) {
        continue;
      }
      var prop := x.prop;
      var keystr := KeyString(prop.key);
      if keystr.None? {
        continue;
      }
      var name := keystr.value;
      if (IsKeyValueName(name) && !prop.KeyValue?) || (IsMethodName(name) && !prop.Method?) {
        VueComponentPrefixErr(members, i + 1);
        return Err(WrongMemberShape);
      }
      if name == "components" {
        vue := vue.(components := Some(prop));
      } else if name == "props" {
        vue := vue.(props := Some(prop));
      } else if name == "data" {
        vue := vue.(data := Some(prop));
      } else if name == "created" {
        vue := vue.(created := Some(prop));
      } else if name == "mounted" {
        vue := vue.(mounted := Some(prop));
      } else if name == "methods" {
        vue := vue.(methods := Some(prop));
      }
    }
    assert members[..|members|] == members;
    return Ok(vue);
  }

  /** The extractor panics exactly when some member has a recognised name in the wrong shape. */
  lemma {:induction false} VueComponentFails(ps: seq<PropOrSpread>)
    ensures VueComponentOf(ps).Err? <==> exists i :: 0 <= i < |ps| && WrongShape(ps[i])
  {
    if ps != [] {
      var n := |ps| - 1;
      VueComponentFails(ps[..n]);
      if exists i :: 0 <= i < n && WrongShape(ps[..n][i]) {
        var i :| 0 <= i < n && WrongShape(ps[..n][i]);
        assert ps[i] == ps[..n][i];
      }
      if exists i :: 0 <= i < |ps| && WrongShape(ps[i]) {
        var i :| 0 <= i < |ps| && WrongShape(ps[i]);
        if i < n {
          assert ps[..n][i] == ps[i];
        }
      }
    }
  }

  /** The last member recognised by the given name, in whichever shape. */
  function LastNamed(ps: seq<PropOrSpread>, name: string): Option<Prop> {
    if ps == [] then None
    else if MemberName(ps[|ps| - 1]) == Some(name) then Some(ps[|ps| - 1].prop)
    else LastNamed(ps[..|ps| - 1], name)
  }

  /** A later member with a recognised name overwrites an earlier one, and a
      field no member names stays absent. */
  lemma {:induction false} VueComponentTakesLast(ps: seq<PropOrSpread>)
    requires VueComponentOf(ps).Ok?
    ensures var v := VueComponentOf(ps).value;
      && v.components == LastNamed(ps, "components") && v.props == LastNamed(ps, "props")
      && v.data == LastNamed(ps, "data") && v.created == LastNamed(ps, "created")
      && v.mounted == LastNamed(ps, "mounted") && v.methods == LastNamed(ps, "methods")
  {
    if ps != [] {
      var n := |ps| - 1;
      assert VueComponentOf(ps[..n]).Ok?;
      VueComponentTakesLast(ps[..n]);
      VueStepSlots(VueComponentOf(ps[..n]).value, ps[n]);
    }
  }

  /** Each field after one step: set by a member of that name, kept otherwise. */
  lemma VueStepSlots(v: VueOptionsComponent, p: PropOrSpread)
    requires VueStep(v, p).Ok?
    ensures var r := VueStep(v, p).value;
      && r.components == (if MemberName(p) == Some("components") then Some(p.prop) else v.components)
      && r.props == (if MemberName(p) == Some("props") then Some(p.prop) else v.props)
      && r.data == (if MemberName(p) == Some("data") then Some(p.prop) else v.data)
      && r.created == (if MemberName(p) == Some("created") then Some(p.prop) else v.created)
      && r.mounted == (if MemberName(p) == Some("mounted") then Some(p.prop) else v.mounted)
      && r.methods == (if MemberName(p) == Some("methods") then Some(p.prop) else v.methods)
  {
  }

  /** `data_to_refs` of `src/ast.rs`: a body-less `data` panics; otherwise the
      same refs as `transform_data`, built by the same loop. */
  method DataToRefs(data: MethodProp) returns (r: Fallible<seq<Stmt>>)
    ensures data.func.body.None? ==> r == Err(MissingBody)
    ensures data.func.body.Some? ==> r == DataRefs(data.func.body.value.stmts)
  {
    if data.func.body.None? {
      return Err(MissingBody);
    }
    r := TransformData(data.func.body.value.stmts);
  }
}

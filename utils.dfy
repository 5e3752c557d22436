/** The prop-name set of a component (`prop_set_from_object_lit`). */
module Utils {
  import opened Outcomes
  import opened JsAst

  /** The element is the string literal `s` (spread or not); holes and other expressions are not. */
  predicate IsStringElement(elem: Option<ExprOrSpread>, s: string) {
    elem.Some? && elem.value.expr == LitExpr(StrLit(s))
  }

  /** The member is `name: …` with an identifier key `name` or a string key `'name'`. */
  predicate IsNamedKeyValue(p: PropOrSpread, name: string) {
    p.PropItem? && p.prop.KeyValue? && (p.prop.key == IdentKey(name) || p.prop.key == StrKey(name))
  }

  /** The string literals among the elements, in order (the `filter_map` over an array literal). */
  function StringElements(elems: seq<Option<ExprOrSpread>>): seq<string> {
    if elems == [] then []
    else
      (match elems[0]
       case Some(ExprOrSpread(_, LitExpr(StrLit(s)))) => [s]
       case _ => [])
      + StringElements(elems[1..])
  }

  /** The key names of the identifier- or string-keyed key-value members, in order. */
  function KeyNames(props: seq<PropOrSpread>): seq<string> {
    if props == [] then []
    else
      (match props[0]
       case PropItem(KeyValue(IdentKey(n), _)) => [n]
       case PropItem(KeyValue(StrKey(s), _)) => [s]
       case _ => [])
      + KeyNames(props[1..])
  }

  function SetOf(items: seq<string>): (r: set<string>)
    ensures forall s :: s in r <==> s in items
    ensures r == {} <==> items == []
  {
    assert items != [] ==> items[0] in set s | s in items;
    set s | s in items
  }

  /** The names a `props` declaration declares: the string elements of an array
      literal or the keys of an object literal; absent for any other expression
      and, rather than an empty set, when nothing qualifies. */
  function PropSetFromObjectLit(e: Expr): (r: Option<set<string>>)
    ensures r.Some? ==> r.value != {}
    ensures !e.Array? && !e.Object? ==> r.None?
  {
    match e
    case Array(elems) =>
      var items := StringElements(elems);
      if |items| > 0 then Some(SetOf(items)) else None
    case Object(props) =>
      var items := KeyNames(props);
      if |items| > 0 then Some(SetOf(items)) else None
    case _ => None
  }

  lemma {:induction false} StringElementsMembers(elems: seq<Option<ExprOrSpread>>, s: string)
    ensures s in StringElements(elems) <==> exists i :: 0 <= i < |elems| && IsStringElement(elems[i], s)
  {
    if elems != [] {
      StringElementsMembers(elems[1..], s);
      if s in StringElements(elems[1..]) {
        var i :| 0 <= i < |elems[1..]| && IsStringElement(elems[1..][i], s);
        assert IsStringElement(elems[i + 1], s);
      }
      if exists i :: 0 <= i < |elems| && IsStringElement(elems[i], s) {
        var i :| 0 <= i < |elems| && IsStringElement(elems[i], s);
        if i > 0 {
          assert IsStringElement(elems[1..][i - 1], s);
        }
      }
    }
  }

  lemma {:induction false} KeyNamesMembers(props: seq<PropOrSpread>, name: string)
    ensures name in KeyNames(props) <==> exists i :: 0 <= i < |props| && IsNamedKeyValue(props[i], name)
  {
    if props != [] {
      KeyNamesMembers(props[1..], name);
      if name in KeyNames(props[1..]) {
        var i :| 0 <= i < |props[1..]| && IsNamedKeyValue(props[1..][i], name);
        assert IsNamedKeyValue(props[i + 1], name);
      }
      if exists i :: 0 <= i < |props| && IsNamedKeyValue(props[i], name) {
        var i :| 0 <= i < |props| && IsNamedKeyValue(props[i], name);
        if i > 0 {
          assert IsNamedKeyValue(props[1..][i - 1], name);
        }
      }
    }
  }

  /** An array literal declares exactly its string-literal elements; holes,
      non-literal elements and non-string literals are skipped. */
  lemma ArrayPropSet(elems: seq<Option<ExprOrSpread>>, s: string)
    ensures var r := PropSetFromObjectLit(Array(elems));
      (r.Some? && s in r.value) <==> exists i :: 0 <= i < |elems| && IsStringElement(elems[i], s)
  {
    StringElementsMembers(elems, s);
  }

  /** An array literal without a string-literal element declares nothing (absent, not empty). */
  lemma ArrayWithoutStringsIsAbsent(elems: seq<Option<ExprOrSpread>>)
    requires forall i, s :: 0 <= i < |elems| ==> !IsStringElement(elems[i], s)
    ensures PropSetFromObjectLit(Array(elems)).None?
  {
    if StringElements(elems) != [] {
      StringElementsMembers(elems, StringElements(elems)[0]);
    }
  }

  /** An object literal declares exactly the names of its identifier- or
      string-keyed key-value members; methods, shorthands, spreads and numeric
      or computed keys contribute nothing. */
  lemma ObjectPropSet(props: seq<PropOrSpread>, name: string)
    ensures var r := PropSetFromObjectLit(Object(props));
      (r.Some? && name in r.value) <==> exists i :: 0 <= i < |props| && IsNamedKeyValue(props[i], name)
  {
    KeyNamesMembers(props, name);
  }

  /** An object literal without a qualifying member declares nothing (absent, not empty). */
  lemma ObjectWithoutKeysIsAbsent(props: seq<PropOrSpread>)
    requires forall i, name :: 0 <= i < |props| ==> !IsNamedKeyValue(props[i], name)
    ensures PropSetFromObjectLit(Object(props)).None?
  {
    if KeyNames(props) != [] {
      KeyNamesMembers(props, KeyNames(props)[0]);
    }
  }
}

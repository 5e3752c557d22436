/** The script-block slicer of the command-line front end (`get_script_contents`
    in `src/main.rs`), with the file read taken out: the file's text is a parameter. */
module Script {
  import opened Outcomes

  datatype InvalidScriptError = InvalidScriptError

  const OpenTag: string := "<script>"
  const CloseTag: string := "</script>"

  /** `pat` occurs in `s` at position `i`. */
  predicate OccursAt(s: string, pat: string, i: int) {
    0 <= i && i + |pat| <= |s| && s[i..i + |pat|] == pat
  }

  /** `take_until(pat)`: the position of the first occurrence of `pat`, if any. */
  function IndexOf(s: string, pat: string): (r: Option<nat>)
    ensures r.Some? ==> OccursAt(s, pat, r.value) && forall j :: 0 <= j < r.value ==> !OccursAt(s, pat, j)
    ensures r.None? ==> forall j :: 0 <= j <= |s| - |pat| ==> !OccursAt(s, pat, j)
    decreases |s|
  {
    if |s| < |pat| then None
    else if s[..|pat|] == pat then Some(0)
    else
      match IndexOf(s[1..], pat)
      case None =>
        assert forall j :: 1 <= j <= |s| - |pat| ==> !OccursAt(s, pat, j) by {
          forall j | 1 <= j <= |s| - |pat| ensures !OccursAt(s, pat, j) {
            ShiftedOccurrence(s, 1, pat, j - 1);
          }
        }
        None
      case Some(k) =>
        ShiftedOccurrence(s, 1, pat, k);
        assert forall j :: 1 <= j < k + 1 ==> !OccursAt(s, pat, j) by {
          forall j | 1 <= j < k + 1 ensures !OccursAt(s, pat, j) {
            ShiftedOccurrence(s, 1, pat, j - 1);
          }
        }
        Some(k + 1)
  }

  /** `get_script_contents` after the read: the text between the end of the
      first `<script>` (eight characters) and the first `</script>` after it. */
  function GetScriptContents(text: string): (r: Result<string, InvalidScriptError>)
    ensures r.Ok? ==> forall j :: !OccursAt(r.value, CloseTag, j)
  {
    match IndexOf(text, OpenTag)
    case None => Err(InvalidScriptError)
    case Some(start) =>
      var remaining := text[start + |OpenTag|..];
      match IndexOf(remaining, CloseTag)
      case None => Err(InvalidScriptError)
      case Some(end) =>
        assert forall j :: OccursAt(remaining[..end], CloseTag, j) ==> OccursAt(remaining, CloseTag, j) by {
          forall j | OccursAt(remaining[..end], CloseTag, j) ensures OccursAt(remaining, CloseTag, j) {
            assert remaining[..end][j..j + |CloseTag|] == remaining[j..j + |CloseTag|];
          }
        }
        Ok(remaining[..end])
  }

  /** `<script>` first occurs at `start`. */
  predicate FirstOpenAt(text: string, start: int) {
    OccursAt(text, OpenTag, start) && forall j :: 0 <= j < start ==> !OccursAt(text, OpenTag, j)
  }

  lemma ShiftedOccurrence(text: string, off: nat, pat: string, j: int)
    requires off <= |text|
    ensures OccursAt(text[off..], pat, j) <==> j >= 0 && OccursAt(text, pat, off + j)
  {
    if j >= 0 && off + j + |pat| <= |text| {
      assert text[off..][j..j + |pat|] == text[off + j..off + j + |pat|];
    }
  }

  /** The slicer fails exactly when the text has no `<script>`, or when no
      `</script>` follows the first `<script>`. */
  lemma ScriptContentsFails(text: string)
    ensures GetScriptContents(text).Err? <==>
      (forall j :: !OccursAt(text, OpenTag, j))
      || exists start :: FirstOpenAt(text, start) && forall j :: start + |OpenTag| <= j ==> !OccursAt(text, CloseTag, j)
  {
    match IndexOf(text, OpenTag)
    case None =>
    case Some(start) =>
      assert FirstOpenAt(text, start);
      var off := start + |OpenTag|;
      var remaining := text[off..];
      if IndexOf(remaining, CloseTag).None? {
        forall j | off <= j ensures !OccursAt(text, CloseTag, j) {
          ShiftedOccurrence(text, off, CloseTag, j - off);
        }
      } else {
        var k := IndexOf(remaining, CloseTag).value;
        ShiftedOccurrence(text, off, CloseTag, k);
        forall s | FirstOpenAt(text, s) ensures s == start { }
      }
  }

  /** An opening tag carrying attributes is not `<script>`: such a file is rejected. */
  lemma AttributedOpenTagRejected()
    ensures forall j :: !OccursAt("<script a>x</script>", OpenTag, j)
    ensures GetScriptContents("<script a>x</script>").Err?
  {
    var t := "<script a>x</script>";
    forall j | 0 <= j ensures !OccursAt(t, OpenTag, j) {
      if j + 8 <= |t| {
        var w := t[j..j + 8];
        assert w[0] == t[j] && w[7] == t[j + 7];
        if j == 0 {
          assert t[7] == ' ';
        } else if j == 11 {
          assert t[18] == 't';
        } else {
          assert t[j] != '<';
        }
      }
    }
    assert IndexOf(t, OpenTag).None?;
  }

  /** Otherwise the result is exactly the text between the end of the first
      `<script>` and the first `</script>` that follows it. */
  lemma ScriptContentsBetween(text: string, start: nat, end: nat)
    requires FirstOpenAt(text, start)
    requires start + |OpenTag| <= end && OccursAt(text, CloseTag, end)
    requires forall j :: start + |OpenTag| <= j < end ==> !OccursAt(text, CloseTag, j)
    ensures GetScriptContents(text) == Ok(text[start + |OpenTag|..end])
  {
    var first := IndexOf(text, OpenTag);
    assert first == Some(start);
    var off := start + |OpenTag|;
    var e := end - off;
    var remaining := text[off..];
    ShiftedOccurrence(text, off, CloseTag, e);
    assert OccursAt(remaining, CloseTag, e);
    match IndexOf(remaining, CloseTag)
    case None =>
      assert false;
    case Some(c) =>
      if c < e {
        ShiftedOccurrence(text, off, CloseTag, c);
        assert false;
      }
      if c > e {
        assert false;
      }
      assert remaining[..e] == text[off..end];
  }
}

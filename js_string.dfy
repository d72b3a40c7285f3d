/** ECMAScript's `String.prototype.trim`, which the doctor registration page applies in its
    validation and the server's registration sanitizers apply to the request body. */
module JsString {

  /** White space and line terminators as ECMAScript's `String.prototype.trim` removes
      them. */
  predicate IsJsSpace(c: char) {
    var n := c as int;
    || 0x09 <= n <= 0x0D          // tab, line feed, vertical tab, form feed, carriage return
    || n == 0x20 || n == 0xA0 || n == 0x1680
    || 0x2000 <= n <= 0x200A      // the fixed-width spaces
    || n == 0x2028 || n == 0x2029 // line and paragraph separators
    || n == 0x202F || n == 0x205F || n == 0x3000
    || n == 0xFEFF                // byte order mark
  }

  function TrimStart(s: string): (r: string)
    ensures |r| <= |s| && r == s[|s| - |r|..]
    ensures r == [] || !IsJsSpace(r[0])
    ensures forall i | 0 <= i < |s| - |r| :: IsJsSpace(s[i])
  {
    if s == [] || !IsJsSpace(s[0]) then s else TrimStart(s[1..])
  }

  function TrimEnd(s: string): (r: string)
    ensures |r| <= |s| && r == s[..|r|]
    ensures r == [] || !IsJsSpace(r[|r| - 1])
    ensures forall i | |r| <= i < |s| :: IsJsSpace(s[i])
  {
    if s == [] || !IsJsSpace(s[|s| - 1]) then s else TrimEnd(s[..|s| - 1])
  }

  /** `s.trim()`. */
  function Trim(s: string): string {
    TrimEnd(TrimStart(s))
  }

  /** `!s.trim()`: nothing is left after trimming exactly when every character is white
      space. */
  predicate Blank(s: string) {
    Trim(s) == ""
  }

  lemma BlankIffAllSpace(s: string)
    ensures Blank(s) <==> forall i | 0 <= i < |s| :: IsJsSpace(s[i])
  {
    var a := TrimStart(s);
    var r := TrimEnd(a);
    assert r != [] ==> r[|r| - 1] == a[|r| - 1];
    assert a != [] ==> a[0] == s[|s| - |a|];
  }

  /** Trimming a second time changes nothing: a trimmed value neither starts nor ends with
      white space. */
  lemma TrimIdempotent(s: string)
    ensures Trim(Trim(s)) == Trim(s)
    ensures Trim(s) == [] || (!IsJsSpace(Trim(s)[0]) && !IsJsSpace(Trim(s)[|Trim(s)| - 1]))
  {
    var a := TrimStart(s);
    var r := TrimEnd(a);
    if r != [] {
      assert r[0] == a[0];
      assert TrimStart(r) == r;
    }
  }
}

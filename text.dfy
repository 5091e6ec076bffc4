/** ASCII text helpers shared by the URL registry and the three pages:
    the `\s` character class, `toLowerCase`, `startsWith`, `includes` and
    `trim`, restricted to ASCII. */
module Text {

  /** The ASCII members of JavaScript's `\s` class (also what `trim` strips):
      space, tab, line feed, vertical tab, form feed, carriage return. */
  predicate IsSpace(c: char) {
    c == ' ' || c == '\t' || c == '\n' || c == '\r' || c as int == 11 || c as int == 12
  }

  predicate IsUpper(c: char) {
    'A' <= c <= 'Z'
  }

  /** `toLowerCase` on one ASCII character. */
  function LowerChar(c: char): (r: char)
    ensures IsUpper(c) ==> r as int == c as int + 32
    ensures !IsUpper(r)
    ensures IsSpace(r) <==> IsSpace(c)
    ensures !IsUpper(c) ==> r == c
  {
    if IsUpper(c) then (c as int + 32) as char else c
  }

  /** `toLowerCase` on an ASCII string. */
  function Lower(s: string): (r: string)
    ensures |r| == |s|
    ensures forall i :: 0 <= i < |s| ==> r[i] == LowerChar(s[i])
  {
    seq(|s|, i requires 0 <= i < |s| => LowerChar(s[i]))
  }

  predicate NoUpper(s: string) {
    forall i :: 0 <= i < |s| ==> !IsUpper(s[i])
  }

  predicate NoSpace(s: string) {
    forall i :: 0 <= i < |s| ==> !IsSpace(s[i])
  }

  /** `s.startsWith(p)`. */
  predicate StartsWith(s: string, p: string) {
    |p| <= |s| && s[..|p|] == p
  }

  /** `s.endsWith(p)`. */
  predicate EndsWith(s: string, p: string) {
    |p| <= |s| && s[|s| - |p|..] == p
  }

  /** `q` occurs in `t` starting at index `i`. */
  predicate OccursAt(t: string, q: string, i: int) {
    0 <= i <= |t| - |q| && t[i..i + |q|] == q
  }

  /** `t.includes(q)`, scanning from the left as the string search does. */
  function Contains(t: string, q: string): (r: bool)
    ensures r <==> exists i :: OccursAt(t, q, i)
    decreases |t|
  {
    if StartsWith(t, q) then
      assert OccursAt(t, q, 0);
      true
    else if t == [] then
      false
    else
      var rest := Contains(t[1..], q);
      assert forall i :: OccursAt(t, q, i) ==> i >= 1 && OccursAt(t[1..], q, i - 1);
      assert forall i :: OccursAt(t[1..], q, i) ==> OccursAt(t, q, i + 1);
      rest
  }

  /** `trimStart`: drops the leading whitespace. */
  function TrimStart(s: string): (r: string)
    ensures |r| <= |s| && r == s[|s| - |r|..]
    ensures r == [] || !IsSpace(r[0])
    ensures forall i :: 0 <= i < |s| - |r| ==> IsSpace(s[i])
  {
    if s != [] && IsSpace(s[0]) then TrimStart(s[1..]) else s
  }

  /** `trimEnd`: drops the trailing whitespace. */
  function TrimEnd(s: string): (r: string)
    ensures |r| <= |s| && r == s[..|r|]
    ensures r == [] || !IsSpace(r[|r| - 1])
    ensures forall i :: |r| <= i < |s| ==> IsSpace(s[i])
  {
    if s != [] && IsSpace(s[|s| - 1]) then TrimEnd(s[..|s| - 1]) else s
  }

  /** `trim`: drops whitespace at both ends. */
  function Trim(s: string): string {
    TrimEnd(TrimStart(s))
  }

  /** `!s.trim()`: the string is empty once trimmed. */
  predicate IsBlank(s: string) {
    Trim(s) == ""
  }

  /** A string trims to nothing exactly when every character is whitespace. */
  lemma BlankIffAllSpace(s: string)
    ensures IsBlank(s) <==> forall i :: 0 <= i < |s| ==> IsSpace(s[i])
  {
    var t := TrimStart(s);
    if !forall i :: 0 <= i < |s| ==> IsSpace(s[i]) {
      var i :| 0 <= i < |s| && !IsSpace(s[i]);
      assert t != [];
      assert t[0] == s[|s| - |t|];
      assert TrimEnd(t) != [];
    }
  }
}

/** The little string logic the source relies on: JavaScript truthiness of an optional string,
    `toUpperCase` and `replace('%', '')`. */
module Text {
  import opened Wrappers

  /** `!!s` in JavaScript for a string field that may be missing: present and non-empty. */
  predicate Truthy(s: Option<string>) {
    s.Some? && s.value != ""
  }

  /** Upper-casing of one character, restricted to the ASCII letters. */
  function UpperChar(c: char): (u: char)
    ensures 'a' <= c <= 'z' ==> u as int == c as int - 32
    ensures !('a' <= c <= 'z') ==> u == c
  {
    if 'a' <= c <= 'z' then (c as int - 32) as char else c
  }

  /** `s.toUpperCase()`, character by character. */
  function Upper(s: string): (r: string)
    ensures |r| == |s|
    ensures forall i :: 0 <= i < |s| ==> r[i] == UpperChar(s[i])
  {
    if s == "" then "" else [UpperChar(s[0])] + Upper(s[1..])
  }

  /** Upper-casing an upper-cased symbol changes nothing, so keys written by the server and
      symbols entered twice agree. */
  lemma UpperIdempotent(s: string)
    ensures Upper(Upper(s)) == Upper(s)
  {
    var u := Upper(s);
    assert forall i :: 0 <= i < |u| ==> Upper(u)[i] == u[i];
  }

  /** Position of the first occurrence of `c` in `s`, or `|s|` when there is none. */
  function IndexOf(s: string, c: char): (i: nat)
    ensures i <= |s|
    ensures i < |s| ==> s[i] == c
    ensures forall j :: 0 <= j < i ==> s[j] != c
  {
    if s == "" then 0 else if s[0] == c then 0 else 1 + IndexOf(s[1..], c)
  }

  /** Putting a character in front of a string with one position cut out. */
  lemma ConsCut(x: char, t: string, k: nat)
    requires k < |t|
    ensures [x] + (t[..k] + t[k + 1..]) == ([x] + t)[..k + 1] + ([x] + t)[k + 2..]
  {
    var s := [x] + t;
    assert s[..k + 1] == [x] + t[..k];
    assert s[k + 2..] == t[k + 1..];
  }

  /** `s.replace(c, '')` with a one-character pattern: only the FIRST occurrence is removed. */
  function RemoveFirst(s: string, c: char): (r: string)
    ensures var i := IndexOf(s, c); if i == |s| then r == s else r == s[..i] + s[i + 1..]
  {
    if s == "" then ""
    else if s[0] == c then s[1..]
    else
      var t := s[1..];
      var rest := RemoveFirst(t, c);
      var k := IndexOf(t, c);
      if k < |t| then
        ConsCut(s[0], t, k);
        assert [s[0]] + t == s;
        [s[0]] + rest
      else
        assert [s[0]] + t == s;
        [s[0]] + rest
  }

  /** The upstream renders a percentage as digits followed by `%`: removing the first `%` gives
      the digits back, and whatever follows that `%` is kept. */
  lemma RemoveFirstAfterPrefix(t: string, c: char, u: string)
    requires c !in t
    ensures RemoveFirst(t + [c] + u, c) == t + u
  {
    var s := t + [c] + u;
    var i := IndexOf(s, c);
    assert s[|t|] == c;
    assert forall j :: 0 <= j < |t| ==> s[j] == t[j];
    assert i == |t|;
    assert s[..i] == t && s[i + 1..] == u;
  }
}

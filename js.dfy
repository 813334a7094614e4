/** The parts of JavaScript's value semantics that the handlers and the page
    rely on: fields that may be absent, truthiness of strings, `a || b`
    defaulting, and `String.prototype.trim`. */
module Js {

  /** A field that is absent (`undefined` or `null`) or holds a value. */
  datatype Option<+T> = None | Some(value: T)

  /** Truthiness of an optional string: absent and "" are falsy. */
  predicate Truthy(o: Option<string>) {
    o.Some? && o.value != ""
  }

  /** `o || fallback` for an optional string. */
  function OrElse(o: Option<string>, fallback: string): string {
    if Truthy(o) then o.value else fallback
  }

  /** The LineTerminator code points of ECMAScript. */
  predicate IsLineTerminator(c: char) {
    c == '\n' || c == '\r' || c == '\U{2028}' || c == '\U{2029}'
  }

  /** The WhiteSpace code points of ECMAScript: tab, vertical tab, form feed,
      the byte order mark and the space separators (category Zs). */
  predicate IsWhiteSpace(c: char) {
    || c == '\t' || c == '\U{000B}' || c == '\U{000C}' || c == '\U{FEFF}'
    || c == ' ' || c == '\U{00A0}' || c == '\U{1680}'
    || ('\U{2000}' <= c <= '\U{200A}')
    || c == '\U{202F}' || c == '\U{205F}' || c == '\U{3000}'
  }

  /** What `trim` removes: white space and line terminators. */
  predicate IsTrimmable(c: char) {
    IsWhiteSpace(c) || IsLineTerminator(c)
  }

  /** `s` with its leading trimmable characters removed. */
  function TrimStart(s: string): (r: string)
    ensures |r| <= |s| && r == s[|s| - |r|..]
    ensures forall i :: 0 <= i < |s| - |r| ==> IsTrimmable(s[i])
    ensures r == [] || !IsTrimmable(r[0])
  {
    if s != [] && IsTrimmable(s[0]) then TrimStart(s[1..]) else s
  }

  /** `s` with its trailing trimmable characters removed. */
  function TrimEnd(s: string): (r: string)
    ensures |r| <= |s| && r == s[..|r|]
    ensures forall i :: |r| <= i < |s| ==> IsTrimmable(s[i])
    ensures r == [] || !IsTrimmable(r[|r| - 1])
  {
    if s != [] && IsTrimmable(s[|s| - 1]) then TrimEnd(s[..|s| - 1]) else s
  }

  /** How many characters `trim` drops at the front of `s`. */
  function LeadingTrimmed(s: string): nat {
    |s| - |TrimStart(s)|
  }

  /** `s.trim()`: the slice of `s` left after dropping trimmable characters at
      both ends. */
  function Trim(s: string): (r: string)
    ensures var a := LeadingTrimmed(s);
      && a + |r| <= |s| && r == s[a..a + |r|]
      && (forall i :: 0 <= i < a ==> IsTrimmable(s[i]))
      && (forall i :: a + |r| <= i < |s| ==> IsTrimmable(s[i]))
    ensures r == [] || (!IsTrimmable(r[0]) && !IsTrimmable(r[|r| - 1]))
  {
    TrimEnd(TrimStart(s))
  }

  /** A string trims to "" exactly when every character of it is trimmable. */
  lemma TrimBlank(s: string)
    ensures Trim(s) == "" <==> forall i :: 0 <= i < |s| ==> IsTrimmable(s[i])
  {
    if exists k :: 0 <= k < |s| && !IsTrimmable(s[k]) {
      var k :| 0 <= k < |s| && !IsTrimmable(s[k]);
      assert LeadingTrimmed(s) <= k < LeadingTrimmed(s) + |Trim(s)|;
    }
  }

  /** Trimming twice is trimming once. */
  lemma TrimIdempotent(s: string)
    ensures Trim(Trim(s)) == Trim(s)
  {
    var r := Trim(s);
    if r != [] {
      assert TrimStart(r) == r;
      assert TrimEnd(r) == r;
    }
  }
}

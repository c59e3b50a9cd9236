/** String helpers shared by the command handlers: prefix tests, lower-casing,
    the whitespace class of JavaScript regular expressions, and substring search. */
module Text {

  predicate StartsWith(s: string, prefix: string) {
    prefix <= s
  }

  predicate EndsWith(s: string, suffix: string) {
    |suffix| <= |s| && s[|s| - |suffix|..] == suffix
  }

  predicate IsUpper(c: char) {
    'A' <= c <= 'Z'
  }

  /** Lower-cases one character (ASCII letters only). */
  function LowerChar(c: char): (r: char)
    ensures !IsUpper(r)
    ensures IsUpper(c) ==> r as int == c as int + 32
    ensures !IsUpper(c) ==> r == c
  {
    if IsUpper(c) then (c as int + 32) as char else c
  }

  /** `String.prototype.toLowerCase`, restricted to ASCII letters. */
  function ToLower(s: string): (r: string)
    ensures |r| == |s|
    ensures forall i :: 0 <= i < |s| ==> r[i] == LowerChar(s[i])
  {
    seq(|s|, i requires 0 <= i < |s| => LowerChar(s[i]))
  }

  predicate NoUpper(s: string) {
    forall i :: 0 <= i < |s| ==> !IsUpper(s[i])
  }

  /** The characters matched by `\s` in a JavaScript regular expression:
      the ECMAScript WhiteSpace and LineTerminator code points. */
  predicate IsSpace(c: char) {
    || c == ' ' || c == '\t' || c == '\n' || c == '\r'
    || c == '\U{000B}' || c == '\U{000C}'
    || c == '\U{00A0}' || c == '\U{1680}'
    || ('\U{2000}' <= c <= '\U{200A}')
    || c == '\U{2028}' || c == '\U{2029}' || c == '\U{202F}'
    || c == '\U{205F}' || c == '\U{3000}' || c == '\U{FEFF}'
  }

  predicate NoSpace(s: string) {
    forall i :: 0 <= i < |s| ==> !IsSpace(s[i])
  }

  /** `p` occurs in `t` starting at position `i`. */
  predicate OccursAt(t: string, p: string, i: nat) {
    i + |p| <= |t| && t[i..i + |p|] == p
  }

  /** `String.prototype.includes`: some position of `t` starts a copy of `p`. */
  function Contains(t: string, p: string): (b: bool)
    ensures b <==> exists i: nat :: OccursAt(t, p, i)
    decreases |t|
  {
    if p <= t then
      assert OccursAt(t, p, 0);
      true
    else if |t| == 0 then
      assert forall i: nat :: !OccursAt(t, p, i);
      false
    else
      var rest := Contains(t[1..], p);
      assert forall i: nat :: OccursAt(t[1..], p, i) <==> OccursAt(t, p, i + 1) by {
        forall i: nat ensures OccursAt(t[1..], p, i) <==> OccursAt(t, p, i + 1) {
          if i + |p| <= |t[1..]| {
            assert t[1..][i..i + |p|] == t[i + 1..i + 1 + |p|];
          }
        }
      }
      assert !OccursAt(t, p, 0);
      if rest then
        var j: nat :| OccursAt(t[1..], p, j);
        assert OccursAt(t, p, j + 1);
        true
      else
        assert forall i: nat :: !OccursAt(t, p, i) by {
          forall i: nat ensures !OccursAt(t, p, i) {
            if i > 0 {
              assert !OccursAt(t[1..], p, i - 1);
            }
          }
        }
        false
  }

  /** The strings of `ss` joined end to end. */
  function Concat(ss: seq<string>): string {
    if ss == [] then "" else ss[0] + Concat(ss[1..])
  }

  lemma {:induction false} ConcatAppend(a: seq<string>, b: seq<string>)
    ensures Concat(a + b) == Concat(a) + Concat(b)
  {
    if a != [] {
      assert (a + b)[1..] == a[1..] + b;
      ConcatAppend(a[1..], b);
    } else {
      assert a + b == b;
    }
  }
}

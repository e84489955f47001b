/**
 * The few string operations the engines use, restricted to ASCII: the
 * regular-expression word class `\w`, `toLowerCase`/`toUpperCase`,
 * `String.prototype.includes` and `Array.prototype.join`.
 */
module Strings {

  /** `\w` in a JavaScript regular expression without the `u` flag: `[A-Za-z0-9_]`. */
  predicate IsWordChar(c: char) {
    ('a' <= c <= 'z') || ('A' <= c <= 'Z') || ('0' <= c <= '9') || c == '_'
  }

  function LowerChar(c: char): char {
    if 'A' <= c <= 'Z' then (c as int + 32) as char else c
  }

  function UpperChar(c: char): char {
    if 'a' <= c <= 'z' then (c as int - 32) as char else c
  }

  /** `toLowerCase` on ASCII letters; every other character is kept. */
  function ToLower(s: string): (r: string)
    ensures |r| == |s|
    ensures forall i :: 0 <= i < |r| ==> !('A' <= r[i] <= 'Z')
    ensures forall i :: 0 <= i < |s| && !('A' <= s[i] <= 'Z') ==> r[i] == s[i]
  {
    seq(|s|, i requires 0 <= i < |s| => LowerChar(s[i]))
  }

  /** `toUpperCase` on ASCII letters; every other character is kept. */
  function ToUpper(s: string): string {
    seq(|s|, i requires 0 <= i < |s| => UpperChar(s[i]))
  }

  /** Lower-casing forgets which case a letter had. */
  lemma LowerForgetsCase(c: char)
    ensures LowerChar(UpperChar(c)) == LowerChar(c)
    ensures IsWordChar(LowerChar(c)) == IsWordChar(c)
  {
  }

  /** Lower-casing the upper-cased text gives the lower-cased text. */
  lemma {:induction false} LowerOfUpper(s: string)
    ensures ToLower(ToUpper(s)) == ToLower(s)
  {
    forall i | 0 <= i < |s| ensures ToLower(ToUpper(s))[i] == ToLower(s)[i] {
      LowerForgetsCase(s[i]);
    }
  }

  /** `t` occurs in `s` starting at index `i`. */
  predicate OccursAt(s: string, t: string, i: int) {
    0 <= i && i + |t| <= |s| && s[i..i + |t|] == t
  }

  /** `s.includes(t)`. */
  predicate Contains(s: string, t: string)
    ensures Contains(s, t) ==> |t| <= |s|
  {
    exists i | 0 <= i <= |s| - |t| :: OccursAt(s, t, i)
  }

  lemma OccursAtChars(s: string, t: string, i: int)
    requires 0 <= i && i + |t| <= |s|
    ensures OccursAt(s, t, i) <==> forall k :: 0 <= k < |t| ==> s[i + k] == t[k]
  {
    if forall k :: 0 <= k < |t| ==> s[i + k] == t[k] {
      assert s[i..i + |t|] == t;
    }
  }

  /** A one-character string is included exactly when the character occurs. */
  lemma ContainsChar(s: string, c: char)
    ensures Contains(s, [c]) <==> c in s
  {
    if c in s {
      var i :| 0 <= i < |s| && s[i] == c;
      OccursAtChars(s, [c], i);
    }
    forall i | 0 <= i <= |s| - 1 ensures OccursAt(s, [c], i) ==> c in s {
      OccursAtChars(s, [c], i);
      assert s[i] in s;
    }
  }

  /** `items.join(sep)`. */
  function Join(items: seq<string>, sep: string): (r: string)
    ensures |items| > 0 ==> |items[0]| <= |r| && r[..|items[0]|] == items[0]
    ensures |items| > 0 ==> |items[|items| - 1]| <= |r| && r[|r| - |items[|items| - 1]|..] == items[|items| - 1]
    decreases |items|
  {
    if |items| == 0 then ""
    else if |items| == 1 then items[0]
    else items[0] + sep + Join(items[1..], sep)
  }

  /** Two or more items: the first, the separator, then the rest joined. */
  lemma JoinFront(items: seq<string>, sep: string)
    requires |items| >= 2
    ensures Join(items, sep) == items[0] + sep + Join(items[1..], sep)
  {
  }
}

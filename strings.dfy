/** The few .NET string operations the command classifiers rely on, restated over
    `string` (= `seq<char>`): `Contains` of a one-character string, `LastIndexOf`,
    `Split` on a set of separator characters, `Replace(x, "")` of a one-character
    string, and `ToLowerInvariant` restricted to ASCII. */
module Strings {

  /** The separators the classifiers split command text on: space and tab. */
  const Blanks: set<char> := {' ', '\t'}

  predicate IsUpper(c: char) {
    'A' <= c <= 'Z'
  }

  /** `char.ToLowerInvariant`, restricted to ASCII: upper-case letters become lower-case,
      every other character is left alone. */
  function LowerChar(c: char): (r: char)
    ensures !IsUpper(r)
    ensures !IsUpper(c) ==> r == c
  {
    if IsUpper(c) then (c as int - 'A' as int + 'a' as int) as char else c
  }

  /** `string.ToLowerInvariant`, character by character. */
  function Lower(s: string): (r: string)
    ensures |r| == |s|
    ensures forall i :: 0 <= i < |s| ==> r[i] == LowerChar(s[i])
  {
    seq(|s|, i requires 0 <= i < |s| => LowerChar(s[i]))
  }

  /** Lower-casing keeps every character that is not an upper-case letter where it was,
      and never produces one: a lower-cased string has such a character at exactly the
      positions where the original had it. */
  lemma LowerKeepsNonLetter(s: string, c: char, i: int)
    requires !IsUpper(c) && !('a' <= c <= 'z')
    requires 0 <= i < |s|
    ensures Lower(s)[i] == c <==> s[i] == c
  {
  }

  lemma LowerIdempotent(s: string)
    ensures Lower(Lower(s)) == Lower(s)
  {
  }

  /** `string.LastIndexOf(char)`: the index of the last occurrence of `c`, or -1. */
  function LastIndexOf(s: string, c: char): (r: int)
    ensures -1 <= r < |s|
    ensures r == -1 <==> c !in s
    ensures r >= 0 ==> s[r] == c && c !in s[r + 1..]
    decreases |s|
  {
    if |s| == 0 then -1
    else if s[|s| - 1] == c then |s| - 1
    else
      assert s == s[..|s| - 1] + [s[|s| - 1]];
      LastIndexOf(s[..|s| - 1], c)
  }

  /** An occurrence of `c` with no `c` after it is the one `LastIndexOf` finds. */
  lemma LastIndexOfIs(s: string, c: char, i: int)
    requires 0 <= i < |s| && s[i] == c
    requires forall j :: i < j < |s| ==> s[j] != c
    ensures LastIndexOf(s, c) == i
  {
    assert c in s;
  }

  /** `string.Split(separators)`: the pieces between separators, empty pieces kept, so
      there is always one more piece than there are separators. */
  function Split(s: string, separators: set<char>): (pieces: seq<string>)
    ensures |pieces| >= 1
    ensures |pieces| == 1 <==> forall i :: 0 <= i < |s| ==> s[i] !in separators
    decreases |s|
  {
    if |s| == 0 then [""]
    else
      var rest := Split(s[1..], separators);
      assert forall i :: 1 <= i < |s| ==> s[i] == s[1..][i - 1];
      if s[0] in separators then [""] + rest
      else [[s[0]] + rest[0]] + rest[1..]
  }

  /** `string.Replace(c, "")`: every occurrence of `c` removed, the rest kept in order. */
  function Remove(s: string, c: char): (r: string)
    ensures c !in r
    ensures |r| <= |s|
    ensures c !in s ==> r == s
    decreases |s|
  {
    if |s| == 0 then ""
    else
      assert s == [s[0]] + s[1..];
      if s[0] == c then Remove(s[1..], c) else [s[0]] + Remove(s[1..], c)
  }

  /** Lower-casing and removing a character that is not a letter commute. */
  lemma {:induction false} LowerRemoveCommute(s: string, c: char)
    requires !IsUpper(c) && !('a' <= c <= 'z')
    ensures Lower(Remove(s, c)) == Remove(Lower(s), c)
    decreases |s|
  {
    if |s| > 0 {
      var t := s[1..];
      LowerRemoveCommute(t, c);
      var ls := Lower(s);
      assert ls[0] == LowerChar(s[0]) && ls[1..] == Lower(t);
      if s[0] == c {
        assert ls[0] == c;
      } else {
        assert ls[0] != c;
        LowerAppend([s[0]], Remove(t, c));
      }
    }
  }

  /** Lower-casing a concatenation lower-cases each part. */
  lemma LowerAppend(a: string, b: string)
    ensures Lower(a + b) == Lower(a) + Lower(b)
  {
  }

  /** Removing a character from a concatenation removes it from each part. */
  lemma {:induction false} RemoveAppend(a: string, b: string, c: char)
    ensures Remove(a + b, c) == Remove(a, c) + Remove(b, c)
    decreases |a|
  {
    if |a| == 0 {
      assert a + b == b;
    } else {
      var ab := a + b;
      assert ab[0] == a[0];
      assert ab[1..] == a[1..] + b;
      RemoveAppend(a[1..], b, c);
      if a[0] != c {
        assert Remove(ab, c) == [a[0]] + (Remove(a[1..], c) + Remove(b, c));
      }
    }
  }
}

/**
 * The property-name derivation of PropifierTrait::camelToSnake:
 * preg_replace('/(?<=\w)(?=[A-Z])/', '_', s) followed by strtolower.
 * Both the regular expression (without the u modifier) and strtolower work on
 * ASCII, so characters are compared against ASCII ranges only.
 */
module SnakeCase {

  predicate IsUpper(c: char) {
    'A' <= c <= 'Z'
  }

  /** PCRE's \w without Unicode support: [A-Za-z0-9_]. */
  predicate IsWord(c: char) {
    'a' <= c <= 'z' || 'A' <= c <= 'Z' || '0' <= c <= '9' || c == '_'
  }

  function Lower(c: char): (r: char) {
    if IsUpper(c) then (c as int + 32) as char else c
  }

  predicate NoUpper(s: string) {
    forall i :: 0 <= i < |s| ==> !IsUpper(s[i])
  }

  /** strtolower on an ASCII string. */
  function LowerAll(s: string): (r: string) {
    if s == [] then [] else [Lower(s[0])] + LowerAll(s[1..])
  }

  /** strtolower maps each character on its own and keeps the length. */
  lemma {:induction false} LowerAllEach(s: string)
    ensures |LowerAll(s)| == |s|
    ensures forall i :: 0 <= i < |s| ==> LowerAll(s)[i] == Lower(s[i])
  {
    if s != [] {
      LowerAllEach(s[1..]);
    }
  }

  /** The zero-width match (?<=\w)(?=[A-Z]) succeeds at the position just before s[i]. */
  predicate BreakBefore(s: string, i: int)
    requires 0 <= i < |s|
  {
    0 < i && IsWord(s[i - 1]) && IsUpper(s[i])
  }

  /**
   * preg_replace of that pattern by '_' on the suffix s[k..]: the lookbehind
   * always inspects the ORIGINAL subject, never an underscore already inserted.
   */
  function SeparateFrom(s: string, k: nat): (r: string)
    requires k <= |s|
    decreases |s| - k
  {
    if k == |s| then []
    else (if BreakBefore(s, k) then "_" else "") + [s[k]] + SeparateFrom(s, k + 1)
  }

  function CamelToSnake(s: string): (r: string) {
    LowerAll(SeparateFrom(s, 0))
  }

  /** strtolower leaves no uppercase letter behind, so neither does camelToSnake. */
  lemma CamelToSnakeNoUpper(s: string)
    ensures NoUpper(CamelToSnake(s))
  {
    LowerAllEach(SeparateFrom(s, 0));
  }

  /** Number of match positions strictly before index n. */
  function Breaks(s: string, n: nat): (b: nat)
    requires n <= |s|
    ensures b <= n
  {
    if n == 0 then 0 else Breaks(s, n - 1) + (if BreakBefore(s, n - 1) then 1 else 0)
  }

  lemma {:induction false} BreaksMonotone(s: string, i: nat, j: nat)
    requires i <= j <= |s|
    ensures Breaks(s, i) <= Breaks(s, j)
    decreases j - i
  {
    if i < j {
      BreaksMonotone(s, i, j - 1);
    }
  }

  /** Index, in camelToSnake's result, of the (lowercased) character s[i]. */
  function Landing(s: string, i: nat): (p: nat)
    requires i < |s|
    ensures p < |s| + Breaks(s, |s|)
  {
    BreaksMonotone(s, i + 1, |s|);
    i + Breaks(s, i + 1)
  }

  /** Where s[i] lands in the replacement of the suffix s[k..]. */
  ghost function Offset(s: string, k: nat, i: nat): (p: nat)
    requires k <= i < |s|
    ensures p == Landing(s, i) - k - Breaks(s, k)
    ensures p < |s| - k + Breaks(s, |s|) - Breaks(s, k)
  {
    BreaksMonotone(s, k, i + 1);
    Landing(s, i) - k - Breaks(s, k)
  }

  /** Length of the replacement on the suffix s[k..]: one character more per match. */
  lemma {:induction false} SeparateFromLength(s: string, k: nat)
    requires k <= |s|
    decreases |s| - k
    ensures |SeparateFrom(s, k)| == |s| - k + Breaks(s, |s|) - Breaks(s, k)
  {
    if k < |s| {
      SeparateFromLength(s, k + 1);
    }
  }

  /** Where every original character of the suffix s[k..] lands in its replacement. */
  lemma {:induction false} SeparateFromLanding(s: string, k: nat)
    requires k <= |s|
    decreases |s| - k
    ensures |SeparateFrom(s, k)| == |s| - k + Breaks(s, |s|) - Breaks(s, k)
    ensures forall i :: k <= i < |s| ==> SeparateFrom(s, k)[Offset(s, k, i)] == s[i]
  {
    SeparateFromLength(s, k);
    if k < |s| {
      SeparateFromLanding(s, k + 1);
      var head: string := (if BreakBefore(s, k) then "_" else "") + [s[k]];
      var whole := SeparateFrom(s, k);
      assert whole == head + SeparateFrom(s, k + 1);
      assert |head| == 1 + Breaks(s, k + 1) - Breaks(s, k);
      forall i | k < i < |s|
        ensures whole[Offset(s, k, i)] == s[i]
      {
        assert Offset(s, k, i) == |head| + Offset(s, k + 1, i);
      }
    }
  }

  /** An underscore sits right before each character of s[k..] at a match position. */
  lemma {:induction false} SeparateFromUnderscores(s: string, k: nat)
    requires k <= |s|
    decreases |s| - k
    ensures |SeparateFrom(s, k)| == |s| - k + Breaks(s, |s|) - Breaks(s, k)
    ensures forall i :: k <= i < |s| && BreakBefore(s, i) ==>
              Offset(s, k, i) > 0 && SeparateFrom(s, k)[Offset(s, k, i) - 1] == '_'
  {
    SeparateFromLength(s, k);
    if k < |s| {
      SeparateFromUnderscores(s, k + 1);
      var head: string := (if BreakBefore(s, k) then "_" else "") + [s[k]];
      var whole := SeparateFrom(s, k);
      assert whole == head + SeparateFrom(s, k + 1);
      assert |head| == 1 + Breaks(s, k + 1) - Breaks(s, k);
      forall i | k < i < |s| && BreakBefore(s, i)
        ensures Offset(s, k, i) > 0 && whole[Offset(s, k, i) - 1] == '_'
      {
        assert Offset(s, k, i) == |head| + Offset(s, k + 1, i);
      }
    }
  }

  /**
   * camelToSnake inserts '_' exactly before each uppercase letter that follows a
   * word character, and lowercases everything: the result has one character per
   * input character plus one per match, the i-th input character lowercased
   * lands at Landing(s, i) = i + (matches up to and including i), and the
   * character just before it is an underscore exactly at match positions.
   */
  lemma CamelToSnakeLayout(s: string)
    ensures |CamelToSnake(s)| == |s| + Breaks(s, |s|)
    ensures forall i :: 0 <= i < |s| ==> CamelToSnake(s)[Landing(s, i)] == Lower(s[i])
    ensures forall i :: 0 <= i < |s| && BreakBefore(s, i) ==> CamelToSnake(s)[Landing(s, i) - 1] == '_'
    ensures forall i :: 0 < i < |s| && !BreakBefore(s, i) ==> CamelToSnake(s)[Landing(s, i) - 1] == Lower(s[i - 1])
  {
    SeparateFromLanding(s, 0);
    SeparateFromUnderscores(s, 0);
    var sep := SeparateFrom(s, 0);
    assert CamelToSnake(s) == LowerAll(sep);
    LowerAllEach(sep);
    forall i | 0 <= i < |s|
      ensures CamelToSnake(s)[Landing(s, i)] == Lower(s[i])
    {
      assert Landing(s, i) == Offset(s, 0, i);
    }
    forall i | 0 <= i < |s| && BreakBefore(s, i)
      ensures CamelToSnake(s)[Landing(s, i) - 1] == '_'
    {
      assert Landing(s, i) == Offset(s, 0, i);
      assert sep[Landing(s, i) - 1] == '_';
    }
    forall i | 0 < i < |s| && !BreakBefore(s, i)
      ensures CamelToSnake(s)[Landing(s, i) - 1] == Lower(s[i - 1])
    {
      assert Landing(s, i) - 1 == Landing(s, i - 1) == Offset(s, 0, i - 1);
    }
  }

  /** Where the pattern does not match, the replacement copies the subject. */
  lemma {:induction false} SeparateNoBreak(s: string, k: nat)
    requires k <= |s|
    requires forall i :: k <= i < |s| ==> !BreakBefore(s, i)
    decreases |s| - k
    ensures SeparateFrom(s, k) == s[k..]
  {
    if k < |s| {
      SeparateNoBreak(s, k + 1);
    }
  }

  /** A name that is already snake_case is left as it is. */
  lemma CamelToSnakeFixesSnake(s: string)
    requires NoUpper(s)
    ensures CamelToSnake(s) == s
  {
    SeparateNoBreak(s, 0);
    LowerAllEach(s);
  }

  /** camelToSnake is idempotent. */
  lemma CamelToSnakeIdempotent(s: string)
    ensures CamelToSnake(CamelToSnake(s)) == CamelToSnake(s)
  {
    CamelToSnakeNoUpper(s);
    CamelToSnakeFixesSnake(CamelToSnake(s));
  }

  /** A single capitalised word (the usual suffix after get/set/is) only loses its capital. */
  lemma CamelToSnakeWord(s: string)
    requires |s| > 0 && NoUpper(s[1..])
    ensures CamelToSnake(s) == [Lower(s[0])] + s[1..]
  {
    SeparateNoBreak(s, 0);
    assert CamelToSnake(s) == LowerAll(s);
    LowerAllEach(s);
  }

  lemma {:induction false} SeparateSuffix(a: string, b: string, k: nat)
    requires |a| < k <= |a| + |b|
    decreases |a| + |b| - k
    ensures SeparateFrom(a + b, k) == SeparateFrom(b, k - |a|)
  {
    if k < |a| + |b| {
      var x, j := a + b, k - |a|;
      SeparateSuffix(a, b, k + 1);
      assert x[k] == b[j] && x[k - 1] == b[j - 1];
      assert BreakBefore(x, k) == BreakBefore(b, j);
      assert SeparateFrom(x, k) == (if BreakBefore(x, k) then "_" else "") + [x[k]] + SeparateFrom(x, k + 1);
      assert SeparateFrom(b, j) == (if BreakBefore(b, j) then "_" else "") + [b[j]] + SeparateFrom(b, j + 1);
    }
  }

  lemma {:induction false} SeparatePrefix(a: string, b: string, k: nat)
    requires k <= |a|
    decreases |a| - k
    ensures SeparateFrom(a + b, k) == SeparateFrom(a, k) + SeparateFrom(a + b, |a|)
  {
    if k < |a| {
      SeparatePrefix(a, b, k + 1);
      assert (a + b)[k] == a[k] && (k > 0 ==> (a + b)[k - 1] == a[k - 1]);
      assert BreakBefore(a + b, k) == BreakBefore(a, k);
    }
  }

  lemma LowerAllConcat(a: string, b: string)
    ensures LowerAll(a + b) == LowerAll(a) + LowerAll(b)
  {
    LowerAllEach(a + b);
    LowerAllEach(a);
    LowerAllEach(b);
    assert forall i :: 0 <= i < |a + b| ==> LowerAll(a + b)[i] == (LowerAll(a) + LowerAll(b))[i];
  }

  /** The replacement on a joined subject: both halves, and an underscore at a matching seam. */
  lemma SeparateConcat(a: string, b: string)
    requires |a| > 0 && |b| > 0
    ensures SeparateFrom(a + b, 0) ==
              SeparateFrom(a, 0) + (if BreakBefore(a + b, |a|) then "_" else "") + SeparateFrom(b, 0)
  {
    SeparatePrefix(a, b, 0);
    SeparateSuffix(a, b, |a| + 1);
    assert SeparateFrom(a + b, |a|) ==
             (if BreakBefore(a + b, |a|) then "_" else "") + [b[0]] + SeparateFrom(b, 1);
    assert SeparateFrom(b, 0) == [b[0]] + SeparateFrom(b, 1);
  }

  /**
   * camelToSnake works piecewise: joining two names adds one underscore at the
   * seam exactly when a word character meets an uppercase letter there.
   */
  lemma CamelToSnakeConcat(a: string, b: string)
    ensures CamelToSnake(a + b) ==
              CamelToSnake(a)
              + (if |a| > 0 && |b| > 0 && IsWord(a[|a| - 1]) && IsUpper(b[0]) then "_" else "")
              + CamelToSnake(b)
  {
    if |b| == 0 {
      assert a + b == a;
    } else if |a| == 0 {
      assert a + b == b;
    } else {
      var seam: string := if BreakBefore(a + b, |a|) then "_" else "";
      SeparateConcat(a, b);
      LowerAllConcat(SeparateFrom(a, 0) + seam, SeparateFrom(b, 0));
      LowerAllConcat(SeparateFrom(a, 0), seam);
      assert LowerAll(seam) == seam;
    }
  }

  /** Appending a capitalised word to a name ending in a word character adds "_" and the word, lowercased. */
  lemma CamelToSnakeAppendWord(a: string, b: string)
    requires |a| > 0 && IsWord(a[|a| - 1])
    requires |b| > 0 && IsUpper(b[0]) && NoUpper(b[1..])
    ensures CamelToSnake(a + b) == CamelToSnake(a) + "_" + [Lower(b[0])] + b[1..]
  {
    CamelToSnakeConcat(a, b);
    CamelToSnakeWord(b);
  }

  /** The documented example: myLongName becomes my_long_name. */
  lemma CamelToSnakeMyLongName(my: string, long: string, name: string)
    requires my == "my" && long == "Long" && name == "Name"
    ensures CamelToSnake(my + long + name) == "my_long_name"
  {
    assert CamelToSnake(my) == my by {
      CamelToSnakeFixesSnake(my);
    }
    var myLong := my + long;
    assert CamelToSnake(myLong) == "my_long" by {
      CamelToSnakeAppendWord(my, long);
      assert long[1..] == "ong";
    }
    assert CamelToSnake(myLong + name) == "my_long_name" by {
      assert myLong[|myLong| - 1] == 'g';
      CamelToSnakeAppendWord(myLong, name);
      assert name[1..] == "ame";
    }
  }
}

/**
 * The few PHP and WordPress string primitives the plugin is built from:
 * truthiness of a string, `strpos(...) !== false`, WordPress's
 * `untrailingslashit`/`trailingslashit` (an `rtrim` of slashes and
 * backslashes), `str_repeat`, `str_replace` and the second piece of
 * `explode('?', ...)`.
 */
module PhpStrings {
  import opened Wrappers

  /** PHP truthiness of a string value: only "" and "0" are false. */
  predicate Truthy(s: string) {
    s != "" && s != "0"
  }

  /** `strpos(s, t) !== false`: `t` occurs in `s` at some position. */
  predicate Contains(s: string, t: string)
    decreases |s|
  {
    |t| <= |s| && (s[..|t|] == t || Contains(s[1..], t))
  }

  predicate IsSlash(c: char) {
    c == '/' || c == '\\'
  }

  predicate EndsWithSlash(s: string) {
    |s| > 0 && s[|s| - 1] == '/'
  }

  /**
   * WordPress `untrailingslashit`: strips every trailing `/` and `\`.
   * The result is the longest prefix of `s` that does not end in one.
   */
  function Untrailingslashit(s: string): (r: string)
    ensures |r| <= |s| && r == s[..|r|]
    ensures r == [] || !IsSlash(r[|r| - 1])
    ensures forall i :: |r| <= i < |s| ==> IsSlash(s[i])
    decreases |s|
  {
    if |s| > 0 && IsSlash(s[|s| - 1]) then Untrailingslashit(s[..|s| - 1]) else s
  }

  /** WordPress `trailingslashit`: exactly one `/` after the untrailed string. */
  function Trailingslashit(s: string): (r: string)
    ensures EndsWithSlash(r)
    ensures r[..|r| - 1] == Untrailingslashit(s)
  {
    Untrailingslashit(s) + "/"
  }

  /** A string that does not end in a slash is its own untrailed form. */
  lemma UntrailedFixpoint(s: string)
    requires s == [] || !IsSlash(s[|s| - 1])
    ensures Untrailingslashit(s) == s
  {
  }

  lemma {:induction false} UntrailingslashitIdempotent(s: string)
    ensures Untrailingslashit(Untrailingslashit(s)) == Untrailingslashit(s)
  {
    UntrailedFixpoint(Untrailingslashit(s));
  }

  /** Adding the slash and stripping it again gives the untrailed string back. */
  lemma {:induction false} UntrailTrailed(s: string)
    ensures Untrailingslashit(Trailingslashit(s)) == Untrailingslashit(s)
  {
    var u := Untrailingslashit(s);
    UntrailedFixpoint(u);
    assert (u + "/")[..|u|] == u;
  }

  lemma {:induction false} TrailingslashitIdempotent(s: string)
    ensures Trailingslashit(Trailingslashit(s)) == Trailingslashit(s)
  {
    UntrailTrailed(s);
  }

  /** PHP `str_repeat(x, n)`. */
  function Repeat(x: string, n: nat): (r: string)
    ensures |r| == |x| * n
  {
    if n == 0 then "" else x + Repeat(x, n - 1)
  }

  // ---------------------------------------------------------------------
  // Substring facts

  /** The empty string contains no non-empty needle. */
  lemma NothingInEmpty(t: string)
    requires |t| > 0
    ensures !Contains("", t)
  {
  }

  /** A needle with a character the text lacks does not occur in it. */
  lemma {:induction false} MissingCharExcludes(s: string, t: string, c: char)
    requires c in t && c !in s
    ensures !Contains(s, t)
    decreases |s|
  {
    if |t| <= |s| {
      assert c !in s[..|t|];
      assert c !in s[1..];
      MissingCharExcludes(s[1..], t, c);
    }
  }

  /** The `n` characters of `s` from position `k`. */
  function Window(s: string, k: nat, n: nat): string
    requires k + n <= |s|
  {
    s[k..k + n]
  }

  /** `t` does not occur in `s` when no window of `s` as long as `t` equals it. */
  lemma {:induction false} NoWindowMatches(s: string, t: string)
    requires |t| > 0
    requires forall k: nat :: k + |t| <= |s| ==> Window(s, k, |t|) != t
    ensures !Contains(s, t)
    decreases |s|
  {
    if |t| <= |s| {
      assert Window(s, 0, |t|) != t;
      var tail := s[1..];
      forall k: nat | k + |t| <= |tail|
        ensures Window(tail, k, |t|) != t
      {
        assert Window(s, k + 1, |t|) != t;
        assert Window(tail, k, |t|) == Window(s, k + 1, |t|);
      }
      NoWindowMatches(tail, t);
    }
  }

  /** A string without `t` has no `t + u` either. */
  lemma {:induction false} NoLongerNeedle(s: string, t: string, u: string)
    requires !Contains(s, t)
    ensures !Contains(s, t + u)
    decreases |s|
  {
    if |t + u| <= |s| {
      assert s[..|t + u|][..|t|] == s[..|t|];
      NoLongerNeedle(s[1..], t, u);
    }
  }

  /** A string without `t` has no `t` in any of its prefixes. */
  lemma {:induction false} NoOccurrenceInPrefix(s: string, k: nat, t: string)
    requires k <= |s| && !Contains(s, t)
    ensures !Contains(s[..k], t)
    decreases k
  {
    if |t| <= k {
      assert s[..k][..|t|] == s[..|t|];
      assert s[..k][1..] == s[1..][..k - 1];
      NoOccurrenceInPrefix(s[1..], k - 1, t);
    }
  }

  /**
   * A separator character that does not occur in `t` keeps `t` from
   * straddling two pieces: if neither `a` nor `b` contains `t`, then
   * neither does `a + [c] + b`.
   */
  lemma {:induction false} NoOccurrenceAcrossSeparator(a: string, c: char, b: string, t: string)
    requires |t| > 0 && c !in t
    requires !Contains(a, t) && !Contains(b, t)
    ensures !Contains(a + [c] + b, t)
    decreases |a|
  {
    var s := a + [c] + b;
    if |t| <= |s| {
      // `t` is not a prefix of `s` ...
      if |t| <= |a| {
        assert s[..|t|] == a[..|t|];
      } else {
        assert s[..|t|][|a|] == c;
      }
      // ... and does not occur in its tail.
      if a == [] {
        assert s[1..] == b;
      } else {
        assert s[1..] == a[1..] + [c] + b;
        assert !Contains(a[1..], t);
        NoOccurrenceAcrossSeparator(a[1..], c, b, t);
      }
    }
  }

  // ---------------------------------------------------------------------
  // str_replace

  /**
   * PHP `str_replace(t, r, s)` for one non-empty search string: a
   * left-to-right scan that replaces non-overlapping occurrences.
   */
  function ReplaceAll(s: string, t: string, r: string): string
    requires |t| > 0
    decreases |s|
  {
    if |s| < |t| then s
    else if s[..|t|] == t then r + ReplaceAll(s[|t|..], t, r)
    else [s[0]] + ReplaceAll(s[1..], t, r)
  }

  /** The number of occurrences `ReplaceAll` replaces. */
  function Occurrences(s: string, t: string): nat
    requires |t| > 0
    decreases |s|
  {
    if |s| < |t| then 0
    else if s[..|t|] == t then 1 + Occurrences(s[|t|..], t)
    else Occurrences(s[1..], t)
  }

  /** The scan finds an occurrence exactly when `t` occurs in `s`. */
  lemma {:induction false} OccurrencesIffContains(s: string, t: string)
    requires |t| > 0
    ensures Occurrences(s, t) == 0 <==> !Contains(s, t)
    decreases |s|
  {
    if |s| >= |t| && s[..|t|] != t {
      OccurrencesIffContains(s[1..], t);
    }
  }

  /** Text without an occurrence of `t` comes back unchanged. */
  lemma {:induction false} ReplaceAllWithoutOccurrence(s: string, t: string, r: string)
    requires |t| > 0 && !Contains(s, t)
    ensures ReplaceAll(s, t, r) == s
    decreases |s|
  {
    if |s| >= |t| {
      assert !Contains(s[1..], t);
      ReplaceAllWithoutOccurrence(s[1..], t, r);
      assert [s[0]] + s[1..] == s;
    }
  }

  /**
   * The scan replaces the first occurrence of `t` and carries on after it:
   * when `t` starts at `|a|` and nowhere earlier (no occurrence in `a`
   * followed by all of `t` but its last character), `a` is kept, that
   * occurrence becomes `r`, and the rest is scanned on its own.
   */
  lemma {:induction false} ReplaceAllAtFirst(a: string, t: string, b: string, r: string)
    requires |t| > 0 && !Contains(a + t[..|t| - 1], t)
    ensures ReplaceAll(a + t + b, t, r) == a + r + ReplaceAll(b, t, r)
    decreases |a|
  {
    var s := a + t + b;
    if a == [] {
      assert s[..|t|] == t && s[|t|..] == b;
    } else {
      var p := a + t[..|t| - 1];
      assert s[..|t|] == p[..|t|];
      assert s[1..] == a[1..] + t + b;
      assert p[1..] == a[1..] + t[..|t| - 1];
      ReplaceAllAtFirst(a[1..], t, b, r);
      assert [s[0]] + (a[1..] + r + ReplaceAll(b, t, r)) == a + r + ReplaceAll(b, t, r);
    }
  }

  /** One more occurrence adds one more length difference. */
  lemma MultiplyByNext(k: int, d: int)
    ensures (1 + k) * d == k * d + d
  {
  }

  /** Each replaced occurrence changes the length by `|r| - |t|` and nothing else does. */
  lemma {:induction false} ReplaceAllLength(s: string, t: string, r: string)
    requires |t| > 0
    ensures |ReplaceAll(s, t, r)| == |s| + Occurrences(s, t) * (|r| - |t|)
    decreases |s|
  {
    if |s| >= |t| {
      var d := |r| - |t|;
      if s[..|t|] == t {
        var rest := s[|t|..];
        ReplaceAllLength(rest, t, r);
        var k := Occurrences(rest, t);
        assert ReplaceAll(s, t, r) == r + ReplaceAll(rest, t, r);
        assert Occurrences(s, t) == 1 + k;
        assert |s| == |t| + |rest|;
        MultiplyByNext(k, d);
      } else {
        ReplaceAllLength(s[1..], t, r);
        assert ReplaceAll(s, t, r) == [s[0]] + ReplaceAll(s[1..], t, r);
        assert Occurrences(s, t) == Occurrences(s[1..], t);
      }
    }
  }

  // ---------------------------------------------------------------------
  // explode

  /** The text of `s` before the first `c` (all of `s` when there is none). */
  function Before(s: string, c: char): (r: string)
    ensures c !in r
    ensures c !in s ==> r == s
    ensures c in s ==> |r| < |s| && s[|r|] == c && r == s[..|r|]
  {
    if s == [] then ""
    else if s[0] == c then ""
    else [s[0]] + Before(s[1..], c)
  }

  /** The text of `s` after the first `c`, or None when `c` does not occur. */
  function After(s: string, c: char): (r: Option<string>)
    ensures r.Some? <==> c in s
    ensures r.Some? ==> s == Before(s, c) + [c] + r.value
  {
    if c in s then Some(s[|Before(s, c)| + 1..]) else None
  }

  /**
   * `explode(c, s)[1]` when it is set: the piece between the first and the
   * second `c`, or None when `c` does not occur (the index is unset).
   */
  function SecondPiece(s: string, c: char): (r: Option<string>)
    ensures r.Some? <==> c in s
    ensures r.Some? ==> c !in r.value
    ensures r.Some? ==> Before(s, c) + [c] + r.value <= s
    ensures r.Some? ==> var n := |Before(s, c)| + 1 + |r.value|; n == |s| || s[n] == c
  {
    match After(s, c)
    case None => None
    case Some(rest) =>
      var piece := Before(rest, c);
      var head := Before(s, c) + [c];
      assert s == head + rest;
      assert piece == rest[..|piece|];
      assert (head + piece) == s[..|head| + |piece|];
      Some(piece)
  }
}

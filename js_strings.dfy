/**
 * The parts of the JavaScript string library that `_formatUrl` relies on:
 * `String.prototype.indexOf`, `String.prototype.replace` with a string pattern
 * (which rewrites only the first occurrence), and the `$`-patterns that
 * `replace` expands in its replacement string.
 */
module JsStrings {
  import opened Wrappers

  /** `p` occurs in `s` starting at index `i`. */
  predicate OccursAt(s: string, p: string, i: nat) {
    i + |p| <= |s| && s[i..i + |p|] == p
  }

  /** `s.indexOf(p)`: the least index at which `p` occurs, or None when it occurs nowhere. */
  function IndexOf(s: string, p: string): (r: Option<nat>)
    ensures r.Some? ==> OccursAt(s, p, r.value)
    decreases |s|
  {
    if |s| < |p| then None
    else if s[..|p|] == p then Some(0)
    else
      match IndexOf(s[1..], p)
      case None => None
      case Some(k) =>
        OccursAtTail(s, p, k + 1);
        Some(k + 1)
  }

  /** Dropping the first character moves every later occurrence one place left. */
  lemma OccursAtTail(s: string, p: string, j: nat)
    requires 0 < j && |s| > 0
    ensures OccursAt(s, p, j) <==> OccursAt(s[1..], p, j - 1)
  {
    if j + |p| <= |s| {
      assert s[1..][j - 1..j - 1 + |p|] == s[j..j + |p|];
    }
  }

  /** IndexOf finds the least occurrence, and reports None only when there is none. */
  lemma {:induction false} IndexOfIsLeast(s: string, p: string)
    ensures IndexOf(s, p).Some? ==> forall j: nat :: j < IndexOf(s, p).value ==> !OccursAt(s, p, j)
    ensures IndexOf(s, p).None? ==> forall j: nat :: !OccursAt(s, p, j)
    decreases |s|
  {
    if |s| < |p| {
    } else if s[..|p|] == p {
    } else {
      IndexOfIsLeast(s[1..], p);
      forall j: nat | 0 < j ensures OccursAt(s, p, j) <==> OccursAt(s[1..], p, j - 1) {
        OccursAtTail(s, p, j);
      }
      assert !OccursAt(s, p, 0);
    }
  }

  /**
   * GetSubstitution (section 22.1.3.19.1 of ECMA-262) for a match without
   * capture groups: `$$` stands for `$`, `$&` for the matched text, `` $` ``
   * for the text before the match and `$'` for the text after it; every other
   * character, `$` included, is copied.
   */
  function Expand(replacement: string, matched: string, before: string, after: string): (r: string)
    ensures '$' !in replacement ==> r == replacement
    decreases |replacement|
  {
    if replacement == [] then []
    else if |replacement| >= 2 && replacement[0] == '$' && replacement[1] in "$&`'" then
      var piece :=
        match replacement[1]
        case '$' => "$"
        case '&' => matched
        case '`' => before
        case _ => after;
      piece + Expand(replacement[2..], matched, before, after)
    else
      [replacement[0]] + Expand(replacement[1..], matched, before, after)
  }

  /**
   * `s.replace(pattern, replacement)` with a string `pattern`: the first
   * occurrence of `pattern` is replaced by the expansion of `replacement`;
   * when `pattern` does not occur, `s` is returned as it is.
   */
  function ReplaceFirst(s: string, pattern: string, replacement: string): string {
    match IndexOf(s, pattern)
    case None => s
    case Some(i) =>
      s[..i] + Expand(replacement, pattern, s[..i], s[i + |pattern|..]) + s[i + |pattern|..]
  }

  /** `s.replace(/^\//, '')`: removes one leading slash, if there is one. */
  function StripLeadingSlash(s: string): string {
    if |s| > 0 && s[0] == '/' then s[1..] else s
  }

  /** The search reports the least occurrence it is shown. */
  lemma IndexOfIsFirst(s: string, p: string, i: nat)
    requires OccursAt(s, p, i)
    requires forall j: nat :: j < i ==> !OccursAt(s, p, j)
    ensures IndexOf(s, p) == Some(i)
  {
    IndexOfIsLeast(s, p);
  }

  /** A string whose first character differs from the pattern's is searched from its second. */
  lemma IndexOfSkip(s: string, p: string)
    requires |s| > 0 && |p| > 0 && s[0] != p[0]
    ensures IndexOf(s[1..], p).None? ==> IndexOf(s, p).None?
    ensures IndexOf(s[1..], p).Some? ==> IndexOf(s, p) == Some(IndexOf(s[1..], p).value + 1)
  {
    if |s| >= |p| {
      assert s[..|p|][0] == s[0];
    }
  }

  /** A prefix with no `{` shifts, and does not change, what a `{`-pattern search finds. */
  lemma {:induction false} IndexOfBehindBraceFree(a: string, x: string, p: string)
    requires |p| > 0 && p[0] == '{' && '{' !in a
    ensures IndexOf(x, p).None? ==> IndexOf(a + x, p).None?
    ensures IndexOf(x, p).Some? ==> IndexOf(a + x, p) == Some(|a| + IndexOf(x, p).value)
    decreases |a|
  {
    if a == [] {
      EmptyPrefix(x);
    } else {
      var s, t := a + x, a[1..];
      assert a[0] in a;
      TailOfConcat(a, x);
      assert '{' !in t by {
        forall c | c in t ensures c in a {
          SubsequenceMember(a, c);
        }
      }
      IndexOfBehindBraceFree(t, x, p);
      IndexOfSkip(s, p);
    }
  }

  /**
   * A pattern that starts with `{` is found, in a string with no `{` before
   * it, exactly where it is placed.
   */
  lemma IndexOfAfterBraceFree(a: string, p: string, b: string)
    requires |p| > 0 && p[0] == '{' && '{' !in a
    ensures IndexOf(a + p + b, p) == Some(|a|)
  {
    assert (p + b)[..|p|] == p;
    assert a + p + b == a + (p + b);
    IndexOfBehindBraceFree(a, p + b, p);
  }

  /** With a replacement free of `$`, the first match is replaced by the replacement itself. */
  lemma ReplaceFirstVerbatim(s: string, p: string, v: string, i: nat)
    requires IndexOf(s, p) == Some(i) && '$' !in v
    ensures i + |p| <= |s|
    ensures ReplaceFirst(s, p, v) == s[..i] + v + s[i + |p|..]
  {
  }

  /**
   * Replacing the first `{`-pattern, with a replacement free of `$`, in a
   * string where nothing before the pattern is a `{`, puts the replacement
   * exactly in the pattern's place.
   */
  lemma ReplaceFirstInPlace(a: string, p: string, b: string, v: string)
    requires |p| > 0 && p[0] == '{' && '{' !in a && '$' !in v
    ensures ReplaceFirst(a + p + b, p, v) == a + v + b
  {
    IndexOfAfterBraceFree(a, p, b);
    ReplaceFirstVerbatim(a + p + b, p, v, |a|);
    SlicesAroundMiddle(a, p, b);
  }

  /** A prefix with no `{` passes through a `{`-pattern replacement unchanged. */
  lemma ReplaceFirstBehindBraceFree(a: string, x: string, p: string, v: string)
    requires |p| > 0 && p[0] == '{' && '{' !in a && '$' !in v
    ensures ReplaceFirst(a + x, p, v) == a + ReplaceFirst(x, p, v)
  {
    IndexOfBehindBraceFree(a, x, p);
    if IndexOf(x, p).Some? {
      var k := IndexOf(x, p).value;
      ReplaceFirstVerbatim(a + x, p, v, |a| + k);
      ReplaceFirstVerbatim(x, p, v, k);
      SpliceBehindPrefix(a, x, k, |p|, v);
    }
  }

  /**
   * An occurrence of `q` that does not overlap the first occurrence of `p`
   * is still present after `ReplaceFirst(s, p, v)`, at the returned index:
   * `replace` leaves the text before and after the replaced match as it was,
   * and an occurrence after it moves by the difference in length between a
   * `$`-free replacement and the match.
   */
  lemma ReplaceFirstKeeps(s: string, p: string, v: string, q: string, i: nat) returns (i': nat)
    requires OccursAt(s, q, i)
    requires IndexOf(s, p).Some? ==>
      i + |q| <= IndexOf(s, p).value || IndexOf(s, p).value + |p| <= i
    ensures OccursAt(ReplaceFirst(s, p, v), q, i')
    ensures IndexOf(s, p).None? ==> i' == i
    ensures IndexOf(s, p).Some? && i + |q| <= IndexOf(s, p).value ==> i' == i
    ensures IndexOf(s, p).Some? && IndexOf(s, p).value < i + |q| && '$' !in v ==> i' == i - |p| + |v|
  {
    if IndexOf(s, p).None? {
      i' := i;
    } else {
      var k := IndexOf(s, p).value;
      var e := Expand(v, p, s[..k], s[k + |p|..]);
      i' := OccurrenceSurvives(s, k, |p|, e, q, i);
    }
  }

  // Facts about slices of concatenations, kept apart from the string functions above.

  lemma SpliceBehindPrefix(a: string, x: string, k: nat, m: nat, v: string)
    requires k + m <= |x|
    ensures (a + x)[..|a| + k] + v + (a + x)[|a| + k + m..] == a + (x[..k] + v + x[k + m..])
  {
    assert (a + x)[..|a| + k] == a + x[..k];
    assert (a + x)[|a| + k + m..] == x[k + m..];
  }

  lemma SlicesAroundMiddle(a: string, p: string, b: string)
    ensures (a + p + b)[..|a|] == a
    ensures (a + p + b)[|a| + |p|..] == b
  {
  }

  lemma EmptyPrefix(x: string)
    ensures [] + x == x
  {
  }

  lemma TailOfConcat(a: string, x: string)
    requires |a| > 0
    ensures (a + x)[1..] == a[1..] + x && (a + x)[0] == a[0]
  {
  }

  /** Rewriting `s[k..k+m]` to `e` keeps an occurrence of `q` that lies wholly before or after it. */
  lemma OccurrenceSurvives(s: string, k: nat, m: nat, e: string, q: string, i: nat) returns (i': nat)
    requires k + m <= |s| && OccursAt(s, q, i)
    requires i + |q| <= k || k + m <= i
    ensures OccursAt(s[..k] + e + s[k + m..], q, i')
    ensures i + |q| <= k ==> i' == i
    ensures k < i + |q| ==> i' == i - m + |e|
  {
    var r := s[..k] + e + s[k + m..];
    if i + |q| <= k {
      i' := i;
      assert r[i..i + |q|] == s[i..i + |q|];
    } else {
      i' := i - m + |e|;
      assert r[i'..i' + |q|] == s[i..i + |q|];
    }
  }

  lemma SubsequenceMember(a: string, c: char)
    requires |a| > 0 && c in a[1..]
    ensures c in a
  {
  }
}

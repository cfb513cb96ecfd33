/** `s.replace(/pat/g, rep)` for a regular expression that is a fixed
    string without capture groups, as the template generator uses it.
    The occurrences of `pat` are found left to right without overlap, and
    each is replaced by `rep` read as a JavaScript replacement pattern:
    "$$" inserts "$", "$&" the matched text, "$`" the text before the match
    and "$'" the text after it (both taken from the string being searched);
    every other character, a lone "$" included, stands for itself. */
module Replace {
  import opened Text

  /** The text that replacement pattern `rep` stands for at one match. */
  function Expand(rep: string, matched: string, before: string, after: string): string
    decreases |rep|
  {
    if rep == [] then ""
    else if |rep| >= 2 && rep[0] == '$' && rep[1] == '$' then "$" + Expand(rep[2..], matched, before, after)
    else if |rep| >= 2 && rep[0] == '$' && rep[1] == '&' then matched + Expand(rep[2..], matched, before, after)
    else if |rep| >= 2 && rep[0] == '$' && rep[1] == '`' then before + Expand(rep[2..], matched, before, after)
    else if |rep| >= 2 && rep[0] == '$' && rep[1] == '\'' then after + Expand(rep[2..], matched, before, after)
    else [rep[0]] + Expand(rep[1..], matched, before, after)
  }

  /** A replacement without "$" stands for itself. */
  lemma {:induction false} ExpandLiteral(rep: string, matched: string, before: string, after: string)
    requires '$' !in rep
    ensures Expand(rep, matched, before, after) == rep
    decreases |rep|
  {
    if rep != [] {
      assert rep == [rep[0]] + rep[1..];
      ExpandLiteral(rep[1..], matched, before, after);
      assert [rep[0]] + rep[1..] == rep;
    }
  }

  /** The output for `t`, the part of the string not yet searched;
      `before` is the original text already searched, which "$`" inserts. */
  function Scan(before: string, t: string, pat: string, rep: string): string
    requires |pat| > 0
    decreases |t|
  {
    if pat <= t then
      Expand(rep, pat, before, t[|pat|..]) + Scan(before + pat, t[|pat|..], pat, rep)
    else if t == [] then ""
    else [t[0]] + Scan(before + [t[0]], t[1..], pat, rep)
  }

  /** `s.replace(/pat/g, rep)`. */
  function ReplaceAll(s: string, pat: string, rep: string): string
    requires |pat| > 0
  {
    Scan("", s, pat, rep)
  }

  /** Reference: every occurrence, left to right, replaced by `rep` verbatim. */
  function LiteralReplace(t: string, pat: string, rep: string): string
    requires |pat| > 0
    decreases |t|
  {
    if pat <= t then rep + LiteralReplace(t[|pat|..], pat, rep)
    else if t == [] then ""
    else [t[0]] + LiteralReplace(t[1..], pat, rep)
  }

  /** With no "$" in the replacement, JavaScript's global replace is the
      literal replace-all. */
  lemma {:induction false} ScanLiteral(before: string, t: string, pat: string, rep: string)
    requires |pat| > 0
    requires '$' !in rep
    ensures Scan(before, t, pat, rep) == LiteralReplace(t, pat, rep)
    decreases |t|
  {
    if pat <= t {
      ExpandLiteral(rep, pat, before, t[|pat|..]);
      ScanLiteral(before + pat, t[|pat|..], pat, rep);
    } else if t != [] {
      ScanLiteral(before + [t[0]], t[1..], pat, rep);
    }
  }

  lemma ReplaceAllLiteral(s: string, pat: string, rep: string)
    requires |pat| > 0
    requires '$' !in rep
    ensures ReplaceAll(s, pat, rep) == LiteralReplace(s, pat, rep)
  {
    ScanLiteral("", s, pat, rep);
  }

  lemma ExpandMatched(matched: string, before: string, after: string)
    ensures Expand("$&", matched, before, after) == matched
  {
    assert "$&"[2..] == "";
  }

  /** A replacement of "$&" puts every match back: the string is returned
      unchanged, placeholders and all. */
  lemma {:induction false} ScanMatchedIsIdentity(before: string, t: string, pat: string)
    requires |pat| > 0
    ensures Scan(before, t, pat, "$&") == t
    decreases |t|
  {
    if pat <= t {
      ExpandMatched(pat, before, t[|pat|..]);
      ScanMatchedIsIdentity(before + pat, t[|pat|..], pat);
      assert t == pat + t[|pat|..];
    } else if t != [] {
      ScanMatchedIsIdentity(before + [t[0]], t[1..], pat);
      assert t == [t[0]] + t[1..];
    }
  }

  lemma ReplaceAllMatchedIsIdentity(s: string, pat: string)
    requires |pat| > 0
    ensures ReplaceAll(s, pat, "$&") == s
  {
    ScanMatchedIsIdentity("", s, pat);
  }

  /** A replacement of "$$" followed by `w` inserts "$" + `w` at each match:
      one of the two dollar signs is lost. */
  lemma DoubleDollarExpands(w: string, matched: string, before: string, after: string)
    requires '$' !in w
    ensures Expand("$$" + w, matched, before, after) == "$" + w
  {
    assert ("$$" + w)[2..] == w;
    ExpandLiteral(w, matched, before, after);
  }

  /** Text in which the pattern can neither start nor begin to start: from no
      position do the text and `pat` agree all the way to the end of either. */
  ghost predicate Clean(a: string, pat: string) {
    forall i | 0 <= i < |a| :: !(pat <= a[i..]) && !(a[i..] <= pat)
  }

  /** A string whose characters all differ from the pattern's first one is clean. */
  lemma CleanWithoutFirst(a: string, pat: string)
    requires |pat| > 0
    requires pat[0] !in a
    ensures Clean(a, pat)
  {
    forall i | 0 <= i < |a| ensures !(pat <= a[i..]) && !(a[i..] <= pat) {
      assert a[i..][0] == a[i];
    }
  }

  /** How a prefix test sees through a concatenation. */
  lemma PrefixConcat(x: string, b: string, p: string)
    ensures x + b <= p ==> x <= p
    ensures |p| <= |x| ==> (p <= x + b <==> p <= x)
    ensures |x| < |p| && p <= x + b ==> x <= p
  {
    if |p| <= |x| {
      assert (x + b)[..|p|] == x[..|p|];
    }
    if |x| <= |p| && x + b <= p {
      assert p[..|x|] == (x + b)[..|x|];
    }
    if |x| < |p| && p <= x + b {
      assert (x + b)[..|x|] == p[..|x|];
    }
  }

  lemma CleanConcat(a: string, b: string, pat: string)
    requires Clean(a, pat) && Clean(b, pat)
    ensures Clean(a + b, pat)
  {
    forall i | 0 <= i < |a + b| ensures !(pat <= (a + b)[i..]) && !((a + b)[i..] <= pat) {
      if i < |a| {
        assert (a + b)[i..] == a[i..] + b;
        PrefixConcat(a[i..], b, pat);
      } else {
        assert (a + b)[i..] == b[i - |a|..];
      }
    }
  }

  lemma CleanTail(a: string, pat: string)
    requires a != [] && Clean(a, pat)
    ensures Clean(a[1..], pat)
  {
    forall i | 0 <= i < |a[1..]| ensures !(pat <= a[1..][i..]) && !(a[1..][i..] <= pat) {
      assert a[1..][i..] == a[i + 1..];
    }
  }

  /** No occurrence of a (non-empty) pattern lies in clean text. */
  lemma {:induction false} CleanExcludes(a: string, pat: string)
    requires |pat| > 0
    requires Clean(a, pat)
    ensures !Includes(a, pat)
    decreases |a|
  {
    if a != [] {
      assert a[0..] == a;
      CleanTail(a, pat);
      CleanExcludes(a[1..], pat);
    }
  }

  /** The literal replace-all passes clean text through untouched. */
  lemma {:induction false} LiteralReplaceClean(a: string, b: string, pat: string, rep: string)
    requires |pat| > 0
    requires Clean(a, pat)
    ensures LiteralReplace(a + b, pat, rep) == a + LiteralReplace(b, pat, rep)
    decreases |a|
  {
    if a == [] {
      assert a + b == b;
    } else {
      assert a[0..] == a;
      PrefixConcat(a, b, pat);
      assert !(pat <= a + b);
      assert LiteralReplace(a + b, pat, rep) == [a[0]] + LiteralReplace((a + b)[1..], pat, rep);
      CleanTail(a, pat);
      assert (a + b)[1..] == a[1..] + b;
      LiteralReplaceClean(a[1..], b, pat, rep);
      assert [a[0]] + a[1..] == a;
    }
  }

  /** Text starting with the pattern: the match is replaced, the scan resumes after it. */
  lemma LiteralReplaceMatch(b: string, pat: string, rep: string)
    requires |pat| > 0
    ensures LiteralReplace(pat + b, pat, rep) == rep + LiteralReplace(b, pat, rep)
  {
    assert (pat + b)[|pat|..] == b;
  }

  /** Without an occurrence of the pattern, the replace-all changes nothing,
      whatever the replacement. */
  lemma {:induction false} ScanAbsent(before: string, t: string, pat: string, rep: string)
    requires |pat| > 0
    requires !Includes(t, pat)
    ensures Scan(before, t, pat, rep) == t
    decreases |t|
  {
    if t != [] {
      ScanAbsent(before + [t[0]], t[1..], pat, rep);
      assert t == [t[0]] + t[1..];
    }
  }

  lemma ReplaceAllAbsent(s: string, pat: string, rep: string)
    requires |pat| > 0
    requires !Includes(s, pat)
    ensures ReplaceAll(s, pat, rep) == s
  {
    ScanAbsent("", s, pat, rep);
  }

  /** The scan copies clean text as it stands: no occurrence starts inside it. */
  lemma {:induction false} ScanClean(before: string, a: string, post: string, pat: string, rep: string)
    requires |pat| > 0 && Clean(a, pat)
    ensures Scan(before, a + post, pat, rep) == a + Scan(before + a, post, pat, rep)
    decreases |a|
  {
    if a == [] {
      assert a + post == post && before + a == before;
    } else {
      CleanStep(a, post, pat);
      CleanTail(a, pat);
      ScanClean(before + [a[0]], a[1..], post, pat, rep);
      MoveFirst(before, a);
    }
  }

  /** Clean text followed by anything does not start with the pattern. */
  lemma CleanStep(a: string, post: string, pat: string)
    requires a != [] && Clean(a, pat)
    ensures !(pat <= a + post) && a + post != [] && (a + post)[0] == a[0]
    ensures (a + post)[1..] == a[1..] + post
  {
    assert a[0..] == a;
    PrefixConcat(a, post, pat);
  }

  lemma MoveFirst(before: string, a: string)
    requires a != []
    ensures before + [a[0]] + a[1..] == before + a
    ensures [a[0]] + a[1..] == a
  {
  }

  /** The scan at an occurrence of the pattern expands the replacement and
      resumes after the occurrence. */
  lemma ScanMatch(before: string, pat: string, post: string, rep: string)
    requires |pat| > 0
    ensures Scan(before, pat + post, pat, rep)
      == Expand(rep, pat, before, post) + Scan(before + pat, post, pat, rep)
  {
    assert (pat + post)[|pat|..] == post;
  }

  /** No occurrence of the pattern can overlap text `m` whose characters
      exclude the pattern's first and last ones and whose first character
      the pattern lacks: every occurrence of `m` survives the replace,
      whatever the replacement. */
  lemma {:induction false} ScanKeeps(before: string, t: string, pat: string, rep: string, m: string)
    requires |pat| > 0 && m != []
    requires pat[0] !in m && pat[|pat| - 1] !in m && m[0] !in pat
    requires Includes(t, m)
    ensures Includes(Scan(before, t, pat, rep), m)
    decreases |t|
  {
    if m <= t {
      CleanWithoutFirst(m, pat);
      assert t == m + t[|m|..];
      ScanClean(before, m, t[|m|..], pat, rep);
      assert m <= m + Scan(before + m, t[|m|..], pat, rep);
    } else if pat <= t {
      var i := IncludesWitness(t, m);
      MatchBeforeOccurrence(t, pat, m, i);
      assert t[|pat|..][i - |pat|..i - |pat| + |m|] == t[i..i + |m|];
      IncludesAt(t[|pat|..], m, i - |pat|);
      ScanKeeps(before + pat, t[|pat|..], pat, rep, m);
      IncludesRight(Expand(rep, pat, before, t[|pat|..]), Scan(before + pat, t[|pat|..], pat, rep), m);
    } else {
      ScanKeeps(before + [t[0]], t[1..], pat, rep, m);
      IncludesRight([t[0]], Scan(before + [t[0]], t[1..], pat, rep), m);
    }
  }

  /** An occurrence of the pattern at the front ends before any later
      occurrence of such an `m` begins. */
  lemma MatchBeforeOccurrence(t: string, pat: string, m: string, i: nat)
    requires |pat| > 0 && m != [] && pat <= t
    requires pat[|pat| - 1] !in m && m[0] !in pat
    requires 0 < i && i + |m| <= |t| && t[i..i + |m|] == m
    ensures |pat| <= i
  {
    assert forall k :: 0 <= k < |m| ==> t[i + k] == m[k];
    assert forall k :: 0 <= k < |pat| ==> t[k] == pat[k];
  }
}

/** String primitives the tool handler relies on, with JavaScript's meaning:
    `String.prototype.includes`, `Array.prototype.join`, the first-character
    case flips `s.charAt(0).toUpperCase() + s.slice(1)` (and its lower-case
    twin), `toLowerCase`, and `split(/\s+/)`. Case mapping is restricted to
    the ASCII letters; every other character maps to itself. */
module Text {

  /** `s.includes(p)`: `p` occurs in `s` as a contiguous substring (the empty
      string occurs everywhere). */
  predicate Includes(s: string, p: string)
    decreases |s|
  {
    p <= s || (|s| > 0 && Includes(s[1..], p))
  }

  lemma {:induction false} IncludesRight(a: string, b: string, p: string)
    requires Includes(b, p)
    ensures Includes(a + b, p)
  {
    if a == [] {
      assert a + b == b;
    } else {
      IncludesRight(a[1..], b, p);
      assert (a + b)[1..] == a[1..] + b;
    }
  }

  lemma {:induction false} IncludesLeft(a: string, b: string, p: string)
    requires Includes(a, p)
    ensures Includes(a + b, p)
  {
    if p <= a {
      assert p <= a + b;
    } else {
      assert (a + b)[1..] == a[1..] + b;
      IncludesLeft(a[1..], b, p);
    }
  }

  /** When `p + q` occurs in `s`, so does `p` (so text holding "useQuery" holds "use"). */
  lemma {:induction false} IncludesPrefixOf(s: string, p: string, q: string)
    ensures Includes(s, p + q) ==> Includes(s, p)
    decreases |s|
  {
    if p + q <= s {
      assert p <= s;
    } else if |s| > 0 {
      IncludesPrefixOf(s[1..], p, q);
    }
  }

  /** An occurrence of `p` in `s`, named by where it starts. */
  lemma {:induction false} IncludesWitness(s: string, p: string) returns (i: nat)
    requires Includes(s, p)
    ensures i + |p| <= |s| && s[i..i + |p|] == p
    decreases |s|
  {
    if p <= s {
      i := 0;
    } else {
      var j := IncludesWitness(s[1..], p);
      assert s[1..][j..j + |p|] == s[j + 1..j + 1 + |p|];
      i := j + 1;
    }
  }

  /** `p` standing at position `i` of `s` is an occurrence of it. */
  lemma {:induction false} IncludesAt(s: string, p: string, i: nat)
    requires i + |p| <= |s| && s[i..i + |p|] == p
    ensures Includes(s, p)
    decreases i
  {
    if i == 0 {
      assert p <= s;
    } else {
      assert s[1..][i - 1..i - 1 + |p|] == s[i..i + |p|];
      IncludesAt(s[1..], p, i - 1);
    }
  }

  /** `parts.join(sep)`: no separator for zero or one part. */
  function Join(parts: seq<string>, sep: string): string
    decreases |parts|
  {
    if |parts| == 0 then ""
    else if |parts| == 1 then parts[0]
    else parts[0] + sep + Join(parts[1..], sep)
  }

  lemma JoinCons(w: string, ws: seq<string>, sep: string)
    requires ws != []
    ensures Join([w] + ws, sep) == w + sep + Join(ws, sep)
  {
    assert ([w] + ws)[1..] == ws;
  }

  // ASCII case mapping

  predicate IsUpper(c: char) { 'A' <= c <= 'Z' }

  predicate IsLower(c: char) { 'a' <= c <= 'z' }

  /** Upper-casing: a lower-case letter becomes the capital that
      lower-cases back to it; every other character is left as it is. */
  function ToUpperChar(c: char): (r: char)
    ensures !IsLower(r)
    ensures IsLower(c) <==> IsUpper(r) && r != c
    ensures !IsLower(c) ==> r == c
    ensures IsLower(c) ==> ToLowerChar(r) == c
  {
    if IsLower(c) then (c as int - 32) as char else c
  }

  /** Lower-casing: a capital becomes a lower-case letter (the one that
      upper-cases back to it, by `CharCaseRoundTrip`); every other character
      is left as it is. */
  function ToLowerChar(c: char): (r: char)
    ensures !IsUpper(r)
    ensures IsUpper(c) <==> IsLower(r) && r != c
    ensures !IsUpper(c) ==> r == c
  {
    if IsUpper(c) then (c as int + 32) as char else c
  }

  lemma CharCaseRoundTrip(c: char)
    ensures ToLowerChar(ToUpperChar(c)) == ToLowerChar(c)
    ensures ToUpperChar(ToLowerChar(c)) == ToUpperChar(c)
    ensures IsUpper(c) ==> ToUpperChar(ToLowerChar(c)) == c
  {
  }

  /** `s.toLowerCase()` on the ASCII letters. */
  function ToLower(s: string): (r: string)
    ensures |r| == |s|
    ensures forall i :: 0 <= i < |s| ==> r[i] == ToLowerChar(s[i])
  {
    seq(|s|, i requires 0 <= i < |s| => ToLowerChar(s[i]))
  }

  /** No ASCII capital letter anywhere in `s`. */
  predicate Lowered(s: string) {
    forall i :: 0 <= i < |s| ==> !IsUpper(s[i])
  }

  /** `s.charAt(0).toUpperCase() + s.slice(1)`; `""` stays `""`. */
  function UpperFirst(s: string): (r: string)
    ensures |r| == |s|
    ensures forall i :: 1 <= i < |s| ==> r[i] == s[i]
    ensures s != [] ==> !IsLower(r[0])
  {
    if s == [] then "" else [ToUpperChar(s[0])] + s[1..]
  }

  /** `s.charAt(0).toLowerCase() + s.slice(1)`; `""` stays `""`. */
  function LowerFirst(s: string): (r: string)
    ensures |r| == |s|
    ensures forall i :: 1 <= i < |s| ==> r[i] == s[i]
    ensures s != [] ==> !IsUpper(r[0])
  {
    if s == [] then "" else [ToLowerChar(s[0])] + s[1..]
  }

  /** A character other than a letter can only come out of a case flip if it
      went in. */
  lemma CaseFlipsKeep(s: string, c: char)
    requires !IsUpper(c) && !IsLower(c) && c !in s
    ensures c !in UpperFirst(s) && c !in LowerFirst(s)
  {
    if s != [] {
      assert UpperFirst(s) == [ToUpperChar(s[0])] + s[1..];
      assert LowerFirst(s) == [ToLowerChar(s[0])] + s[1..];
      assert s == [s[0]] + s[1..];
    }
  }

  /** The two case flips only ever disagree in the first character, and each
      undoes the other on that character. */
  lemma FirstCaseRoundTrip(s: string)
    ensures LowerFirst(UpperFirst(s)) == LowerFirst(s)
    ensures UpperFirst(LowerFirst(s)) == UpperFirst(s)
    ensures UpperFirst(UpperFirst(s)) == UpperFirst(s)
  {
  }

  /** Lower-casing a capitalised lower-case word gives the word back. */
  lemma LowerUpperFirst(w: string)
    requires Lowered(w)
    ensures ToLower(UpperFirst(w)) == w
  {
  }

  lemma LowerOfConcat(a: string, b: string)
    ensures ToLower(a + b) == ToLower(a) + ToLower(b)
  {
  }

  // Whitespace and split(/\s+/)

  /** The class `\s` of JavaScript regular expressions: the ECMAScript
      WhiteSpace and LineTerminator code points. */
  predicate IsSpace(c: char) {
    ('\t' <= c <= '\r') || c == ' ' || c == '\U{A0}' || c == '\U{1680}'
    || ('\U{2000}' <= c <= '\U{200A}') || ('\U{2028}' <= c <= '\U{2029}')
    || c == '\U{202F}' || c == '\U{205F}' || c == '\U{3000}' || c == '\U{FEFF}'
  }

  predicate NoSpace(w: string) {
    forall i :: 0 <= i < |w| ==> !IsSpace(w[i])
  }

  /** Drops the whitespace run at the front of `s`. */
  function SkipSpaces(s: string): (r: string)
    ensures |r| <= |s| && r == s[|s| - |r|..]
    ensures r == [] || !IsSpace(r[0])
    ensures s != [] && IsSpace(s[0]) ==> |r| < |s|
    ensures forall i :: 0 <= i < |s| - |r| ==> IsSpace(s[i])
    decreases |s|
  {
    if s != [] && IsSpace(s[0]) then
      var r := SkipSpaces(s[1..]);
      assert forall i :: 1 <= i < |s| - |r| ==> s[i] == s[1..][i - 1];
      r
    else s
  }

  /** `s.split(/\s+/)`: the pieces between maximal whitespace runs. Nothing is
      dropped: a leading or trailing run yields an empty first or last piece,
      and `""` yields `[""]`. */
  function Split(s: string): (r: seq<string>)
    ensures |r| >= 1
    ensures forall k :: 0 <= k < |r| ==> NoSpace(r[k])
    ensures r[0] <= s
    ensures r[0] == "" <==> s == [] || IsSpace(s[0])
    decreases |s|
  {
    if s == [] then [""]
    else if IsSpace(s[0]) then [""] + Split(SkipSpaces(s))
    else
      var rest := Split(s[1..]);
      [[s[0]] + rest[0]] + rest[1..]
  }

  /** Reference for joining the pieces of a split: every maximal whitespace
      run of `s` replaced by `sep`. */
  function ReplaceRuns(s: string, sep: string): string
    decreases |s|
  {
    if s == [] then []
    else if IsSpace(s[0]) then sep + ReplaceRuns(SkipSpaces(s), sep)
    else [s[0]] + ReplaceRuns(s[1..], sep)
  }

  /** Joining the pieces of `s.split(/\s+/)` with `sep` is the same as
      replacing each whitespace run of `s` by `sep`. */
  lemma {:induction false} JoinSplit(s: string, sep: string)
    ensures Join(Split(s), sep) == ReplaceRuns(s, sep)
    decreases |s|
  {
    if s != [] {
      if IsSpace(s[0]) {
        JoinSplit(SkipSpaces(s), sep);
        JoinSplitAtSpace(s, sep);
      } else {
        JoinSplit(s[1..], sep);
        JoinSplitAtWord(s, sep);
      }
    }
  }

  /** The step of `JoinSplit` at a whitespace run. */
  lemma JoinSplitAtSpace(s: string, sep: string)
    requires s != [] && IsSpace(s[0])
    requires Join(Split(SkipSpaces(s)), sep) == ReplaceRuns(SkipSpaces(s), sep)
    ensures Join(Split(s), sep) == ReplaceRuns(s, sep)
  {
    var t := SkipSpaces(s);
    var ws := Split(t);
    assert Split(s) == [""] + ws;
    assert ReplaceRuns(s, sep) == sep + ReplaceRuns(t, sep);
    JoinAfterEmpty(ws, sep);
  }

  lemma JoinAfterEmpty(ws: seq<string>, sep: string)
    requires ws != []
    ensures Join([""] + ws, sep) == sep + Join(ws, sep)
  {
    JoinCons("", ws, sep);
    assert "" + sep == sep;
  }

  /** The step of `JoinSplit` inside a word. */
  lemma JoinSplitAtWord(s: string, sep: string)
    requires s != [] && !IsSpace(s[0])
    requires Join(Split(s[1..]), sep) == ReplaceRuns(s[1..], sep)
    ensures Join(Split(s), sep) == ReplaceRuns(s, sep)
  {
    var rest := Split(s[1..]);
    assert Split(s) == [[s[0]] + rest[0]] + rest[1..];
    assert ReplaceRuns(s, sep) == [s[0]] + ReplaceRuns(s[1..], sep);
    JoinPrepend(s[0], rest, sep);
  }

  /** A character put in front of the first part comes first in the join. */
  lemma JoinPrepend(c: char, ws: seq<string>, sep: string)
    requires ws != []
    ensures Join([[c] + ws[0]] + ws[1..], sep) == [c] + Join(ws, sep)
  {
    if |ws| == 1 {
      assert [[c] + ws[0]] + ws[1..] == [[c] + ws[0]];
    } else {
      assert ws == [ws[0]] + ws[1..];
      JoinCons(ws[0], ws[1..], sep);
      JoinCons([c] + ws[0], ws[1..], sep);
    }
  }

  lemma NoSpaceTail(w: string)
    requires w != [] && NoSpace(w)
    ensures NoSpace(w[1..]) && !IsSpace(w[0])
  {
    forall i | 0 <= i < |w[1..]| ensures !IsSpace(w[1..][i]) {
      assert w[1..][i] == w[i + 1];
    }
  }

  /** A character that is not whitespace joins the first word of the rest. */
  lemma SplitCons(c: char, u: string)
    requires !IsSpace(c)
    ensures Split([c] + u) == [[c] + Split(u)[0]] + Split(u)[1..]
  {
    assert ([c] + u)[1..] == u;
  }

  /** A single blank in front gives an empty first word. */
  lemma SplitBlankFirst(t: string)
    requires t == [] || !IsSpace(t[0])
    ensures Split(" " + t) == [""] + Split(t)
  {
    var b := " " + t;
    assert b[0] == ' ' && b[1..] == t;
    assert IsSpace(b[0]);
    assert SkipSpaces(t) == t;
    assert SkipSpaces(b) == t;
    assert Split(b) == [""] + Split(SkipSpaces(b));
  }

  /** A word without whitespace splits to itself. */
  lemma {:induction false} SplitWord(w: string)
    requires NoSpace(w)
    ensures Split(w) == [w]
  {
    if w != [] {
      NoSpaceTail(w);
      SplitWord(w[1..]);
      SplitCons(w[0], w[1..]);
      assert [w[0]] + w[1..] == w;
    }
  }

  /** Splitting a word without whitespace that is glued to text starting with
      a single blank. */
  lemma {:induction false} SplitAtBlank(w: string, t: string)
    requires NoSpace(w)
    requires t == [] || !IsSpace(t[0])
    ensures Split(w + " " + t) == [w] + Split(t)
  {
    if w == [] {
      assert w + " " + t == " " + t;
      SplitBlankFirst(t);
    } else {
      NoSpaceTail(w);
      var u := w[1..] + " " + t;
      assert w + " " + t == [w[0]] + u;
      SplitAtBlank(w[1..], t);
      SplitCons(w[0], u);
      assert [w[0]] + w[1..] == w;
    }
  }

  /** Round trip: split undoes a join on single blanks, for words without
      whitespace of which only the first and the last may be empty. */
  lemma {:induction false} SplitJoin(ws: seq<string>)
    requires |ws| >= 1
    requires forall k :: 0 <= k < |ws| ==> NoSpace(ws[k])
    requires forall k :: 0 < k < |ws| - 1 ==> ws[k] != ""
    ensures Split(Join(ws, " ")) == ws
    decreases |ws|
  {
    if |ws| == 1 {
      SplitWord(ws[0]);
    } else {
      var t := Join(ws[1..], " ");
      SplitJoin(ws[1..]);
      JoinCons(ws[0], ws[1..], " ");
      assert t == [] || !IsSpace(t[0]) by {
        if |ws| > 2 {
          JoinCons(ws[1], ws[2..], " ");
          assert ws[1] != "";
          assert t[0] == ws[1][0];
        } else {
          assert t == ws[1];
        }
      }
      SplitAtBlank(ws[0], t);
      assert [ws[0]] + ws[1..] == ws;
    }
  }

  /** Every piece of a split of a lower-cased string is lower-cased. */
  lemma {:induction false} SplitLowered(s: string)
    requires Lowered(s)
    ensures forall k :: 0 <= k < |Split(s)| ==> Lowered(Split(s)[k])
    decreases |s|
  {
    if s == [] {
    } else if IsSpace(s[0]) {
      var t := SkipSpaces(s);
      SplitLowered(t);
      assert Split(s) == [""] + Split(t);
    } else {
      SplitLowered(s[1..]);
    }
  }

  /** Lower-casing maps whitespace to itself, so it commutes with the split
      into pieces. */
  lemma IsSpaceToLower(c: char)
    ensures IsSpace(ToLowerChar(c)) == IsSpace(c)
  {
  }

  lemma IsSpaceToUpper(c: char)
    ensures IsSpace(ToUpperChar(c)) == IsSpace(c)
  {
  }
}

/**
 * The JavaScript string operations the backend relies on, stated over
 * `seq<char>`: the `\s` character class, `trim`, `split(/\s+/)`,
 * `join`, `replace(/\s+/g, " ")` and ASCII `toLowerCase`.
 */
module Text {

  /** A member of JavaScript's `\s` class (WhiteSpace and LineTerminator). */
  predicate IsSpace(c: char)
  {
    || c == ' ' || c == '\t' || c == '\n' || c == '\r'
    || c == '\U{000B}' || c == '\U{000C}' || c == '\U{00A0}' || c == '\U{1680}'
    || ('\U{2000}' <= c <= '\U{200A}')
    || c == '\U{2028}' || c == '\U{2029}' || c == '\U{202F}' || c == '\U{205F}'
    || c == '\U{3000}' || c == '\U{FEFF}'
  }

  predicate SpaceFree(w: string)
  {
    forall i :: 0 <= i < |w| ==> !IsSpace(w[i])
  }

  /** A string that is empty or begins and ends with a non-space character. */
  predicate Unpadded(s: string)
  {
    s == [] || (!IsSpace(s[0]) && !IsSpace(s[|s| - 1]))
  }

  /** `s.trimStart()`: drops exactly the leading whitespace. */
  function TrimStart(s: string): (r: string)
    ensures |r| <= |s|
    ensures r == [] || !IsSpace(r[0])
  {
    if |s| > 0 && IsSpace(s[0]) then TrimStart(s[1..]) else s
  }

  /** What `trimStart` keeps is a suffix of its input. */
  lemma {:induction false} TrimStartSuffix(s: string)
    ensures TrimStart(s) == s[|s| - |TrimStart(s)|..]
  {
    if |s| > 0 && IsSpace(s[0]) {
      TrimStartSuffix(s[1..]);
    }
  }

  /** What `trimStart` drops is whitespace. */
  lemma {:induction false} TrimStartSpaces(s: string)
    ensures forall i :: 0 <= i < |s| - |TrimStart(s)| ==> IsSpace(s[i])
  {
    if |s| > 0 && IsSpace(s[0]) {
      TrimStartSpaces(s[1..]);
      forall i | 1 <= i < |s| - |TrimStart(s)| ensures IsSpace(s[i]) {
        assert s[i] == s[1..][i - 1];
      }
    }
  }

  /** `s.trimEnd()`: drops exactly the trailing whitespace. */
  function TrimEnd(s: string): (r: string)
    ensures |r| <= |s| && r == s[..|r|]
    ensures r == [] || !IsSpace(r[|r| - 1])
  {
    if |s| > 0 && IsSpace(s[|s| - 1]) then TrimEnd(s[..|s| - 1]) else s
  }

  /** What `trimEnd` drops is whitespace. */
  lemma {:induction false} TrimEndSpaces(s: string)
    ensures forall i :: |TrimEnd(s)| <= i < |s| ==> IsSpace(s[i])
  {
    if |s| > 0 && IsSpace(s[|s| - 1]) {
      TrimEndSpaces(s[..|s| - 1]);
    }
  }

  /** `s.trim()`. */
  function Trim(s: string): (r: string)
    ensures Unpadded(r)
    ensures |r| <= |s|
  {
    TrimEnd(TrimStart(s))
  }

  /** `!s.trim()`: the string holds whitespace only. */
  predicate IsBlank(s: string)
  {
    Trim(s) == []
  }

  lemma BlankIffAllSpace(s: string)
    ensures IsBlank(s) <==> forall i :: 0 <= i < |s| ==> IsSpace(s[i])
  {
    var t := TrimStart(s);
    TrimStartSuffix(s);
    TrimStartSpaces(s);
    TrimEndSpaces(t);
    if t != [] {
      assert TrimEnd(t) != [] by { assert !IsSpace(t[0]); }
      assert !IsSpace(s[|s| - |t|]);
    } else {
      assert s[..|s| - |t|] == s;
    }
  }

  lemma TrimOfUnpadded(s: string)
    requires Unpadded(s)
    ensures Trim(s) == s
  {
  }

  lemma TrimLeadingSpace(x: string)
    ensures Trim(" " + x) == Trim(x)
  {
    assert (" " + x)[1..] == x;
  }

  lemma {:induction false} TrimStartAppend(x: string, y: string)
    requires TrimStart(x) != []
    ensures TrimStart(x + y) == TrimStart(x) + y
  {
    if IsSpace(x[0]) {
      assert (x + y)[1..] == x[1..] + y;
      TrimStartAppend(x[1..], y);
    }
  }

  lemma TrimTrailingSpace(x: string)
    ensures Trim(x + " ") == Trim(x)
  {
    if TrimStart(x) == [] {
      BlankIffAllSpace(x);
      BlankIffAllSpace(x + " ");
    } else {
      TrimStartAppend(x, " ");
      var t := TrimStart(x);
      assert (t + " ")[..|t|] == t;
    }
  }

  /** `trimStart` skips any all-whitespace prefix. */
  lemma {:induction false} TrimStartSkips(pre: string, y: string)
    requires SpaceRun(pre)
    ensures TrimStart(pre + y) == TrimStart(y)
  {
    if pre == [] {
      assert pre + y == y;
    } else {
      assert (pre + y)[0] == pre[0];
      assert (pre + y)[1..] == pre[1..] + y;
      TrimStartSkips(pre[1..], y);
    }
  }

  /** `trimEnd` skips any all-whitespace suffix. */
  lemma {:induction false} TrimEndSkips(y: string, suf: string)
    requires SpaceRun(suf)
    ensures TrimEnd(y + suf) == TrimEnd(y)
  {
    if suf == [] {
      assert y + suf == y;
    } else {
      var n := |suf| - 1;
      assert (y + suf)[|y + suf| - 1] == suf[n];
      assert (y + suf)[..|y + suf| - 1] == y + suf[..n];
      TrimEndSkips(y, suf[..n]);
    }
  }

  /** A string of whitespace only (possibly empty). */
  predicate SpaceRun(s: string)
  {
    forall i :: 0 <= i < |s| ==> IsSpace(s[i])
  }

  /** `trim` ignores whitespace added on either side. */
  lemma TrimPadding(pre: string, x: string, suf: string)
    requires SpaceRun(pre) && SpaceRun(suf)
    ensures Trim(pre + x + suf) == Trim(x)
  {
    assert pre + x + suf == pre + (x + suf);
    TrimStartSkips(pre, x + suf);
    if TrimStart(x) != [] {
      TrimStartAppend(x, suf);
      TrimEndSkips(TrimStart(x), suf);
    } else {
      TrimStartSpaces(x);
      assert SpaceRun(x + suf);
      assert x + suf == (x + suf) + [];
      TrimStartSkips(x + suf, []);
    }
  }

  /** `s.split(/\s+/)`: every maximal whitespace run separates two tokens. */
  function SplitWs(s: string): (r: seq<string>)
    ensures |r| >= 1
    decreases |s|
  {
    if s == [] then [""]
    else if IsSpace(s[0]) then [""] + SplitWs(TrimStart(s))
    else var t := SplitWs(s[1..]); [[s[0]] + t[0]] + t[1..]
  }

  /**
   * The shape of a `split(/\s+/)` result: no token holds whitespace, and
   * only the first and the last token can be empty.
   */
  predicate Tokenized(ts: seq<string>)
  {
    && (forall k :: 0 <= k < |ts| ==> SpaceFree(ts[k]))
    && (forall k :: 0 < k < |ts| - 1 ==> ts[k] != [])
  }

  lemma {:induction false} SplitWsTokenized(s: string)
    ensures Tokenized(SplitWs(s))
    ensures s != [] && !IsSpace(s[0]) ==> SplitWs(s)[0] != []
    decreases |s|
  {
    if s == [] {
    } else if IsSpace(s[0]) {
      var t := TrimStart(s);
      SplitWsTokenized(t);
    } else {
      SplitWsTokenized(s[1..]);
      var t := SplitWs(s[1..]);
      var r := SplitWs(s);
      assert r[0] == [s[0]] + t[0];
      forall k | 0 <= k < |r| ensures SpaceFree(r[k]) {
        if k > 0 { assert r[k] == t[k]; }
      }
    }
  }

  lemma TokenizedSlice(ts: seq<string>, i: nat, j: nat)
    requires Tokenized(ts) && i <= j <= |ts|
    ensures Tokenized(ts[i..j])
  {
    var g := ts[i..j];
    forall k | 0 < k < |g| - 1 ensures g[k] != [] {
      assert g[k] == ts[i + k];
    }
  }

  /** `ts.filter(t => t !== "")`. */
  function NonEmpty(ts: seq<string>): (r: seq<string>)
    ensures |r| <= |ts|
    ensures forall k :: 0 <= k < |r| ==> r[k] != []
  {
    if ts == [] then [] else (if ts[0] == [] then [] else [ts[0]]) + NonEmpty(ts[1..])
  }

  lemma {:induction false} NonEmptyAppend(a: seq<string>, b: seq<string>)
    ensures NonEmpty(a + b) == NonEmpty(a) + NonEmpty(b)
  {
    if a != [] {
      assert (a + b)[1..] == a[1..] + b;
      NonEmptyAppend(a[1..], b);
    } else {
      assert a + b == b;
    }
  }

  /** Filtering the tokens of a split leaves proper words. */
  lemma {:induction false} NonEmptyProper(ts: seq<string>)
    requires forall k :: 0 <= k < |ts| ==> SpaceFree(ts[k])
    ensures ProperWords(NonEmpty(ts))
  {
    if ts != [] {
      NonEmptyProper(ts[1..]);
    }
  }

  lemma {:induction false} NonEmptyOfNonEmpty(ts: seq<string>)
    requires forall k :: 0 <= k < |ts| ==> ts[k] != []
    ensures NonEmpty(ts) == ts
  {
    if ts != [] {
      NonEmptyOfNonEmpty(ts[1..]);
    }
  }

  /** The whitespace-separated words of `s`, empty tokens dropped. */
  function Words(s: string): seq<string>
  {
    NonEmpty(SplitWs(s))
  }

  /** A text has no words exactly when it is empty or all whitespace. */
  lemma {:induction false} WordsEmptyIffBlank(s: string)
    ensures Words(s) == [] <==> IsBlank(s)
    decreases |s|
  {
    BlankIffAllSpace(s);
    if s == [] {
    } else if IsSpace(s[0]) {
      var t := TrimStart(s);
      assert |t| < |s|;
      BlankIffAllSpace(t);
      WordsEmptyIffBlank(t);
      assert ([""] + SplitWs(t))[1..] == SplitWs(t);
      assert Words(s) == Words(t);
    } else {
      SplitWsTokenized(s);
      assert Words(s)[0] == SplitWs(s)[0];
    }
  }

  /** A list of words as the chunkers produce them: non-empty and without whitespace. */
  predicate ProperWords(ws: seq<string>)
  {
    forall k :: 0 <= k < |ws| ==> ws[k] != [] && SpaceFree(ws[k])
  }

  /** `ws.join(sep)`. */
  function Join(ws: seq<string>, sep: string): string
  {
    if |ws| == 0 then "" else if |ws| == 1 then ws[0] else ws[0] + sep + Join(ws[1..], sep)
  }

  lemma {:induction false} JoinAppend(a: seq<string>, b: seq<string>, sep: string)
    requires |a| > 0 && |b| > 0
    ensures Join(a + b, sep) == Join(a, sep) + sep + Join(b, sep)
  {
    if |a| == 1 {
      assert (a + b)[1..] == b;
    } else {
      assert (a + b)[1..] == a[1..] + b;
      JoinAppend(a[1..], b, sep);
    }
  }

  lemma {:induction false} JoinProperWords(ws: seq<string>)
    requires |ws| > 0 && ProperWords(ws)
    ensures var j := Join(ws, " "); |j| > 0 && j[0] == ws[0][0] && j[|j| - 1] == ws[|ws| - 1][|ws[|ws| - 1]| - 1]
    ensures Unpadded(Join(ws, " "))
  {
    if |ws| > 1 {
      JoinProperWords(ws[1..]);
    }
  }

  lemma {:induction false} SplitWordPrefix(w: string, s: string)
    requires SpaceFree(w)
    ensures SplitWs(w + s) == [w + SplitWs(s)[0]] + SplitWs(s)[1..]
  {
    if w == [] {
      var t := SplitWs(s);
      assert w + s == s;
      assert w + t[0] == t[0];
      assert [t[0]] + t[1..] == t;
    } else {
      assert (w + s)[1..] == w[1..] + s;
      SplitWordPrefix(w[1..], s);
      var t := SplitWs(s);
      assert SplitWs(w[1..] + s) == [w[1..] + t[0]] + t[1..];
      assert [w[0]] + (w[1..] + t[0]) == w + t[0];
    }
  }

  /** Splitting the single-space join of proper words gives the words back. */
  lemma {:induction false} SplitJoinRoundTrip(ws: seq<string>)
    requires |ws| > 0 && ProperWords(ws)
    ensures SplitWs(Join(ws, " ")) == ws
  {
    if |ws| == 1 {
      SplitWordPrefix(ws[0], "");
      assert ws[0] + "" == ws[0];
    } else {
      var rest := Join(ws[1..], " ");
      JoinProperWords(ws[1..]);
      SplitJoinRoundTrip(ws[1..]);
      assert ws[0] + " " + rest == ws[0] + (" " + rest);
      SplitWordPrefix(ws[0], " " + rest);
      assert (" " + rest)[1..] == rest;
      assert TrimStart(" " + rest) == rest;
      assert SplitWs(" " + rest) == [""] + ws[1..];
      assert ws[0] + "" == ws[0];
    }
  }

  lemma WordsOfJoin(ws: seq<string>)
    requires |ws| > 0 && ProperWords(ws)
    ensures Words(Join(ws, " ")) == ws
  {
    SplitJoinRoundTrip(ws);
    NonEmptyOfNonEmpty(ws);
  }

  /**
   * Trimming the single-space join of a slice of a `split(/\s+/)` result
   * gives the join of its non-empty tokens.
   */
  lemma {:induction false} TrimJoinTokens(g: seq<string>)
    requires Tokenized(g)
    ensures Trim(Join(g, " ")) == Join(NonEmpty(g), " ")
    decreases |g|
  {
    if g == [] {
    } else if |g| == 1 && g[0] == [] {
    } else if g[0] == [] {
      TrimJoinLeadingEmpty(g);
    } else if g[|g| - 1] == [] {
      TrimJoinTrailingEmpty(g);
    } else {
      TrimJoinProper(g);
    }
  }

  lemma {:induction false} TrimJoinLeadingEmpty(g: seq<string>)
    requires Tokenized(g) && |g| >= 2 && g[0] == []
    ensures Trim(Join(g, " ")) == Join(NonEmpty(g), " ")
    decreases |g|, 0
  {
    var rest := g[1..];
    TokenizedSlice(g, 1, |g|);
    TrimJoinTokens(rest);
    var j := Join(rest, " ");
    assert Join(g, " ") == " " + j by {
      assert Join(g, " ") == g[0] + " " + j;
    }
    assert NonEmpty(g) == NonEmpty(rest);
    TrimLeadingSpace(j);
  }

  lemma {:induction false} TrimJoinTrailingEmpty(g: seq<string>)
    requires Tokenized(g) && |g| >= 2 && g[|g| - 1] == []
    ensures Trim(Join(g, " ")) == Join(NonEmpty(g), " ")
    decreases |g|, 0
  {
    var init := g[..|g| - 1];
    TokenizedSlice(g, 0, |g| - 1);
    TrimJoinTokens(init);
    var j := Join(init, " ");
    assert g == init + [""];
    assert Join(g, " ") == j + " " by {
      JoinAppend(init, [""], " ");
    }
    assert NonEmpty(g) == NonEmpty(init) by {
      NonEmptyAppend(init, [""]);
      assert NonEmpty([""]) == [];
    }
    TrimTrailingSpace(j);
  }

  lemma TrimJoinProper(g: seq<string>)
    requires Tokenized(g) && |g| >= 1 && g[0] != [] && g[|g| - 1] != []
    ensures Trim(Join(g, " ")) == Join(NonEmpty(g), " ")
  {
    assert ProperWords(g);
    NonEmptyOfNonEmpty(g);
    JoinProperWords(g);
    TrimOfUnpadded(Join(g, " "));
  }

  /** `s.replace(/\s+/g, " ")`: every whitespace run becomes one space. */
  function CollapseWs(s: string): (r: string)
    ensures |r| <= |s|
    decreases |s|
  {
    if s == [] then []
    else if IsSpace(s[0]) then " " + CollapseWs(TrimStart(s))
    else [s[0]] + CollapseWs(s[1..])
  }

  /** The only whitespace is single spaces: no other whitespace character and no two in a row. */
  ghost predicate SingleSpaced(r: string)
  {
    && (forall i :: 0 <= i < |r| && IsSpace(r[i]) ==> r[i] == ' ')
    && (forall i, j :: 0 <= i && j == i + 1 && j < |r| ==> !IsSpace(r[i]) || !IsSpace(r[j]))
  }

  /** Every slice of a single-spaced string is single-spaced. */
  lemma SingleSpacedSlice(r: string, lo: nat, hi: nat)
    requires SingleSpaced(r) && lo <= hi <= |r|
    ensures SingleSpaced(r[lo..hi])
  {
    var t := r[lo..hi];
    forall i | 0 <= i < |t| && IsSpace(t[i]) ensures t[i] == ' ' {
      assert t[i] == r[lo + i];
    }
    forall i, j | 0 <= i && j == i + 1 && j < |t| ensures !IsSpace(t[i]) || !IsSpace(t[j]) {
      assert t[i] == r[lo + i] && t[j] == r[lo + j];
    }
  }

  /**
   * After collapsing, the only whitespace left is single spaces, and the
   * result is empty, or starts with whitespace, exactly when the input is.
   */
  lemma {:induction false} CollapseWsShape(s: string)
    ensures var r := CollapseWs(s);
      && SingleSpaced(r)
      && (r == [] <==> s == [])
      && (r != [] ==> (IsSpace(r[0]) <==> IsSpace(s[0])))
    decreases |s|
  {
    if s == [] {
    } else if IsSpace(s[0]) {
      CollapseWsShape(TrimStart(s));
    } else {
      CollapseWsShape(s[1..]);
    }
  }

  /** Collapsing whitespace runs does not change how the text splits into words. */
  lemma {:induction false} CollapseKeepsSplit(s: string)
    ensures SplitWs(CollapseWs(s)) == SplitWs(s)
    decreases |s|
  {
    if s == [] {
    } else if IsSpace(s[0]) {
      var t := TrimStart(s);
      CollapseKeepsSplit(t);
      var c := CollapseWs(t);
      assert (" " + c)[1..] == c;
      assert TrimStart(" " + c) == c;
    } else {
      CollapseKeepsSplit(s[1..]);
      assert ([s[0]] + CollapseWs(s[1..]))[1..] == CollapseWs(s[1..]);
    }
  }

  /** ASCII `toLowerCase` of one character. */
  function LowerChar(c: char): (d: char)
    ensures IsSpace(d) <==> IsSpace(c)
  {
    if 'A' <= c <= 'Z' then (c as int + 32) as char else c
  }

  /** `s.toLowerCase()` on the ASCII letters. */
  function ToLower(s: string): (r: string)
    ensures |r| == |s|
    ensures forall i :: 0 <= i < |s| ==> r[i] == LowerChar(s[i])
  {
    seq(|s|, i requires 0 <= i < |s| => LowerChar(s[i]))
  }

  lemma {:induction false} TrimStartLower(s: string)
    ensures TrimStart(ToLower(s)) == ToLower(TrimStart(s))
  {
    if |s| > 0 && IsSpace(s[0]) {
      assert ToLower(s)[1..] == ToLower(s[1..]);
      TrimStartLower(s[1..]);
    }
  }

  lemma {:induction false} TrimEndLower(s: string)
    ensures TrimEnd(ToLower(s)) == ToLower(TrimEnd(s))
  {
    if |s| > 0 && IsSpace(s[|s| - 1]) {
      assert ToLower(s)[..|s| - 1] == ToLower(s[..|s| - 1]);
      TrimEndLower(s[..|s| - 1]);
    }
  }

  /** Lower-casing and trimming commute, so `toLowerCase().trim()` equals `trim().toLowerCase()`. */
  lemma TrimLowerCommute(s: string)
    ensures Trim(ToLower(s)) == ToLower(Trim(s))
  {
    TrimStartLower(s);
    TrimEndLower(TrimStart(s));
  }

  /** `s.lastIndexOf(c)`, or -1. */
  function LastIndexOf(s: string, c: char): (r: int)
    ensures -1 <= r < |s|
    ensures r >= 0 ==> s[r] == c
    ensures forall i :: r < i < |s| ==> s[i] != c
  {
    if s == [] then -1 else if s[|s| - 1] == c then |s| - 1 else LastIndexOf(s[..|s| - 1], c)
  }
}

/**
 * The string operations the components rely on: JavaScript's whitespace class (the characters
 * `String.prototype.trim` strips and the regular expression `\s` matches), `trim`, splitting a
 * string into its whitespace-separated words, and upper-casing.
 */
module Text {

  /** WhiteSpace and LineTerminator code points of ECMAScript. */
  predicate IsWhitespace(c: char) {
    || c == '\t' || c == '\n' || c == '\U{000B}' || c == '\U{000C}' || c == '\r' || c == ' '
    || c == '\U{00A0}' || c == '\U{1680}' || ('\U{2000}' <= c <= '\U{200A}')
    || c == '\U{2028}' || c == '\U{2029}' || c == '\U{202F}' || c == '\U{205F}'
    || c == '\U{3000}' || c == '\U{FEFF}'
  }

  predicate AllWhitespace(s: string) {
    forall i :: 0 <= i < |s| ==> IsWhitespace(s[i])
  }

  predicate NoWhitespace(s: string) {
    forall i :: 0 <= i < |s| ==> !IsWhitespace(s[i])
  }

  /** The first index at or after `i` that holds a non-whitespace character, or `|s|`. */
  function SkipWhitespace(s: string, i: nat): (r: nat)
    requires i <= |s|
    ensures i <= r <= |s|
    ensures forall k :: i <= k < r ==> IsWhitespace(s[k])
    ensures r < |s| ==> !IsWhitespace(s[r])
    decreases |s| - i
  {
    if i < |s| && IsWhitespace(s[i]) then SkipWhitespace(s, i + 1) else i
  }

  /** The first index at or after `i` that holds a whitespace character, or `|s|`. */
  function SkipWord(s: string, i: nat): (r: nat)
    requires i <= |s|
    ensures i <= r <= |s|
    ensures forall k :: i <= k < r ==> !IsWhitespace(s[k])
    ensures r < |s| ==> IsWhitespace(s[r])
    decreases |s| - i
  {
    if i < |s| && !IsWhitespace(s[i]) then SkipWord(s, i + 1) else i
  }

  /** The end of `s[lo..j]` once its trailing whitespace is dropped. */
  function DropTrailing(s: string, lo: nat, j: nat): (r: nat)
    requires lo <= j <= |s|
    ensures lo <= r <= j
    ensures forall k :: r <= k < j ==> IsWhitespace(s[k])
    ensures r > lo ==> !IsWhitespace(s[r - 1])
    decreases j
  {
    if j > lo && IsWhitespace(s[j - 1]) then DropTrailing(s, lo, j - 1) else j
  }

  /** Where `s.trim()` starts and ends inside `s`. */
  function TrimStartIndex(s: string): nat
    ensures TrimStartIndex(s) <= |s|
  {
    SkipWhitespace(s, 0)
  }

  function TrimEndIndex(s: string): nat
    ensures TrimStartIndex(s) <= TrimEndIndex(s) <= |s|
  {
    DropTrailing(s, TrimStartIndex(s), |s|)
  }

  /**
   * JavaScript's `s.trim()`: the slice of `s` left once the whitespace at both ends is dropped,
   * empty exactly when `s` is all whitespace.
   */
  function Trim(s: string): (r: string)
    ensures r == s[TrimStartIndex(s)..TrimEndIndex(s)]
    ensures forall k :: 0 <= k < TrimStartIndex(s) ==> IsWhitespace(s[k])
    ensures forall k :: TrimEndIndex(s) <= k < |s| ==> IsWhitespace(s[k])
    ensures r == [] <==> AllWhitespace(s)
    ensures r != [] ==> !IsWhitespace(r[0]) && !IsWhitespace(r[|r| - 1])
  {
    s[SkipWhitespace(s, 0)..DropTrailing(s, SkipWhitespace(s, 0), |s|)]
  }

  /** Trimming twice is trimming once. */
  lemma TrimIdempotent(s: string)
    ensures Trim(Trim(s)) == Trim(s)
  {
    var t := Trim(s);
    assert SkipWhitespace(t, 0) == 0;
    assert DropTrailing(t, 0, |t|) == |t|;
  }

  /** The words of `s` from index `i` on. */
  function WordsFrom(s: string, i: nat): (ws: seq<string>)
    requires i <= |s|
    ensures forall k :: 0 <= k < |ws| ==> ws[k] != [] && NoWhitespace(ws[k])
    ensures ws == [] <==> forall k :: i <= k < |s| ==> IsWhitespace(s[k])
    ensures ws != [] ==> ws[0][0] == s[SkipWhitespace(s, i)]
    decreases |s| - i
  {
    var a := SkipWhitespace(s, i);
    if a == |s| then []
    else
      var b := SkipWord(s, a);
      var rest := WordsFrom(s, b);
      assert !IsWhitespace(s[a]);
      [s[a..b]] + rest
  }

  /**
   * The maximal whitespace-free runs of `s`, in order: JavaScript's
   * `s.trim().split(/\s+/).filter(Boolean)`.
   */
  function Words(s: string): (ws: seq<string>)
    ensures forall k :: 0 <= k < |ws| ==> ws[k] != [] && NoWhitespace(ws[k])
    ensures ws == [] <==> AllWhitespace(s)
    ensures ws != [] ==> ws[0][0] == Trim(s)[0]
  {
    WordsFrom(s, 0)
  }

  /**
   * Words and the whitespace gaps between them: every word non-empty and free of
   * whitespace, every gap non-empty and all whitespace, one gap fewer than words.
   */
  predicate WellSplit(ws: seq<string>, gs: seq<string>) {
    && (if ws == [] then gs == [] else |gs| + 1 == |ws|)
    && (forall k :: 0 <= k < |ws| ==> ws[k] != [] && NoWhitespace(ws[k]))
    && (forall k :: 0 <= k < |gs| ==> gs[k] != [] && AllWhitespace(gs[k]))
  }

  /** The words with the gaps put back between them. */
  function Interleave(ws: seq<string>, gs: seq<string>): string
    requires WellSplit(ws, gs)
    decreases |ws|
  {
    if ws == [] then []
    else if |ws| == 1 then ws[0]
    else
      assert WellSplit(ws[1..], gs[1..]) by {
        forall k | 0 <= k < |ws| - 1 ensures ws[1..][k] != [] && NoWhitespace(ws[1..][k]) {
          assert ws[1..][k] == ws[k + 1];
        }
        forall k | 0 <= k < |gs| - 1 ensures gs[1..][k] != [] && AllWhitespace(gs[1..][k]) {
          assert gs[1..][k] == gs[k + 1];
        }
      }
      ws[0] + gs[0] + Interleave(ws[1..], gs[1..])
  }

  /** An interleaving starts with its first word, followed by the first gap and the next word. */
  lemma {:induction false} InterleaveHead(ws: seq<string>, gs: seq<string>)
    requires WellSplit(ws, gs) && ws != []
    ensures var t := Interleave(ws, gs);
      |ws[0]| <= |t| && t[..|ws[0]|] == ws[0]
    ensures |ws| == 1 ==> Interleave(ws, gs) == ws[0]
    ensures var t := Interleave(ws, gs);
      |ws| > 1 ==>
        && |ws[0]| + |gs[0]| < |t|
        && t[|ws[0]|..|ws[0]| + |gs[0]|] == gs[0]
        && t[|ws[0]| + |gs[0]|..] == Interleave(ws[1..], gs[1..])
        && t[|ws[0]| + |gs[0]|] == ws[1][0]
  {
    if |ws| > 1 {
      InterleaveHead(ws[1..], gs[1..]);
      var t := Interleave(ws, gs);
      var r := Interleave(ws[1..], gs[1..]);
      assert t == ws[0] + gs[0] + r;
      assert t[..|ws[0]|] == ws[0];
      assert t[|ws[0]|..|ws[0]| + |gs[0]|] == gs[0];
      assert t[|ws[0]| + |gs[0]|..] == r;
      assert r[0] == r[..|ws[1..][0]|][0];
    }
  }

  /** `SkipWord` stops at the end of a whitespace-free run. */
  lemma {:induction false} SkipWordTo(t: string, i: nat, e: nat)
    requires i <= e <= |t|
    requires forall k :: i <= k < e ==> !IsWhitespace(t[k])
    requires e < |t| ==> IsWhitespace(t[e])
    ensures SkipWord(t, i) == e
    decreases e - i
  {
    if i < e {
      SkipWordTo(t, i + 1, e);
    }
  }

  /** `SkipWhitespace` stops at the end of a whitespace run. */
  lemma {:induction false} SkipWhitespaceTo(t: string, i: nat, e: nat)
    requires i <= e <= |t|
    requires forall k :: i <= k < e ==> IsWhitespace(t[k])
    requires e < |t| ==> !IsWhitespace(t[e])
    ensures SkipWhitespace(t, i) == e
    decreases e - i
  {
    if i < e {
      SkipWhitespaceTo(t, i + 1, e);
    }
  }

  /**
   * The first word of an interleaving is where `SkipWord` stops, and the first gap is
   * where `SkipWhitespace` then stops.
   */
  lemma InterleaveRuns(ws: seq<string>, gs: seq<string>)
    requires WellSplit(ws, gs) && ws != []
    ensures SkipWord(Interleave(ws, gs), 0) == |ws[0]|
    ensures |ws| > 1 ==> SkipWhitespace(Interleave(ws, gs), |ws[0]|) == |ws[0]| + |gs[0]|
    ensures |ws| == 1 <==> |Interleave(ws, gs)| == |ws[0]|
  {
    var t := Interleave(ws, gs);
    InterleaveHead(ws, gs);
    var n := |ws[0]|;
    forall k | 0 <= k < n ensures !IsWhitespace(t[k]) {
      assert t[k] == t[..n][k];
    }
    if |ws| > 1 {
      assert t[n] == t[n..n + |gs[0]|][0];
      SkipWordTo(t, 0, n);
      forall k | n <= k < n + |gs[0]| ensures IsWhitespace(t[k]) {
        assert t[k] == t[n..n + |gs[0]|][k - n];
      }
      SkipWhitespaceTo(t, n, n + |gs[0]|);
    } else {
      SkipWordTo(t, 0, n);
    }
  }

  /** The gaps between the words of `s` from index `i` on. */
  function GapsFrom(s: string, i: nat): (gs: seq<string>)
    requires i <= |s|
    decreases |s| - i
  {
    var a := SkipWhitespace(s, i);
    if a == |s| then []
    else
      var b := SkipWord(s, a);
      var c := SkipWhitespace(s, b);
      if c == |s| then [] else [s[b..c]] + GapsFrom(s, b)
  }

  /** `DropTrailing` finds the same end from any start before the last non-whitespace character. */
  lemma {:induction false} DropTrailingFrom(s: string, lo: nat, lo2: nat, j: nat, k: nat)
    requires lo <= lo2 <= k < j <= |s| && !IsWhitespace(s[k])
    ensures DropTrailing(s, lo, j) == DropTrailing(s, lo2, j)
    decreases j
  {
    if k < j - 1 && IsWhitespace(s[j - 1]) {
      DropTrailingFrom(s, lo, lo2, j - 1, k);
    }
  }

  /** A word put in front of a split, with a gap between. */
  lemma WellSplitCons(w: string, g: string, ws: seq<string>, gs: seq<string>)
    requires WellSplit(ws, gs) && ws != []
    requires w != [] && NoWhitespace(w) && g != [] && AllWhitespace(g)
    ensures WellSplit([w] + ws, [g] + gs)
    ensures Interleave([w] + ws, [g] + gs) == w + g + Interleave(ws, gs)
  {
    var ws1, gs1 := [w] + ws, [g] + gs;
    forall k | 0 <= k < |ws1| ensures ws1[k] != [] && NoWhitespace(ws1[k]) {
      if k > 0 { assert ws1[k] == ws[k - 1]; }
    }
    forall k | 0 <= k < |gs1| ensures gs1[k] != [] && AllWhitespace(gs1[k]) {
      if k > 0 { assert gs1[k] == gs[k - 1]; }
    }
    assert ws1[1..] == ws && gs1[1..] == gs;
  }

  /** The first word of `s` from a word start `a`: non-empty and whitespace-free. */
  lemma FirstWord(s: string, a: nat)
    requires a < |s| && !IsWhitespace(s[a])
    ensures var w := s[a..SkipWord(s, a)]; w != [] && NoWhitespace(w)
  {
    var b := SkipWord(s, a);
    var w := s[a..b];
    assert w[0] == s[a];
    forall k | 0 <= k < |w| ensures !IsWhitespace(w[k]) { assert w[k] == s[a + k]; }
  }

  /** The gap after a word ending at `b`, when more words follow: non-empty and all whitespace. */
  lemma GapAfter(s: string, b: nat)
    requires b < |s| && IsWhitespace(s[b])
    ensures var g := s[b..SkipWhitespace(s, b)]; g != [] && AllWhitespace(g)
  {
    var c := SkipWhitespace(s, b);
    var g := s[b..c];
    assert g[0] == s[b];
    forall k | 0 <= k < |g| ensures IsWhitespace(g[k]) { assert g[k] == s[b + k]; }
  }

  /** From the first word start a on, the words and gaps rebuild `s` up to its trailing whitespace. */
  lemma {:induction false} WordsFromSplit(s: string, i: nat)
    requires i <= |s|
    ensures WellSplit(WordsFrom(s, i), GapsFrom(s, i))
    ensures var a := SkipWhitespace(s, i);
      a < |s| ==> Interleave(WordsFrom(s, i), GapsFrom(s, i)) == s[a..DropTrailing(s, a, |s|)]
    decreases |s| - i
  {
    var a := SkipWhitespace(s, i);
    if a < |s| {
      var b := SkipWord(s, a);
      var c := SkipWhitespace(s, b);
      var w := s[a..b];
      FirstWord(s, a);
      if c == |s| {
        LastWordSplit(s, i);
      } else {
        WordsFromSplit(s, b);
        var g := s[b..c];
        GapAfter(s, b);
        var rest, gaps := WordsFrom(s, b), GapsFrom(s, b);
        assert WordsFrom(s, i) == [w] + rest;
        assert GapsFrom(s, i) == [g] + gaps;
        assert rest != [];
        WellSplitCons(w, g, rest, gaps);
        DropTrailingFrom(s, a, c, |s|, c);
        var e := DropTrailing(s, c, |s|);
        SliceConcat(s, a, b, c, e);
        var t := Interleave(rest, gaps);
        assert t == s[c..e];
        assert Interleave([w] + rest, [g] + gaps) == w + g + t;
      }
    }
  }

  /** Three adjacent slices make up the slice they cover. */
  lemma SliceConcat(s: string, a: nat, b: nat, c: nat, e: nat)
    requires a <= b <= c <= e <= |s|
    ensures s[a..e] == s[a..b] + s[b..c] + s[c..e]
  {
  }

  /** When no word follows the first one from `i`, the split is that word alone. */
  lemma LastWordSplit(s: string, i: nat)
    requires i <= |s| && SkipWhitespace(s, i) < |s|
    requires SkipWhitespace(s, SkipWord(s, SkipWhitespace(s, i))) == |s|
    ensures var a := SkipWhitespace(s, i);
      && WordsFrom(s, i) == [s[a..SkipWord(s, a)]] && GapsFrom(s, i) == []
      && DropTrailing(s, a, |s|) == SkipWord(s, a)
  {
    var a := SkipWhitespace(s, i);
    var b := SkipWord(s, a);
    assert WordsFrom(s, b) == [];
    DropTrailingAll(s, a, b, |s|);
  }

  /** With only whitespace in `s[b..j]` and a non-whitespace character before b, the end is b. */
  lemma {:induction false} DropTrailingAll(s: string, lo: nat, b: nat, j: nat)
    requires lo < b <= j <= |s| && !IsWhitespace(s[b - 1])
    requires forall k :: b <= k < j ==> IsWhitespace(s[k])
    ensures DropTrailing(s, lo, j) == b
    decreases j
  {
    if j > b {
      DropTrailingAll(s, lo, b, j - 1);
    }
  }

  /** The gaps between the words of `s`. */
  function Gaps(s: string): seq<string> {
    GapsFrom(s, 0)
  }

  /** `Words(s)` and `Gaps(s)` split the trimmed string: putting the gaps back gives `Trim(s)`. */
  lemma WordsSplitTrim(s: string)
    ensures WellSplit(Words(s), Gaps(s))
    ensures Interleave(Words(s), Gaps(s)) == Trim(s)
  {
    WordsFromSplit(s, 0);
  }

  /** Dropping the first word and the first gap of a split leaves a split. */
  lemma WellSplitTail(ws: seq<string>, gs: seq<string>)
    requires WellSplit(ws, gs) && |ws| > 1
    ensures WellSplit(ws[1..], gs[1..])
  {
    forall k | 0 <= k < |ws| - 1 ensures ws[1..][k] != [] && NoWhitespace(ws[1..][k]) {
      assert ws[1..][k] == ws[k + 1];
    }
    forall k | 0 <= k < |gs| - 1 ensures gs[1..][k] != [] && AllWhitespace(gs[1..][k]) {
      assert gs[1..][k] == gs[k + 1];
    }
  }

  /** Two splits of one string agree on the first word, on the first gap, and on what follows. */
  lemma HeadsAgree(ws: seq<string>, gs: seq<string>, ws2: seq<string>, gs2: seq<string>)
    requires WellSplit(ws, gs) && WellSplit(ws2, gs2) && ws != [] && ws2 != []
    requires Interleave(ws, gs) == Interleave(ws2, gs2)
    ensures ws[0] == ws2[0]
    ensures |ws| == 1 <==> |ws2| == 1
    ensures |ws| > 1 ==>
      && WellSplit(ws[1..], gs[1..]) && WellSplit(ws2[1..], gs2[1..])
      && gs[0] == gs2[0] && Interleave(ws[1..], gs[1..]) == Interleave(ws2[1..], gs2[1..])
  {
    var t := Interleave(ws, gs);
    InterleaveHead(ws, gs);
    InterleaveHead(ws2, gs2);
    InterleaveRuns(ws, gs);
    InterleaveRuns(ws2, gs2);
    var n := |ws[0]|;
    assert ws[0] == t[..n] == ws2[0];
    if |ws| > 1 {
      WellSplitTail(ws, gs);
      WellSplitTail(ws2, gs2);
      var m := |gs[0]|;
      assert gs[0] == t[n..n + m] == gs2[0];
    }
  }

  /** A string that splits into words and gaps splits in only one way. */
  lemma {:induction false} SplitUnique(ws: seq<string>, gs: seq<string>, ws2: seq<string>, gs2: seq<string>)
    requires WellSplit(ws, gs) && WellSplit(ws2, gs2)
    requires Interleave(ws, gs) == Interleave(ws2, gs2)
    ensures ws == ws2 && gs == gs2
    decreases |ws|
  {
    if ws == [] || ws2 == [] {
      if ws != [] { InterleaveHead(ws, gs); }
      if ws2 != [] { InterleaveHead(ws2, gs2); }
      return;
    }
    HeadsAgree(ws, gs, ws2, gs2);
    if |ws| == 1 {
      assert ws == [ws[0]] && ws2 == [ws2[0]];
      return;
    }
    SplitUnique(ws[1..], gs[1..], ws2[1..], gs2[1..]);
    assert ws == [ws[0]] + ws[1..] && ws2 == [ws2[0]] + ws2[1..];
    assert gs == [gs[0]] + gs[1..] && gs2 == [gs2[0]] + gs2[1..];
  }

  /**
   * The words of `s` are exactly the maximal whitespace-free runs of `Trim(s)`, in order: any
   * split of the trimmed string into words separated by whitespace gaps is `Words(s)`.
   */
  lemma WordsUnique(s: string, ws: seq<string>, gs: seq<string>)
    requires WellSplit(ws, gs) && Interleave(ws, gs) == Trim(s)
    ensures ws == Words(s) && gs == Gaps(s)
  {
    WordsSplitTrim(s);
    SplitUnique(ws, gs, Words(s), Gaps(s));
  }

  /** Two words separated by one space split into those two words. */
  lemma WordsExample()
    ensures Words("ab cd") == ["ab", "cd"]
  {
    var t := "ab cd";
    assert !IsWhitespace(t[0]) && !IsWhitespace(t[4]);
    assert SkipWhitespace(t, 0) == 0;
    assert DropTrailing(t, 0, 5) == 5;
    assert Trim(t) == t;
    var ws, gs := ["ab", "cd"], [" "];
    assert WellSplit(ws, gs) by {
      assert NoWhitespace(ws[0]) by { assert !IsWhitespace(ws[0][0]) && !IsWhitespace(ws[0][1]); }
      assert NoWhitespace(ws[1]) by { assert !IsWhitespace(ws[1][0]) && !IsWhitespace(ws[1][1]); }
    }
    assert Interleave(ws, gs) == ws[0] + gs[0] + Interleave(ws[1..], gs[1..]);
    assert ws[1..] == ["cd"] && gs[1..] == [];
    assert Interleave(ws, gs) == t;
    WordsUnique(t, ws, gs);
  }

  /** Upper case of an ASCII letter; every other character is left as it is. */
  function UpperChar(c: char): (u: char)
    ensures IsWhitespace(u) <==> IsWhitespace(c)
    ensures 'a' <= c <= 'z' ==> 'A' <= u <= 'Z' && u as int - 'A' as int == c as int - 'a' as int
    ensures !('a' <= c <= 'z') ==> u == c
  {
    if 'a' <= c <= 'z' then (c as int - 32) as char else c
  }

  /** `s.toUpperCase()`, restricted to ASCII letters. */
  function ToUpper(s: string): (r: string)
    ensures |r| == |s|
    ensures forall i :: 0 <= i < |s| ==> r[i] == UpperChar(s[i])
  {
    seq(|s|, i requires 0 <= i < |s| => UpperChar(s[i]))
  }
}

/**
 * The few Python string operations the scrapers rely on: `str.split()`
 * (split on runs of whitespace), `' '.join`, `str(n)` for a non-negative
 * integer, `str.lower()` on ASCII letters and `str.split(sep)` with a
 * one-character separator.
 */
module Strings {

  /**
   * The characters Python's `str.isspace()` accepts, which `str.split()`
   * splits on: tab to carriage return, the four information separators,
   * space, NEL, no-break space and the Unicode space separators.
   */
  predicate IsSpace(c: char)
  {
    c == ' ' || ('\t' <= c <= '\r') || ('\U{1C}' <= c <= '\U{1F}') || c == '\U{85}' || c == '\U{A0}'
    || c == '\U{1680}' || ('\U{2000}' <= c <= '\U{200A}') || c == '\U{2028}' || c == '\U{2029}'
    || c == '\U{202F}' || c == '\U{205F}' || c == '\U{3000}'
  }

  /** A word as `str.split()` produces it: non-empty, without whitespace. */
  predicate IsWord(w: string)
  {
    w != [] && forall i :: 0 <= i < |w| ==> !IsSpace(w[i])
  }

  predicate AllWords(ws: seq<string>)
  {
    forall i :: 0 <= i < |ws| ==> IsWord(ws[i])
  }

  /** Nothing but whitespace (or nothing at all). */
  predicate AllSpace(s: string)
  {
    forall i :: 0 <= i < |s| ==> IsSpace(s[i])
  }

  /** Length of the run of non-whitespace characters that starts `s`. */
  function WordLength(s: string): (n: nat)
    ensures n <= |s|
    ensures forall i :: 0 <= i < n ==> !IsSpace(s[i])
    ensures n < |s| ==> IsSpace(s[n])
  {
    if s == [] || IsSpace(s[0]) then 0 else 1 + WordLength(s[1..])
  }

  /** Python's `s.split()`: the maximal runs of non-whitespace characters, in order. */
  function Words(s: string): (ws: seq<string>)
    ensures |ws| <= |s|
    ensures ws == [] <==> AllSpace(s)
    decreases |s|
  {
    if s == [] then []
    else if IsSpace(s[0]) then Words(s[1..])
    else
      var n := WordLength(s);
      [s[..n]] + Words(s[n..])
  }

  /** Python's `' '.join(ws)`. */
  function JoinWords(ws: seq<string>): (s: string)
    ensures ws == [] ==> s == ""
  {
    if ws == [] then ""
    else if |ws| == 1 then ws[0]
    else ws[0] + " " + JoinWords(ws[1..])
  }

  /** Every element `str.split()` returns is a word. */
  lemma {:induction false} WordsAreWords(s: string)
    ensures AllWords(Words(s))
    decreases |s|
  {
    if s == [] {
    } else if IsSpace(s[0]) {
      WordsAreWords(s[1..]);
    } else {
      var n := WordLength(s);
      WordsAreWords(s[n..]);
    }
  }

  /** The leading run of a word followed by whitespace (or nothing) is that word. */
  lemma {:induction false} WordLengthOfWord(w: string, rest: string)
    requires forall i :: 0 <= i < |w| ==> !IsSpace(w[i])
    requires rest == [] || IsSpace(rest[0])
    ensures WordLength(w + rest) == |w|
  {
    if w == [] {
      assert w + rest == rest;
    } else {
      assert (w + rest)[1..] == w[1..] + rest;
      WordLengthOfWord(w[1..], rest);
    }
  }

  /** A word followed by whitespace (or nothing) splits off as the first word. */
  lemma WordsCons(w: string, rest: string)
    requires IsWord(w)
    requires rest == [] || IsSpace(rest[0])
    ensures Words(w + rest) == [w] + Words(rest)
  {
    var s := w + rest;
    var n := WordLength(s);
    WordLengthOfWord(w, rest);
    assert s[..n] == w;
    assert s[n..] == rest;
  }

  /** Leading whitespace does not change the words. */
  lemma WordsSkipSpace(x: string)
    ensures Words(" " + x) == Words(x)
  {
    assert (" " + x)[1..] == x;
  }

  /** A word, a space and any text: the word comes first, then the words of the text. */
  lemma WordThenSpace(w: string, x: string)
    requires IsWord(w)
    ensures Words(w + " " + x) == [w] + Words(x)
  {
    assert w + " " + x == w + (" " + x);
    WordsCons(w, " " + x);
    WordsSkipSpace(x);
  }

  /** A word with a whitespace-free tail glued on is still a word. */
  lemma WordWithTail(w: string, tail: string)
    requires IsWord(w)
    requires forall i :: 0 <= i < |tail| ==> !IsSpace(tail[i])
    ensures IsWord(w + tail)
  {
    forall i | 0 <= i < |w + tail| ensures !IsSpace((w + tail)[i]) {
      if i < |w| { assert (w + tail)[i] == w[i]; }
      else { assert (w + tail)[i] == tail[i - |w|]; }
    }
  }

  /**
   * Splitting a space-joined list of words with a whitespace-free tail glued
   * to its end gives the words back, the tail attached to the last one.
   */
  lemma {:induction false} WordsOfJoinWithTail(ws: seq<string>, tail: string)
    requires |ws| >= 1 && AllWords(ws)
    requires forall i :: 0 <= i < |tail| ==> !IsSpace(tail[i])
    ensures Words(JoinWords(ws) + tail) == ws[..|ws| - 1] + [ws[|ws| - 1] + tail]
  {
    var last := ws[|ws| - 1];
    if |ws| == 1 {
      WordWithTail(last, tail);
      WordsCons(last + tail, "");
      assert last + tail + "" == last + tail;
    } else {
      var rest := ws[1..];
      assert AllWords(rest) by {
        forall i | 0 <= i < |rest| ensures IsWord(rest[i]) { assert rest[i] == ws[i + 1]; }
      }
      WordsOfJoinWithTail(rest, tail);
      JoinThenWords(ws, tail);
      assert rest[|rest| - 1] == last;
      assert [ws[0]] + rest[..|rest| - 1] == ws[..|ws| - 1];
    }
  }

  /** The first word of a join of two or more splits off ahead of the rest. */
  lemma JoinThenWords(ws: seq<string>, tail: string)
    requires |ws| >= 2 && IsWord(ws[0])
    ensures Words(JoinWords(ws) + tail) == [ws[0]] + Words(JoinWords(ws[1..]) + tail)
  {
    assert JoinWords(ws) + tail == ws[0] + " " + (JoinWords(ws[1..]) + tail);
    WordThenSpace(ws[0], JoinWords(ws[1..]) + tail);
  }

  /** `s.split()` undoes `' '.join(ws)` when every element of `ws` is a word. */
  lemma WordsOfJoin(ws: seq<string>)
    requires AllWords(ws)
    ensures Words(JoinWords(ws)) == ws
  {
    if ws != [] {
      WordsOfJoinWithTail(ws, "");
      assert JoinWords(ws) + "" == JoinWords(ws);
      assert ws[|ws| - 1] + "" == ws[|ws| - 1];
      assert ws[..|ws| - 1] + [ws[|ws| - 1]] == ws;
    }
  }

  /** Python's list slice `s[:k]`, where a negative `k` counts from the end. */
  function SlicePrefix<T>(s: seq<T>, k: int): (r: seq<T>)
    ensures r <= s
    ensures 0 <= k <= |s| ==> |r| == k
    ensures k > |s| ==> r == s
    ensures k < 0 ==> |r| == (if |s| + k > 0 then |s| + k else 0)
  {
    if k >= |s| then s
    else if k >= 0 then s[..k]
    else if |s| + k > 0 then s[..|s| + k]
    else []
  }

  // ---------------------------------------------------------------------
  // Decimal rendering of non-negative integers, Python's `str(n)` / f"{n}"

  predicate IsDigit(c: char)
  {
    '0' <= c <= '9'
  }

  function DigitChar(d: nat): (c: char)
    requires d < 10
    ensures IsDigit(c)
  {
    ('0' as int + d) as char
  }

  function NatToString(n: nat): (s: string)
    ensures |s| >= 1
    ensures forall i :: 0 <= i < |s| ==> IsDigit(s[i])
    decreases n
  {
    if n < 10 then [DigitChar(n)] else NatToString(n / 10) + [DigitChar(n % 10)]
  }

  /** The number a string of decimal digits denotes. */
  function DigitsValue(s: string): (n: nat)
    requires forall i :: 0 <= i < |s| ==> IsDigit(s[i])
  {
    if s == [] then 0
    else
      assert IsDigit(s[|s| - 1]);
      10 * DigitsValue(s[..|s| - 1]) + (s[|s| - 1] as int - '0' as int)
  }

  /** Reading back the decimal rendering of `n` gives `n`. */
  lemma {:induction false} NatToStringRoundTrip(n: nat)
    ensures DigitsValue(NatToString(n)) == n
    decreases n
  {
    var s := NatToString(n);
    if n >= 10 {
      NatToStringRoundTrip(n / 10);
      assert s[..|s| - 1] == NatToString(n / 10);
    }
  }

  /** Distinct numbers render as distinct strings. */
  lemma NatToStringInjective(m: nat, n: nat)
    requires NatToString(m) == NatToString(n)
    ensures m == n
  {
    NatToStringRoundTrip(m);
    NatToStringRoundTrip(n);
  }

  /** A decimal rendering is a word: it has no whitespace. */
  lemma NatToStringIsWord(n: nat)
    ensures IsWord(NatToString(n))
  {
    var s := NatToString(n);
    forall i | 0 <= i < |s| ensures !IsSpace(s[i]) { assert IsDigit(s[i]); }
  }

  // ---------------------------------------------------------------------
  // `str.lower()` and `str.split(sep)`

  /** `str.lower()` on the ASCII letters; other characters are left alone. */
  function ToLower(s: string): (r: string)
    ensures |r| == |s|
    ensures forall i :: 0 <= i < |s| ==> r[i] == (if 'A' <= s[i] <= 'Z' then (s[i] as int + 32) as char else s[i])
  {
    if s == [] then []
    else [if 'A' <= s[0] <= 'Z' then (s[0] as int + 32) as char else s[0]] + ToLower(s[1..])
  }

  /** Python's `s.split(c)`: the pieces between occurrences of `c`, always at least one. */
  function SplitOn(s: string, c: char): (parts: seq<string>)
    ensures |parts| >= 1
    ensures forall i :: 0 <= i < |parts| ==> c !in parts[i]
    ensures c !in s ==> parts == [s]
    ensures c in s ==> |parts| >= 2
  {
    if s == [] then [""]
    else if s[0] == c then [""] + SplitOn(s[1..], c)
    else
      var rest := SplitOn(s[1..], c);
      assert [s[0]] + s[1..] == s;
      [[s[0]] + rest[0]] + rest[1..]
  }

  /** Python's `c.join(parts)`. */
  function JoinOn(parts: seq<string>, c: char): (s: string)
    requires |parts| >= 1
  {
    if |parts| == 1 then parts[0] else parts[0] + [c] + JoinOn(parts[1..], c)
  }

  /** Splitting on `c` and joining with `c` gives the string back. */
  lemma {:induction false} JoinSplitRoundTrip(s: string, c: char)
    ensures JoinOn(SplitOn(s, c), c) == s
  {
    if s == [] {
    } else if s[0] == c {
      JoinSplitRoundTrip(s[1..], c);
      assert SplitOn(s, c)[1..] == SplitOn(s[1..], c);
    } else {
      var rest := SplitOn(s[1..], c);
      JoinSplitRoundTrip(s[1..], c);
      if |rest| == 1 {
      } else {
        assert SplitOn(s, c)[1..] == rest[1..];
        assert JoinOn(rest, c) == rest[0] + [c] + JoinOn(rest[1..], c);
      }
    }
  }

  /** The first piece of `s.split(c)` is the prefix of `s` up to the first `c` (or all of `s`). */
  lemma {:induction false} SplitOnFirst(s: string, c: char)
    ensures var first := SplitOn(s, c)[0];
            first <= s && (|first| == |s| || s[|first|] == c)
  {
    if s != [] && s[0] != c {
      SplitOnFirst(s[1..], c);
    }
  }

  /** The last piece of `s.split(c)` is the suffix of `s` after the last `c` (or all of `s`). */
  lemma {:induction false} SplitOnLast(s: string, c: char)
    ensures var parts := SplitOn(s, c);
            var last := parts[|parts| - 1];
            |last| <= |s| && s[|s| - |last|..] == last && (|last| == |s| || s[|s| - |last| - 1] == c)
  {
    if s != [] {
      SplitOnLast(s[1..], c);
      var rest := SplitOn(s[1..], c);
      if s[0] != c && |rest| == 1 {
        assert SplitOn(s, c) == [[s[0]] + rest[0]];
        assert [s[0]] + s[1..] == s;
      }
    }
  }

  /** When `c` does not occur before it, the first piece of `a + [c] + b` is `a`. */
  lemma {:induction false} SplitOnPrefix(a: string, c: char, b: string)
    requires c !in a
    ensures SplitOn(a + [c] + b, c)[0] == a
  {
    if a != [] {
      assert (a + [c] + b)[1..] == a[1..] + [c] + b;
      SplitOnPrefix(a[1..], c, b);
    } else {
      assert a + [c] + b == [c] + b;
    }
  }

  /** When `c` does not occur in `b`, the last piece of `a + [c] + b` is `b`. */
  lemma {:induction false} SplitOnSuffix(a: string, c: char, b: string)
    requires c !in b
    ensures var parts := SplitOn(a + [c] + b, c); parts[|parts| - 1] == b
  {
    if a == [] {
      assert a + [c] + b == [c] + b;
      assert ([c] + b)[1..] == b;
    } else {
      var s := a + [c] + b;
      assert s[1..] == a[1..] + [c] + b;
      SplitOnSuffix(a[1..], c, b);
      assert c in s[1..] by { assert s[1..][|a| - 1] == c; }
    }
  }
}

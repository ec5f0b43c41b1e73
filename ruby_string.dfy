/**
 * The few operations of Ruby's core String, Array and Integer classes that
 * the modelled code relies on, stated on `seq<char>`.
 */
module RubyString {
  import opened Common

  /** `s[0]` on a String: the first character as a string, `nil` for "". */
  function First(s: string): (r: Option<string>)
    ensures r.None? <==> s == ""
    ensures r.Some? ==> |r.value| == 1 && r.value == s[..1]
  {
    if s == "" then None else Some([s[0]])
  }

  predicate IsLineEnd(c: char) {
    c == '\n' || c == '\r'
  }

  /** `String#chomp` without argument: drops one trailing "\r\n", "\n" or "\r". */
  function Chomp(s: string): (r: string)
    ensures r <= s
    ensures |s| - |r| <= 2
    ensures s == "" || !IsLineEnd(s[|s| - 1]) ==> r == s
    ensures forall k :: |r| <= k < |s| ==> IsLineEnd(s[k])
    ensures |s| - |r| == 2 ==> s[|r|..] == "\r\n"
  {
    if |s| >= 2 && s[|s| - 2..] == "\r\n" then s[..|s| - 2]
    else if |s| >= 1 && IsLineEnd(s[|s| - 1]) then s[..|s| - 1]
    else s
  }

  lemma ChompDropsOneTerminator(s: string, t: string)
    requires t == "\n" || t == "\r\n" || t == "\r"
    requires s == "" || s[|s| - 1] != '\r'
    ensures Chomp(s + t) == s
  {
    if t == "\n" {
      assert (s + t)[..|s|] == s;
    } else if t == "\r\n" {
      assert (s + t)[|s + t| - 2..] == "\r\n";
      assert (s + t)[..|s|] == s;
    } else {
      assert (s + t)[..|s|] == s;
    }
  }

  /** The characters Ruby's `String#split` without argument treats as whitespace. */
  predicate IsSpace(c: char) {
    c == ' ' || c == '\t' || c == '\n' || c == '\r' || c as int == 11 || c as int == 12
  }

  predicate NoSpace(s: string) {
    forall k :: 0 <= k < |s| ==> !IsSpace(s[k])
  }

  /** Length of the run of non-space characters that starts `s`. */
  function WordLength(s: string): (n: nat)
    ensures n <= |s|
    ensures NoSpace(s[..n])
    ensures n < |s| ==> IsSpace(s[n])
  {
    if s == [] || IsSpace(s[0]) then 0
    else
      var n := 1 + WordLength(s[1..]);
      assert s[..n] == [s[0]] + s[1..][..n - 1];
      n
  }

  /**
   * `String#split` without argument: the maximal runs of non-space
   * characters, leading, trailing and repeated whitespace ignored.
   */
  function Split(s: string): (words: seq<string>)
    ensures forall w <- words :: w != "" && NoSpace(w)
    decreases |s|
  {
    if s == [] then []
    else if IsSpace(s[0]) then Split(s[1..])
    else
      var n := WordLength(s);
      [s[..n]] + Split(s[n..])
  }

  /** `split` gives no words exactly for a string of whitespace only. */
  lemma {:induction false} SplitEmptyIffBlank(s: string)
    ensures Split(s) == [] <==> forall i :: 0 <= i < |s| ==> IsSpace(s[i])
    decreases |s|
  {
    if s != [] && IsSpace(s[0]) {
      SplitEmptyIffBlank(s[1..]);
      assert forall i :: 0 < i < |s| ==> s[i] == s[1..][i - 1];
    }
  }

  /** The words of `split` hold exactly the non-whitespace characters of the string, in order. */
  lemma {:induction false} SplitKeepsNonSpaces(s: string)
    ensures Concat(Split(s)) == NonSpaces(s)
    decreases |s|
  {
    if s != [] {
      if IsSpace(s[0]) {
        SplitKeepsNonSpaces(s[1..]);
      } else {
        var n := WordLength(s);
        SplitKeepsNonSpaces(s[n..]);
        var w := s[..n];
        assert s == w + s[n..];
        NonSpacesAppend(w, s[n..]);
        NonSpacesOfWord(w);
        ConcatSplit([w], Split(s[n..]));
        assert [w][..0] == [];
      }
    }
  }

  /** The characters of `s` that are not whitespace, in order. */
  function NonSpaces(s: string): string {
    if s == [] then [] else (if IsSpace(s[0]) then [] else [s[0]]) + NonSpaces(s[1..])
  }

  lemma {:induction false} NonSpacesAppend(a: string, b: string)
    ensures NonSpaces(a + b) == NonSpaces(a) + NonSpaces(b)
    decreases |a|
  {
    if a == [] {
      assert a + b == b;
    } else {
      assert (a + b)[1..] == a[1..] + b;
      NonSpacesAppend(a[1..], b);
    }
  }

  lemma {:induction false} NonSpacesOfWord(w: string)
    requires NoSpace(w)
    ensures NonSpaces(w) == w
    decreases |w|
  {
    if w != [] {
      NonSpacesOfWord(w[1..]);
    }
  }

  /** `Array#join(sep)` on strings. */
  function Join(xs: seq<string>, sep: string): string {
    if xs == [] then ""
    else if |xs| == 1 then xs[0]
    else Join(xs[..|xs| - 1], sep) + sep + xs[|xs| - 1]
  }

  /** `Array#join` without separator on strings. */
  function Concat(xs: seq<string>): string {
    if xs == [] then "" else Concat(xs[..|xs| - 1]) + xs[|xs| - 1]
  }

  lemma ConcatAppend(xs: seq<string>, x: string)
    ensures Concat(xs + [x]) == Concat(xs) + x
  {
    assert (xs + [x])[..|xs|] == xs;
  }

  /** `Array#join` of two arrays put together is the join of the first followed by the join of the second. */
  lemma {:induction false} ConcatSplit(xs: seq<string>, ys: seq<string>)
    ensures Concat(xs + ys) == Concat(xs) + Concat(ys)
    decreases |ys|
  {
    if ys == [] {
      assert xs + ys == xs;
    } else {
      var init := ys[..|ys| - 1];
      assert xs + ys == (xs + init) + [ys[|ys| - 1]];
      ConcatAppend(xs + init, ys[|ys| - 1]);
      ConcatSplit(xs, init);
    }
  }

  /** `Join` read from the front: the first element, then the separator and the rest. */
  lemma {:induction false} JoinCons(xs: seq<string>, sep: string)
    requires |xs| >= 2
    ensures Join(xs, sep) == xs[0] + sep + Join(xs[1..], sep)
    decreases |xs|
  {
    if |xs| == 2 {
      assert xs[..1] == [xs[0]];
      assert xs[1..] == [xs[1]];
    } else {
      JoinCons(xs[..|xs| - 1], sep);
      assert xs[..|xs| - 1][1..] == xs[1..][..|xs[1..]| - 1];
      assert xs[..|xs| - 1][0] == xs[0];
    }
  }

  lemma SplitWord(w: string, rest: string)
    requires w != "" && NoSpace(w)
    requires rest == "" || IsSpace(rest[0])
    ensures Split(w + rest) == [w] + Split(rest)
  {
    WordLengthOfWord(w, rest);
    assert (w + rest)[..|w|] == w;
    assert (w + rest)[|w|..] == rest;
  }

  lemma {:induction false} WordLengthOfWord(w: string, rest: string)
    requires NoSpace(w)
    requires rest == "" || IsSpace(rest[0])
    ensures WordLength(w + rest) == |w|
    decreases |w|
  {
    if w != "" {
      assert (w + rest)[1..] == w[1..] + rest;
      WordLengthOfWord(w[1..], rest);
    } else {
      assert w + rest == rest;
    }
  }

  /** Splitting words joined by single spaces gives the words back. */
  lemma {:induction false} SplitJoinRoundTrip(ws: seq<string>)
    requires forall w <- ws :: w != "" && NoSpace(w)
    ensures Split(Join(ws, " ")) == ws
    decreases |ws|
  {
    if ws == [] {
    } else if |ws| == 1 {
      assert ws[0] in ws;
      SplitWord(ws[0], "");
      assert ws[0] + "" == ws[0];
    } else {
      assert ws[0] in ws;
      assert forall w <- ws[1..] :: w in ws;
      JoinCons(ws, " ");
      var rest := Join(ws[1..], " ");
      assert ws[0] + " " + rest == ws[0] + (" " + rest);
      SplitWord(ws[0], " " + rest);
      assert (" " + rest)[1..] == rest;
      SplitJoinRoundTrip(ws[1..]);
    }
  }

  /** `' ' * n`. */
  function Spaces(n: nat): (s: string)
    ensures |s| == n && forall k :: 0 <= k < n ==> s[k] == ' '
  {
    seq(n, _ => ' ')
  }

  predicate IsDigit(c: char) {
    '0' <= c <= '9'
  }

  predicate AllDigits(s: string) {
    forall k :: 0 <= k < |s| ==> IsDigit(s[k])
  }

  function DigitChar(d: nat): (c: char)
    requires d < 10
    ensures IsDigit(c) && c as int - '0' as int == d
  {
    (('0' as int) + d) as char
  }

  /** `Integer#to_s` of a non-negative integer: its decimal digits. */
  function NatToS(n: nat): (s: string)
    ensures s != "" && AllDigits(s)
    ensures s[0] == '0' <==> n == 0
    ensures |s| > 1 ==> s[0] != '0'
  {
    if n < 10 then [DigitChar(n)] else NatToS(n / 10) + [DigitChar(n % 10)]
  }

  /** `Integer#to_s`: a minus sign before the digits of a negative number. */
  function IntToS(i: int): (s: string)
    ensures s != "" && (i < 0 <==> s[0] == '-')
    ensures forall k :: 0 <= k < |s| ==> IsDigit(s[k]) || (k == 0 && s[k] == '-')
    ensures s[0] == '0' ==> s == "0"
    ensures s[0] == '-' ==> |s| > 1 && s[1] != '0'
  {
    if i < 0 then "-" + NatToS(-i) else NatToS(i)
  }

  /** The value of a string of decimal digits. */
  function DigitsValue(s: string): nat
    requires AllDigits(s)
  {
    if s == "" then 0
    else DigitsValue(s[..|s| - 1]) * 10 + (s[|s| - 1] as int - '0' as int)
  }

  /** Reads back what `IntToS` writes: an optional minus sign and at least one digit. */
  function ParseInt(s: string): Option<int> {
    if s != "" && s[0] == '-' then
      if |s| > 1 && AllDigits(s[1..]) then Some(0 - DigitsValue(s[1..]) as int) else None
    else if s != "" && AllDigits(s) then Some(DigitsValue(s))
    else None
  }

  lemma {:induction false} NatToSRoundTrip(n: nat)
    ensures DigitsValue(NatToS(n)) == n
    decreases n
  {
    if n >= 10 {
      NatToSRoundTrip(n / 10);
      var s := NatToS(n);
      assert s[..|s| - 1] == NatToS(n / 10);
    }
  }

  /** The decimal rendering of an integer determines it. */
  lemma IntToSRoundTrip(i: int)
    ensures ParseInt(IntToS(i)) == Some(i)
  {
    if i < 0 {
      NatToSRoundTrip(-i);
      assert IntToS(i)[1..] == NatToS(-i);
    } else {
      NatToSRoundTrip(i);
    }
  }
}

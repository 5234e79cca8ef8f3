/** The string operations of Python that the staging layer relies on:
    `sep.join`, `str.split`, `str.startswith`, `str.rpartition`,
    `str.rstrip`, `str(int)` and `str.lower`, each written out over
    `seq<char>`. */
module Text {

  /** Python's `sep.join(pieces)`. */
  function Join(pieces: seq<string>, sep: string): string
    decreases |pieces|
  {
    if |pieces| == 0 then ""
    else if |pieces| == 1 then pieces[0]
    else pieces[0] + sep + Join(pieces[1..], sep)
  }

  /** Joining one more piece puts one separator in front of it. */
  lemma {:induction false} JoinSnoc(pieces: seq<string>, x: string, sep: string)
    ensures Join(pieces + [x], sep) == if pieces == [] then x else Join(pieces, sep) + sep + x
    decreases |pieces|
  {
    if |pieces| == 0 {
      assert pieces + [x] == [x];
    } else if |pieces| == 1 {
      assert (pieces + [x])[1..] == [x];
    } else {
      assert (pieces + [x])[1..] == pieces[1..] + [x];
      JoinSnoc(pieces[1..], x, sep);
    }
  }

  /** Concatenation (joining with the empty separator) one piece longer. */
  lemma ConcatSnoc(pieces: seq<string>, x: string)
    ensures Join(pieces + [x], "") == Join(pieces, "") + x
  {
    if pieces == [] {
      assert pieces + [x] == [x];
    } else {
      JoinSnoc(pieces, x, "");
      assert Join(pieces, "") + "" == Join(pieces, "");
    }
  }

  /** Python's `s.split(c)` for a one-character separator: the pieces
      between the separators, never an empty list. */
  function Split(s: string, c: char): (r: seq<string>)
    ensures |r| >= 1
    ensures forall i :: 0 <= i < |r| ==> c !in r[i]
    decreases |s|
  {
    if |s| == 0 then [""]
    else if s[0] == c then [""] + Split(s[1..], c)
    else
      var rest := Split(s[1..], c);
      [[s[0]] + rest[0]] + rest[1..]
  }

  /** A separator-free prefix is glued to the first piece of what follows. */
  lemma {:induction false} SplitPrefix(a: string, t: string, c: char)
    requires c !in a
    ensures Split(a + t, c) == [a + Split(t, c)[0]] + Split(t, c)[1..]
    decreases |a|
  {
    if |a| == 0 {
      var parts := Split(t, c);
      assert a + t == t && a + parts[0] == parts[0];
      assert [parts[0]] + parts[1..] == parts;
    } else {
      assert (a + t)[0] == a[0];
      assert (a + t)[1..] == a[1..] + t;
      SplitPrefix(a[1..], t, c);
      assert [a[0]] + (a[1..] + Split(t, c)[0]) == a + Split(t, c)[0];
    }
  }

  /** Splitting undoes joining, as long as no piece holds the separator. */
  lemma {:induction false} SplitJoin(pieces: seq<string>, c: char)
    requires |pieces| >= 1
    requires forall i :: 0 <= i < |pieces| ==> c !in pieces[i]
    ensures Split(Join(pieces, [c]), c) == pieces
    decreases |pieces|
  {
    if |pieces| == 1 {
      SplitPrefix(pieces[0], "", c);
      assert pieces[0] + "" == pieces[0];
    } else {
      var rest := Join(pieces[1..], [c]);
      assert Join(pieces, [c]) == pieces[0] + ([c] + rest);
      SplitPrefix(pieces[0], [c] + rest, c);
      assert ([c] + rest)[1..] == rest;
      SplitJoin(pieces[1..], c);
      assert Split([c] + rest, c) == [""] + pieces[1..];
      assert pieces[0] + "" == pieces[0];
      assert [pieces[0]] + pieces[1..] == pieces;
    }
  }

  /** Joined pieces followed by a separator and more text split into the
      pieces, then the pieces of that text. */
  lemma SplitJoinThen(pieces: seq<string>, t: string, c: char)
    requires |pieces| >= 1
    requires forall i :: 0 <= i < |pieces| ==> c !in pieces[i]
    ensures Split(Join(pieces, [c]) + [c] + t, c) == pieces + Split(t, c)
  {
    SplitAtSeparator(Join(pieces, [c]), t, c);
    SplitJoin(pieces, c);
  }

  /** A separator-free piece, a separator and more text: the piece comes
      off first. */
  lemma SplitAfter(a: string, t: string, c: char)
    requires c !in a
    ensures Split(a + [c] + t, c) == [a] + Split(t, c)
  {
    var tail := [c] + t;
    assert tail[0] == c && tail[1..] == t;
    assert Split(tail, c) == [""] + Split(t, c);
    SplitPrefix(a, tail, c);
    assert a + [c] + t == a + tail;
    assert a + "" == a;
  }

  /** Splitting at a separator that joins two texts splits each of them. */
  lemma {:induction false} SplitAtSeparator(a: string, b: string, c: char)
    ensures Split(a + [c] + b, c) == Split(a, c) + Split(b, c)
    decreases |a|
  {
    var w := a + [c] + b;
    if |a| == 0 {
      assert w == [c] + b && w[1..] == b;
    } else {
      assert w[0] == a[0] && w[1..] == a[1..] + [c] + b;
      SplitAtSeparator(a[1..], b, c);
      if a[0] != c {
        var front := Split(a[1..], c);
        assert Split(w[1..], c) == front + Split(b, c);
        assert (front + Split(b, c))[1..] == front[1..] + Split(b, c);
      }
    }
  }

  /** The pieces of each text, one text after the other. */
  function SplitEach(texts: seq<string>, c: char): (r: seq<string>)
    ensures |texts| >= 1 ==> |r| >= |texts|
    ensures forall i :: 0 <= i < |r| ==> c !in r[i]
    decreases |texts|
  {
    if texts == [] then [] else Split(texts[0], c) + SplitEach(texts[1..], c)
  }

  /** Splitting joined texts gives the pieces of each text, in order,
      whatever separators the texts hold themselves. */
  lemma {:induction false} SplitJoinEach(texts: seq<string>, c: char)
    requires |texts| >= 1
    ensures Split(Join(texts, [c]), c) == SplitEach(texts, c)
    decreases |texts|
  {
    if |texts| == 1 {
      assert SplitEach(texts, c) == Split(texts[0], c) + [];
    } else {
      SplitJoinEach(texts[1..], c);
      SplitAtSeparator(texts[0], Join(texts[1..], [c]), c);
    }
  }

  /** A text without the separator is its own last piece. */
  lemma AfterLastNone(s: string, c: char)
    requires c !in s
    ensures AfterLast(s, c) == s
  {
  }

  /** Nothing to strip from a text that does not end in `c`. */
  lemma RStripNone(s: string, c: char)
    requires s == [] || s[|s| - 1] != c
    ensures RStrip(s, c) == s
  {
  }

  predicate StartsWith(s: string, prefix: string) {
    |prefix| <= |s| && s[..|prefix|] == prefix
  }

  predicate EndsWith(s: string, suffix: string) {
    |suffix| <= |s| && s[|s| - |suffix|..] == suffix
  }

  /** Python's `s.rpartition(c)[2]`: the text after the last `c`, or all
      of `s` when it holds no `c`. The three clauses determine it. */
  function AfterLast(s: string, c: char): (r: string)
    ensures |r| <= |s| && r == s[|s| - |r|..]
    ensures c !in r
    ensures r == s || s[|s| - |r| - 1] == c
    decreases |s|
  {
    if |s| == 0 then ""
    else if s[|s| - 1] == c then ""
    else AfterLast(s[..|s| - 1], c) + [s[|s| - 1]]
  }

  /** The text after a separator that is followed by no other one. */
  lemma {:induction false} AfterLastOfTail(s: string, c: char, t: string)
    requires c !in t
    ensures AfterLast(s + [c] + t, c) == t
    decreases |t|
  {
    var w := s + [c] + t;
    if |t| > 0 {
      assert w[..|w| - 1] == s + [c] + t[..|t| - 1];
      assert w[|w| - 1] == t[|t| - 1];
      AfterLastOfTail(s, c, t[..|t| - 1]);
      assert t[..|t| - 1] + [t[|t| - 1]] == t;
    }
  }

  /** Python's `s.rstrip(c)` for one character: the longest prefix that
      does not end in `c`, all that follows it being `c`. */
  function RStrip(s: string, c: char): (r: string)
    ensures |r| <= |s| && r == s[..|r|]
    ensures |r| == 0 || r[|r| - 1] != c
    ensures forall i :: |r| <= i < |s| ==> s[i] == c
    decreases |s|
  {
    if |s| == 0 then ""
    else if s[|s| - 1] == c then RStrip(s[..|s| - 1], c)
    else s
  }

  function DigitChar(d: nat): (ch: char)
    requires d < 10
    ensures '0' <= ch <= '9'
  {
    ('0' as int + d) as char
  }

  /** Python's `str(n)` for a non-negative integer. */
  function Decimal(n: nat): (r: string)
    ensures |r| >= 1
    ensures forall i :: 0 <= i < |r| ==> '0' <= r[i] <= '9'
    decreases n
  {
    if n < 10 then [DigitChar(n)] else Decimal(n / 10) + [DigitChar(n % 10)]
  }

  /** Different numbers print differently. */
  lemma {:induction false} DecimalInjective(a: nat, b: nat)
    requires Decimal(a) == Decimal(b)
    ensures a == b
    decreases a
  {
    var da, db := Decimal(a), Decimal(b);
    if a < 10 && b < 10 {
      assert DigitChar(a) == da[0] == db[0] == DigitChar(b);
    } else if 10 <= a && 10 <= b {
      assert da[..|da| - 1] == Decimal(a / 10);
      assert db[..|db| - 1] == Decimal(b / 10);
      DecimalInjective(a / 10, b / 10);
      assert DigitChar(a % 10) == da[|da| - 1] == db[|db| - 1] == DigitChar(b % 10);
    }
  }

  /** `str.lower` restricted to ASCII letters. */
  function LowerAscii(s: string): (r: string)
    ensures |r| == |s|
  {
    seq(|s|, i requires 0 <= i < |s| => if 'A' <= s[i] <= 'Z' then (s[i] as int + 32) as char else s[i])
  }
}

/** The pieces of the Java runtime the core relies on, stated exactly:
    String.split with a one-character pattern and limit 0, joining words with a
    delimiter, startsWith, the decimal text of an int or long, integer division and
    remainder that truncate toward zero, and StringBuilder as a shared mutable buffer. */
module JavaLang {

  /** What an HTTP GET on a URL yields: `Unreachable` stands for any exception on the
      way (malformed URL, connection or read failure); otherwise the status code
      and the lines of the body. */
  datatype HttpResponse = Unreachable | Response(status: int, lines: seq<string>)

  /** java.lang.StringBuilder: a character buffer that every holder of the
      reference sees change. */
  class StringBuilder {
    var contents: string

    constructor (init: string)
      ensures contents == init
    {
      contents := init;
    }

    method Append(s: string)
      modifies this
      ensures contents == old(contents) + s
    {
      contents := contents + s;
    }
  }

  predicate StartsWith(s: string, prefix: string) {
    |prefix| <= |s| && s[..|prefix|] == prefix
  }

  /** Every piece between occurrences of `c`, empty pieces included
      (what String.split returns before trailing empty strings are removed). */
  function RawSplit(s: string, c: char): (r: seq<string>)
    ensures |r| >= 1
    decreases |s|
  {
    if |s| == 0 then [""]
    else
      var r := RawSplit(s[..|s| - 1], c);
      if s[|s| - 1] == c then r + [""]
      else r[..|r| - 1] + [r[|r| - 1] + [s[|s| - 1]]]
  }

  /** Removes the empty strings at the end of a list of pieces. */
  function DropTrailingEmpty(ps: seq<string>): (r: seq<string>)
    ensures |r| <= |ps| && r == ps[..|r|]
    ensures |r| > 0 ==> r[|r| - 1] != ""
    ensures forall k :: |r| <= k < |ps| ==> ps[k] == ""
    decreases |ps|
  {
    if |ps| > 0 && ps[|ps| - 1] == "" then DropTrailingEmpty(ps[..|ps| - 1]) else ps
  }

  /** `s.split(c)` in Java (limit 0): when the pattern never matches, the result is
      the string itself; otherwise every piece, with trailing empty pieces dropped. */
  function JavaSplit(s: string, c: char): (r: seq<string>)
    ensures forall k :: 0 <= k < |r| ==> c !in r[k]
    ensures c !in s ==> r == [s]
    ensures c in s ==> |r| == 0 || r[|r| - 1] != ""
  {
    if c !in s then [s] else RawSplitPieces(s, c); DropTrailingEmpty(RawSplit(s, c))
  }

  lemma {:induction false} RawSplitPieces(s: string, c: char)
    ensures forall k :: 0 <= k < |RawSplit(s, c)| ==> c !in RawSplit(s, c)[k]
    decreases |s|
  {
    if |s| > 0 {
      RawSplitPieces(s[..|s| - 1], c);
    }
  }

  /** The words with `sep` between consecutive ones and nowhere else. */
  function Join(ws: seq<string>, sep: string): string
    decreases |ws|
  {
    if |ws| == 0 then ""
    else if |ws| == 1 then ws[0]
    else Join(ws[..|ws| - 1], sep) + sep + ws[|ws| - 1]
  }

  /** The strings one after the other, with nothing between them. */
  function Concat(ss: seq<string>): string
    decreases |ss|
  {
    if |ss| == 0 then "" else Concat(ss[..|ss| - 1]) + ss[|ss| - 1]
  }

  /** One more string appended after the others. */
  lemma ConcatSnoc(ss: seq<string>, s: string)
    ensures Concat(ss + [s]) == Concat(ss) + s
  {
    assert (ss + [s])[..|ss|] == ss;
  }

  /** Every string followed by a newline, in order: what `append(line).append("\n")`
      builds up line after line. */
  function ConcatLines(ls: seq<string>): string
    decreases |ls|
  {
    if |ls| == 0 then "" else ConcatLines(ls[..|ls| - 1]) + ls[|ls| - 1] + "\n"
  }

  /** Every occurrence of `c` replaced by `d`. */
  function Replace(s: string, c: char, d: char): (r: string)
    ensures |r| == |s|
    ensures forall k :: 0 <= k < |s| ==> r[k] == (if s[k] == c then d else s[k])
  {
    seq(|s|, k requires 0 <= k < |s| => if s[k] == c then d else s[k])
  }

  /** `s` without the run of `c` at its end. */
  function DropTrailingChar(s: string, c: char): (r: string)
    ensures |r| <= |s| && r == s[..|r|]
    ensures |r| > 0 ==> r[|r| - 1] != c
    ensures forall k :: |r| <= k < |s| ==> s[k] == c
    decreases |s|
  {
    if |s| > 0 && s[|s| - 1] == c then DropTrailingChar(s[..|s| - 1], c) else s
  }

  lemma JoinSnoc(ws: seq<string>, w: string, sep: string)
    requires |ws| >= 1
    ensures Join(ws + [w], sep) == Join(ws, sep) + sep + w
  {
    assert (ws + [w])[..|ws|] == ws;
  }

  lemma JoinExtendLast(ws: seq<string>, x: string, sep: string)
    requires |ws| >= 1
    ensures Join(ws[..|ws| - 1] + [ws[|ws| - 1] + x], sep) == Join(ws, sep) + x
  {
    var init := ws[..|ws| - 1];
    if |ws| > 1 {
      JoinSnoc(init, ws[|ws| - 1] + x, sep);
      assert init + [ws[|ws| - 1]] == ws;
      JoinSnoc(init, ws[|ws| - 1], sep);
    }
  }

  lemma ReplaceSnoc(p: string, x: char, c: char, d: char)
    ensures Replace(p + [x], c, d) == Replace(p, c, d) + [if x == c then d else x]
  {
  }

  lemma {:induction false} JoinRawSplit(s: string, c: char, d: char)
    ensures Join(RawSplit(s, c), [d]) == Replace(s, c, d)
    decreases |s|
  {
    if |s| > 0 {
      var p := s[..|s| - 1];
      var x := s[|s| - 1];
      var r := RawSplit(p, c);
      JoinRawSplit(p, c, d);
      assert p + [x] == s;
      ReplaceSnoc(p, x, c, d);
      if x == c {
        JoinSnoc(r, "", [d]);
      } else {
        JoinExtendLast(r, [x], [d]);
      }
    }
  }

  lemma {:induction false} DropTrailingEmptyRawSplit(s: string, c: char)
    ensures DropTrailingEmpty(RawSplit(s, c)) == DropTrailingEmpty(RawSplit(DropTrailingChar(s, c), c))
    decreases |s|
  {
    if |s| > 0 && s[|s| - 1] == c {
      var p := s[..|s| - 1];
      var r := RawSplit(p, c);
      assert RawSplit(s, c) == r + [""];
      assert (r + [""])[..|r|] == r;
      DropTrailingEmptyRawSplit(p, c);
    }
  }

  lemma DropTrailingCharAbsent(s: string, c: char)
    requires c !in s
    ensures DropTrailingChar(s, c) == s
  {
    if |s| > 0 {
      assert s[|s| - 1] in s;
    }
  }

  lemma RawSplitLastNonEmpty(t: string, c: char)
    requires |t| > 0 && t[|t| - 1] != c
    ensures RawSplit(t, c)[|RawSplit(t, c)| - 1] != ""
  {
  }

  /** Joining the words of a split with `d` gives the string back with every
      separator turned into `d`, except the separators at the end, which split drops. */
  lemma {:induction false} JoinJavaSplit(s: string, c: char, d: char)
    ensures Join(JavaSplit(s, c), [d]) == Replace(DropTrailingChar(s, c), c, d)
  {
    var t := DropTrailingChar(s, c);
    if c !in s {
      DropTrailingCharAbsent(s, c);
      assert Replace(s, c, d) == s;
    } else {
      DropTrailingEmptyRawSplit(s, c);
      JoinRawSplit(t, c, d);
      if |t| == 0 {
        assert RawSplit(t, c) == [""];
        assert DropTrailingEmpty([""]) == [];
      } else {
        RawSplitLastNonEmpty(t, c);
      }
    }
  }

  lemma {:induction false} RawSplitPlain(w: string, c: char)
    requires c !in w
    ensures RawSplit(w, c) == [w]
    decreases |w|
  {
    if |w| > 0 {
      var p := w[..|w| - 1];
      assert forall k :: 0 <= k < |p| ==> p[k] == w[k];
      RawSplitPlain(p, c);
      assert p + [w[|w| - 1]] == w;
    }
  }

  lemma {:induction false} RawSplitAppendPlain(a: string, c: char, w: string)
    requires c !in w
    ensures RawSplit(a + [c] + w, c) == RawSplit(a, c) + [w]
    decreases |w|
  {
    var s := a + [c] + w;
    if |w| == 0 {
      assert s[..|s| - 1] == a;
    } else {
      var p := w[..|w| - 1];
      assert forall k :: 0 <= k < |p| ==> p[k] == w[k];
      RawSplitAppendPlain(a, c, p);
      assert s[..|s| - 1] == a + [c] + p;
      assert p + [w[|w| - 1]] == w;
    }
  }

  /** Splitting a join of separator-free words gives back exactly the words. */
  lemma {:induction false} RawSplitJoin(ws: seq<string>, c: char)
    requires |ws| >= 1
    requires forall k :: 0 <= k < |ws| ==> c !in ws[k]
    ensures RawSplit(Join(ws, [c]), c) == ws
    decreases |ws|
  {
    if |ws| == 1 {
      RawSplitPlain(ws[0], c);
    } else {
      var init := ws[..|ws| - 1];
      RawSplitJoin(init, c);
      RawSplitAppendPlain(Join(init, [c]), c, ws[|ws| - 1]);
      assert init + [ws[|ws| - 1]] == ws;
    }
  }

  lemma {:induction false} ConcatLinesIsJoin(ls: seq<string>)
    requires |ls| >= 1
    ensures ConcatLines(ls) == Join(ls, "\n") + "\n"
    decreases |ls|
  {
    if |ls| > 1 {
      ConcatLinesIsJoin(ls[..|ls| - 1]);
    } else {
      assert ls[..0] == [];
    }
  }

  /** Lines buffered one after the other, each followed by a newline, split back on
      newlines into the same lines, except that trailing empty lines are lost. */
  lemma LinesRoundTrip(ls: seq<string>)
    requires forall k :: 0 <= k < |ls| ==> '\n' !in ls[k]
    ensures JavaSplit(ConcatLines(ls), '\n') == if ls == [] then [""] else DropTrailingEmpty(ls)
  {
    if ls != [] {
      ConcatLinesIsJoin(ls);
      var j := Join(ls, "\n");
      RawSplitJoin(ls, '\n');
      RawSplitSeparatorLast(j, '\n');
      assert '\n' in j + "\n" by { assert (j + "\n")[|j|] == '\n'; }
      DropTrailingEmptySnoc(ls);
    }
  }

  /** A separator at the end adds one empty piece. */
  lemma RawSplitSeparatorLast(s: string, c: char)
    ensures RawSplit(s + [c], c) == RawSplit(s, c) + [""]
  {
    assert (s + [c])[..|s|] == s;
  }

  /** An empty piece at the end is dropped with the other trailing empty pieces. */
  lemma DropTrailingEmptySnoc(ps: seq<string>)
    ensures DropTrailingEmpty(ps + [""]) == DropTrailingEmpty(ps)
  {
    assert (ps + [""])[..|ps|] == ps;
  }

  // ---- integers ----

  function Abs(x: int): nat { if x < 0 then -x else x }

  /** Java's `/` on int and long: the quotient truncated toward zero. */
  function JavaDiv(a: int, b: int): int
    requires b != 0
  {
    var q := Abs(a) / Abs(b);
    if (a < 0) != (b < 0) then -q else q
  }

  /** Java's `%` on int and long: the remainder takes the sign of the dividend. */
  function JavaRem(a: int, b: int): (r: int)
    requires b != 0
    ensures a == b * JavaDiv(a, b) + r
    ensures Abs(r) < Abs(b)
    ensures a >= 0 ==> r >= 0
    ensures a < 0 ==> r <= 0
  {
    var r := Abs(a) % Abs(b);
    assert Abs(a) == Abs(b) * (Abs(a) / Abs(b)) + r;
    if a < 0 then -r else r
  }

  lemma JavaDivOfNonNegative(a: int, b: int)
    requires a >= 0 && b > 0
    ensures JavaDiv(a, b) == a / b && JavaRem(a, b) == a % b
  {
  }

  function DigitChar(d: nat): char
    requires d < 10
  {
    "0123456789"[d]
  }

  function DigitValue(ch: char): nat
  {
    if '0' <= ch <= '9' then (ch - '0') as nat else 0
  }

  /** Decimal digits of a natural number, without leading zeros. */
  function NatToString(n: nat): (s: string)
    ensures |s| >= 1
    ensures forall k :: 0 <= k < |s| ==> '0' <= s[k] <= '9'
    ensures |s| > 1 ==> s[0] != '0'
    decreases n
  {
    if n < 10 then [DigitChar(n)] else NatToString(n / 10) + [DigitChar(n % 10)]
  }

  /** String.valueOf on an int or long: a minus sign, then the digits of the magnitude. */
  function IntToString(i: int): string
  {
    if i < 0 then "-" + NatToString(-i) else NatToString(i)
  }

  function ParseDigits(s: string): nat
    decreases |s|
  {
    if |s| == 0 then 0 else 10 * ParseDigits(s[..|s| - 1]) + DigitValue(s[|s| - 1])
  }

  /** The printed digits read back as the number printed. */
  lemma {:induction false} NatToStringRoundTrip(n: nat)
    ensures ParseDigits(NatToString(n)) == n
    decreases n
  {
    if n >= 10 {
      NatToStringRoundTrip(n / 10);
      var s := NatToString(n / 10) + [DigitChar(n % 10)];
      assert s[..|s| - 1] == NatToString(n / 10);
      assert DigitValue(DigitChar(n % 10)) == n % 10;
    } else {
      assert DigitValue(DigitChar(n)) == n;
    }
  }

  lemma NatToStringInjective(m: nat, n: nat)
    requires NatToString(m) == NatToString(n)
    ensures m == n
  {
    NatToStringRoundTrip(m);
    NatToStringRoundTrip(n);
  }
}

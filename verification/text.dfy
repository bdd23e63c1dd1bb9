/** Character-level text: decimal rendering of integers (C++ `operator<<`,
    `std::to_string`, Python `str`), digit parsing, `;`-separated fields, and
    splitting a file's text into lines the way Python's `readlines` does. */
module Text {

  const NEWLINE: char := '\n'
  const RETURN: char := '\r'

  predicate IsDigit(c: char)
  {
    '0' <= c <= '9'
  }

  predicate AllDigits(s: string)
  {
    forall i :: 0 <= i < |s| ==> IsDigit(s[i])
  }

  predicate HasPrefix(s: string, p: string)
  {
    |p| <= |s| && s[..|p|] == p
  }

  function DigitChar(d: nat): (c: char)
    requires d < 10
    ensures IsDigit(c)
  {
    (d + '0' as int) as char
  }

  function DigitValue(c: char): (d: nat)
    requires IsDigit(c)
    ensures d < 10
  {
    c as int - '0' as int
  }

  /** The decimal value of a string of digits; leading zeros contribute nothing. */
  function DigitsValue(s: string): nat
    requires AllDigits(s)
  {
    if |s| == 0 then 0 else 10 * DigitsValue(s[..|s| - 1]) + DigitValue(s[|s| - 1])
  }

  /** Decimal rendering of a natural number: non-empty, digits only, and no leading zero. */
  function NatToString(n: nat): (r: string)
    ensures |r| > 0 && AllDigits(r)
    ensures r[0] == '0' ==> r == "0"
  {
    if n < 10 then [DigitChar(n)] else NatToString(n / 10) + [DigitChar(n % 10)]
  }

  /** Decimal rendering of an integer: a minus sign before the magnitude when negative. */
  function IntToString(i: int): (r: string)
    ensures |r| > 0
    ensures i >= 0 ==> AllDigits(r)
    ensures i < 0 ==> r[0] == '-'
    ensures i >= 0 ==> DigitsValue(r) == i
    ensures i < 0 ==> AllDigits(r[1..]) && DigitsValue(r[1..]) == -i
  {
    if i < 0 then
      DigitsValueOfNatToString(-i);
      assert ("-" + NatToString(-i))[1..] == NatToString(-i);
      "-" + NatToString(-i)
    else
      DigitsValueOfNatToString(i);
      NatToString(i)
  }

  /** Reading back a rendered natural number gives the number. */
  lemma {:induction false} DigitsValueOfNatToString(n: nat)
    ensures DigitsValue(NatToString(n)) == n
  {
    var s := NatToString(n);
    if n < 10 {
      assert s[..0] == [];
    } else {
      assert s[..|s| - 1] == NatToString(n / 10);
      DigitsValueOfNatToString(n / 10);
    }
  }

  /** Rendering is injective. */
  lemma NatToStringInjective(m: nat, n: nat)
    requires NatToString(m) == NatToString(n)
    ensures m == n
  {
    DigitsValueOfNatToString(m);
    DigitsValueOfNatToString(n);
  }

  /** A leading zero does not change the value. */
  lemma {:induction false} LeadingZeroIgnored(s: string)
    requires AllDigits(s)
    ensures AllDigits("0" + s) && DigitsValue("0" + s) == DigitsValue(s)
  {
    var t := "0" + s;
    if |s| > 0 {
      assert t[..|t| - 1] == "0" + s[..|s| - 1];
      LeadingZeroIgnored(s[..|s| - 1]);
    } else {
      assert t[..0] == [];
    }
  }

  /** `sep.join(fields)`. */
  function Join(fields: seq<string>, sep: char): string
  {
    if |fields| == 0 then ""
    else if |fields| == 1 then fields[0]
    else fields[0] + [sep] + Join(fields[1..], sep)
  }

  /** `s.split(sep)`: always at least one field, and no field holds `sep`. */
  function Split(s: string, sep: char): (r: seq<string>)
    ensures |r| > 0
    ensures forall i :: 0 <= i < |r| ==> sep !in r[i]
  {
    if |s| == 0 then [""]
    else
      var rest := Split(s[1..], sep);
      if s[0] == sep then [""] + rest
      else [[s[0]] + rest[0]] + rest[1..]
  }

  lemma {:induction false} SplitWithoutSep(a: string, sep: char)
    requires sep !in a
    ensures Split(a, sep) == [a]
  {
    if |a| > 0 {
      SplitWithoutSep(a[1..], sep);
      assert [a[0]] + a[1..] == a;
    }
  }

  lemma {:induction false} SplitAtSep(a: string, sep: char, b: string)
    requires sep !in a
    ensures Split(a + [sep] + b, sep) == [a] + Split(b, sep)
  {
    var s := a + [sep] + b;
    if |a| == 0 {
      assert s[1..] == b;
    } else {
      assert s[1..] == a[1..] + [sep] + b;
      SplitAtSep(a[1..], sep, b);
      assert [a[0]] + a[1..] == a;
    }
  }

  /** Splitting undoes joining when no field holds the separator. */
  lemma {:induction false} SplitJoin(fields: seq<string>, sep: char)
    requires |fields| > 0
    requires forall i :: 0 <= i < |fields| ==> sep !in fields[i]
    ensures Split(Join(fields, sep), sep) == fields
  {
    if |fields| == 1 {
      SplitWithoutSep(fields[0], sep);
    } else {
      SplitAtSep(fields[0], sep, Join(fields[1..], sep));
      SplitJoin(fields[1..], sep);
    }
  }

  /** Joining undoes splitting. */
  lemma {:induction false} JoinSplit(s: string, sep: char)
    ensures Join(Split(s, sep), sep) == s
  {
    if |s| > 0 {
      JoinSplit(s[1..], sep);
      var rest := Split(s[1..], sep);
      if s[0] != sep && |rest| > 1 {
        assert ([[s[0]] + rest[0]] + rest[1..])[1..] == rest[1..];
      }
    }
  }

  /** A line as `readlines` returns it: terminated by its only newline, and
      free of carriage returns, which reading translates away. */
  predicate IsLine(l: string)
  {
    Terminated(l) && RETURN !in l
  }

  /** Ends with its only newline. */
  predicate Terminated(l: string)
  {
    |l| > 0 && l[|l| - 1] == NEWLINE && NEWLINE !in l[..|l| - 1]
  }

  /** The text a writer produces by emitting `lines` one after the other. */
  function Concat(lines: seq<string>): string
  {
    if |lines| == 0 then "" else lines[0] + Concat(lines[1..])
  }

  /** Universal-newline translation of a file opened for reading in text mode:
      every `\r\n` and every other `\r` becomes one `\n`. */
  function Universal(s: string): (r: string)
    ensures RETURN !in r
    ensures RETURN !in s ==> r == s
    ensures |r| <= |s|
  {
    if |s| == 0 then ""
    else if s[0] == RETURN then
      "\n" + Universal(if |s| > 1 && s[1] == NEWLINE then s[2..] else s[1..])
    else [s[0]] + Universal(s[1..])
  }

  /** The lines of an already translated text: every line keeps its newline;
      a trailing piece without newline is the last line. */
  function SplitLines(s: string): (r: seq<string>)
    ensures |s| > 0 ==> |r| > 0
    ensures forall i :: 0 <= i < |r| ==> |r[i]| > 0
    ensures forall i :: 0 <= i < |r| - 1 ==> Terminated(r[i])
  {
    if |s| == 0 then []
    else
      var rest := SplitLines(s[1..]);
      if s[0] == NEWLINE then ["\n"] + rest
      else if |rest| == 0 then [[s[0]]]
      else [[s[0]] + rest[0]] + rest[1..]
  }

  /** Python's `f.readlines()` on a file opened with `open(path, 'r')`. */
  function ReadLines(s: string): (r: seq<string>)
    ensures |s| > 0 ==> |r| > 0
    ensures forall i :: 0 <= i < |r| ==> |r[i]| > 0
    ensures forall i :: 0 <= i < |r| - 1 ==> IsLine(r[i])
  {
    SplitLinesNoReturn(Universal(s));
    SplitLines(Universal(s))
  }

  lemma SplitLinesNoReturn(u: string)
    requires RETURN !in u
    ensures forall i :: 0 <= i < |SplitLines(u)| ==> RETURN !in SplitLines(u)[i]
  {
    ConcatSplitLines(u);
    forall i | 0 <= i < |SplitLines(u)|
      ensures RETURN !in SplitLines(u)[i]
    {
      ConcatHasNoReturn(SplitLines(u), i);
    }
  }

  lemma {:induction false} SplitLinesLine(l: string, t: string)
    requires Terminated(l)
    ensures SplitLines(l + t) == [l] + SplitLines(t)
  {
    var s := l + t;
    if |l| == 1 {
      assert l == "\n";
      assert s[1..] == t;
    } else {
      assert s[1..] == l[1..] + t;
      assert l[1..][..|l[1..]| - 1] == l[1..|l| - 1];
      SplitLinesLine(l[1..], t);
      assert [l[0]] + l[1..] == l;
    }
  }

  /** Concatenating the lines split off gives back the text. */
  lemma {:induction false} ConcatSplitLines(s: string)
    ensures Concat(SplitLines(s)) == s
  {
    if |s| > 0 {
      ConcatSplitLines(s[1..]);
      var rest := SplitLines(s[1..]);
      if s[0] != NEWLINE && |rest| > 0 {
        assert ([[s[0]] + rest[0]] + rest[1..])[1..] == rest[1..];
      }
    }
  }

  /** A piece of a text without carriage returns has none either. */
  lemma {:induction false} ConcatHasNoReturn(lines: seq<string>, i: nat)
    requires i < |lines|
    requires RETURN !in Concat(lines)
    ensures RETURN !in lines[i]
  {
    assert Concat(lines) == lines[0] + Concat(lines[1..]);
    if i > 0 {
      ConcatHasNoReturn(lines[1..], i - 1);
    }
  }

  /** Lines without carriage returns make a text without them. */
  lemma {:induction false} NoReturnConcat(lines: seq<string>)
    requires forall i :: 0 <= i < |lines| ==> RETURN !in lines[i]
    ensures RETURN !in Concat(lines)
  {
    if |lines| > 0 {
      NoReturnConcat(lines[1..]);
    }
  }

  /** Reading back the text of complete lines gives the lines. */
  lemma {:induction false} ReadLinesConcat(lines: seq<string>)
    requires forall i :: 0 <= i < |lines| ==> IsLine(lines[i])
    ensures ReadLines(Concat(lines)) == lines
  {
    NoReturnConcat(lines);
    SplitLinesConcat(lines);
  }

  lemma {:induction false} SplitLinesConcat(lines: seq<string>)
    requires forall i :: 0 <= i < |lines| ==> IsLine(lines[i])
    ensures SplitLines(Concat(lines)) == lines
  {
    if |lines| > 0 {
      SplitLinesLine(lines[0], Concat(lines[1..]));
      SplitLinesConcat(lines[1..]);
    }
  }

  lemma ReadTwoLines(a: string, b: string)
    requires IsLine(a) && IsLine(b)
    ensures ReadLines(a + b) == [a, b]
  {
    assert [a, b][1..] == [b];
    assert [b][1..] == [];
    assert Concat([b]) == b + "" == b;
    assert Concat([a, b]) == a + b;
    ReadLinesConcat([a, b]);
  }

  /** Concatenating the lines read gives back the text with its line breaks
      translated, and so the text itself when it holds no carriage return. */
  lemma ConcatReadLines(s: string)
    ensures Concat(ReadLines(s)) == Universal(s)
    ensures RETURN !in s ==> Concat(ReadLines(s)) == s
  {
    ConcatSplitLines(Universal(s));
  }

  /** `\r\n` reads as one line break. */
  lemma ReturnNewlineBreaksLine(l: string, t: string)
    requires RETURN !in l && NEWLINE !in l
    ensures ReadLines(l + "\r\n" + t) == [l + "\n"] + ReadLines(t)
  {
    var c := "\r\n" + t;
    assert l + "\r\n" + t == l + c;
    UniversalPlain(l, c);
    assert Universal(c) == "\n" + Universal(t) by {
      assert c[2..] == t;
    }
    assert l + "\n" + Universal(t) == l + Universal(c);
    LineBreak(l, Universal(t));
  }

  /** A `\r` that no `\n` follows reads as a line break as well. */
  lemma ReturnBreaksLine(l: string, t: string)
    requires RETURN !in l && NEWLINE !in l
    requires |t| == 0 || t[0] != NEWLINE
    ensures ReadLines(l + "\r" + t) == [l + "\n"] + ReadLines(t)
  {
    var c := "\r" + t;
    assert l + "\r" + t == l + c;
    UniversalPlain(l, c);
    assert Universal(c) == "\n" + Universal(t) by {
      assert c[1..] == t;
    }
    assert l + "\n" + Universal(t) == l + Universal(c);
    LineBreak(l, Universal(t));
  }

  lemma LineBreak(l: string, u: string)
    requires NEWLINE !in l
    ensures SplitLines(l + "\n" + u) == [l + "\n"] + SplitLines(u)
  {
    assert (l + "\n")[..|l + "\n"| - 1] == l;
    SplitLinesLine(l + "\n", u);
  }

  /** Translation leaves a piece without carriage returns alone. */
  lemma {:induction false} UniversalPlain(l: string, t: string)
    requires RETURN !in l
    ensures Universal(l + t) == l + Universal(t)
  {
    if |l| > 0 {
      var s := l + t;
      assert s[0] == l[0] && s[1..] == l[1..] + t;
      UniversalPlain(l[1..], t);
      assert Universal(s) == [l[0]] + Universal(l[1..] + t);
      assert [l[0]] + (l[1..] + Universal(t)) == l + Universal(t);
    } else {
      assert l + t == t;
    }
  }

  lemma {:induction false} ConcatAppend(xs: seq<string>, ys: seq<string>)
    ensures Concat(xs + ys) == Concat(xs) + Concat(ys)
  {
    if |xs| == 0 {
      assert xs + ys == ys;
    } else {
      assert (xs + ys)[1..] == xs[1..] + ys;
      ConcatAppend(xs[1..], ys);
    }
  }

  /** A line with its newline removed, if it has one. */
  function StripNewline(l: string): (r: string)
    ensures IsLine(l) ==> r + "\n" == l && NEWLINE !in r
  {
    if |l| > 0 && l[|l| - 1] == NEWLINE then l[..|l| - 1] else l
  }

  predicate IsSpace(c: char)
  {
    c == ' ' || c == '\t'
  }

  /** Fields of a line separated by runs of blanks, leading and trailing blanks
      ignored (pandas' `delim_whitespace=True`). */
  function SplitWhitespace(s: string): (r: seq<string>)
    ensures forall i :: 0 <= i < |r| ==> |r[i]| > 0
    ensures forall i, j :: 0 <= i < |r| && 0 <= j < |r[i]| ==> !IsSpace(r[i][j])
  {
    if |s| == 0 then []
    else
      var rest := SplitWhitespace(s[1..]);
      if IsSpace(s[0]) then rest
      else if |s| > 1 && !IsSpace(s[1]) && |rest| > 0 then [[s[0]] + rest[0]] + rest[1..]
      else [[s[0]]] + rest
  }
}

/** The string primitives the plugin leans on: PHP's `explode`, `implode`,
    `trim`, `strtolower`, decimal digits and fixed-width numbers. */
module Text {

  /** PHP `explode($sep, $s)` for a one-character separator: the pieces
      between separators, never fewer than one. */
  function Split(s: string, sep: char): (parts: seq<string>)
    ensures |parts| >= 1
    ensures forall i :: 0 <= i < |parts| ==> sep !in parts[i]
  {
    if |s| == 0 then [""]
    else
      var rest := Split(s[1..], sep);
      if s[0] == sep then [""] + rest
      else [[s[0]] + rest[0]] + rest[1..]
  }

  /** PHP `implode($glue, $parts)`. */
  function Join(parts: seq<string>, glue: string): string
  {
    if |parts| == 0 then ""
    else if |parts| == 1 then parts[0]
    else parts[0] + glue + Join(parts[1..], glue)
  }

  lemma JoinCons(p: string, rest: seq<string>, glue: string)
    requires |rest| >= 1
    ensures Join([p] + rest, glue) == p + glue + Join(rest, glue)
  {
    assert ([p] + rest)[1..] == rest;
  }

  /** Joining the pieces with the separator gives back the original text. */
  lemma {:induction false} JoinSplit(s: string, sep: char)
    ensures Join(Split(s, sep), [sep]) == s
  {
    if |s| > 0 {
      var rest := Split(s[1..], sep);
      JoinSplit(s[1..], sep);
      if s[0] == sep {
        JoinCons("", rest, [sep]);
        assert s == [sep] + s[1..];
      } else {
        var head := [s[0]] + rest[0];
        if |rest| == 1 {
          assert Split(s, sep) == [head];
        } else {
          JoinCons(head, rest[1..], [sep]);
          JoinCons(rest[0], rest[1..], [sep]);
          assert rest == [rest[0]] + rest[1..];
          assert s == [s[0]] + s[1..];
        }
      }
    }
  }

  /** A piece free of the separator splits into itself. */
  lemma {:induction false} SplitNoSep(p: string, sep: char)
    requires sep !in p
    ensures Split(p, sep) == [p]
  {
    if |p| > 0 {
      SplitNoSep(p[1..], sep);
      assert [p[0]] + p[1..] == p;
    }
  }

  /** Splitting `p + sep + rest` peels off `p` as the first piece. */
  lemma {:induction false} SplitAfterPiece(p: string, rest: string, sep: char)
    requires sep !in p
    ensures Split(p + [sep] + rest, sep) == [p] + Split(rest, sep)
  {
    if |p| == 0 {
      assert p + [sep] + rest == [sep] + rest;
      assert ([sep] + rest)[1..] == rest;
    } else {
      SplitAfterPiece(p[1..], rest, sep);
      var s := p + [sep] + rest;
      assert s[0] == p[0];
      assert s[1..] == p[1..] + [sep] + rest;
      assert [p[0]] + p[1..] == p;
    }
  }

  /** Splitting undoes joining when no piece holds the separator. */
  lemma {:induction false} SplitJoin(parts: seq<string>, sep: char)
    requires |parts| >= 1
    requires forall i :: 0 <= i < |parts| ==> sep !in parts[i]
    ensures Split(Join(parts, [sep]), sep) == parts
  {
    if |parts| == 1 {
      SplitNoSep(parts[0], sep);
    } else {
      SplitJoin(parts[1..], sep);
      JoinCons(parts[0], parts[1..], [sep]);
      assert [parts[0]] + parts[1..] == parts;
      SplitAfterPiece(parts[0], Join(parts[1..], [sep]), sep);
    }
  }

  /** The characters PHP `trim` strips by default: space, tab, newline,
      carriage return, NUL and vertical tab. */
  predicate IsSpace(c: char)
  {
    c == ' ' || c == '\t' || c == '\n' || c == '\r' || c == '\0' || c == 11 as char
  }

  function TrimLeft(s: string): (t: string)
    ensures |t| <= |s| && t == s[|s| - |t|..]
    ensures forall i :: 0 <= i < |s| - |t| ==> IsSpace(s[i])
    ensures t == [] || !IsSpace(t[0])
  {
    if |s| > 0 && IsSpace(s[0]) then TrimLeft(s[1..]) else s
  }

  function TrimRight(s: string): (t: string)
    ensures |t| <= |s| && t == s[..|t|]
    ensures forall i :: |t| <= i < |s| ==> IsSpace(s[i])
    ensures t == [] || !IsSpace(t[|t| - 1])
  {
    if |s| > 0 && IsSpace(s[|s| - 1]) then TrimRight(s[..|s| - 1]) else s
  }

  /** PHP `trim($s)`: strips default white space from both ends. */
  function Trim(s: string): string
  {
    TrimRight(TrimLeft(s))
  }

  /** A text without white space at either end is its own trim. */
  lemma TrimUnspaced(s: string)
    requires s == [] || (!IsSpace(s[0]) && !IsSpace(s[|s| - 1]))
    ensures Trim(s) == s
  {
  }

  predicate HasPrefix(s: string, p: string)
  {
    |p| <= |s| && s[..|p|] == p
  }

  predicate IsDigit(c: char)
  {
    '0' <= c <= '9'
  }

  predicate AllDigits(s: string)
  {
    forall i :: 0 <= i < |s| ==> IsDigit(s[i])
  }

  function DigitChar(d: nat): (c: char)
    requires d < 10
    ensures IsDigit(c)
  {
    ('0' as int + d) as char
  }

  function DigitValue(c: char): nat
    requires IsDigit(c)
  {
    c as int - '0' as int
  }

  function Pow10(k: nat): (p: nat)
    ensures p >= 1
  {
    if k == 0 then 1 else 10 * Pow10(k - 1)
  }

  /** The decimal value of a string of digits. */
  function Value(s: string): nat
    requires AllDigits(s)
  {
    if |s| == 0 then 0 else Value(s[..|s| - 1]) * 10 + DigitValue(s[|s| - 1])
  }

  /** The last `width` decimal digits of `n`, with leading zeros: PHP's
      `%02d`-like fixed-width rendering of a number below 10^width. */
  function Fixed(n: nat, width: nat): (s: string)
    ensures |s| == width && AllDigits(s)
  {
    if width == 0 then "" else Fixed(n / 10, width - 1) + [DigitChar(n % 10)]
  }

  /** The shortest decimal representation of `n`. */
  function NatToString(n: nat): (s: string)
    ensures |s| >= 1 && AllDigits(s)
  {
    if n < 10 then [DigitChar(n)] else NatToString(n / 10) + [DigitChar(n % 10)]
  }

  /** PHP's `%d` rendering of an integer. */
  function IntToString(i: int): string
  {
    if i < 0 then "-" + NatToString(-i) else NatToString(i)
  }

  /** A fixed-width rendering reads back as the number it renders. */
  lemma {:induction false} FixedValue(n: nat, width: nat)
    requires n < Pow10(width)
    ensures Value(Fixed(n, width)) == n
  {
    if width > 0 {
      FixedValue(n / 10, width - 1);
      var s := Fixed(n, width);
      assert s[..|s| - 1] == Fixed(n / 10, width - 1);
      assert DigitValue(s[|s| - 1]) == n % 10;
    }
  }

  /** A string of digits is the fixed-width rendering of its own value. */
  lemma {:induction false} ValueFixed(s: string)
    requires AllDigits(s)
    ensures Value(s) < Pow10(|s|)
    ensures Fixed(Value(s), |s|) == s
  {
    if |s| > 0 {
      var init := s[..|s| - 1];
      ValueFixed(init);
      var d := DigitValue(s[|s| - 1]);
      assert (Value(init) * 10 + d) / 10 == Value(init);
      assert (Value(init) * 10 + d) % 10 == d;
      assert DigitChar(d) == s[|s| - 1];
      assert init + [s[|s| - 1]] == s;
    }
  }

  /** The shortest rendering reads back as the number it renders. */
  lemma {:induction false} NatToStringValue(n: nat)
    ensures Value(NatToString(n)) == n
  {
    if n >= 10 {
      NatToStringValue(n / 10);
      var s := NatToString(n);
      assert s[..|s| - 1] == NatToString(n / 10);
    }
  }

  /** A number of at least 10^k renders with more than k characters. */
  lemma {:induction false} NatToStringWide(n: nat, k: nat)
    requires n >= Pow10(k)
    ensures |NatToString(n)| > k
  {
    if k > 0 {
      assert n / 10 >= Pow10(k - 1);
      NatToStringWide(n / 10, k - 1);
    }
  }

  /** ASCII lower-casing, as PHP 8's `strtolower` does. */
  function Lower(s: string): (t: string)
    ensures |t| == |s|
    ensures forall i :: 0 <= i < |s| ==> !('A' <= t[i] <= 'Z')
  {
    if |s| == 0 then ""
    else [LowerChar(s[0])] + Lower(s[1..])
  }

  function LowerChar(c: char): char
  {
    if 'A' <= c <= 'Z' then (c as int + 32) as char else c
  }

  /** `array_map('trim', $parts)`. */
  function TrimAll(parts: seq<string>): (r: seq<string>)
    ensures |r| == |parts|
    ensures forall i :: 0 <= i < |r| ==> r[i] == Trim(parts[i])
  {
    if |parts| == 0 then [] else [Trim(parts[0])] + TrimAll(parts[1..])
  }

  /** PHP `array_intersect($xs, $allowed)` on strings: the items of `xs` that
      occur in `allowed`, in their own order and with their repetitions. */
  function Intersect(xs: seq<string>, allowed: seq<string>): (r: seq<string>)
    ensures |r| <= |xs|
    ensures forall x :: x in r <==> x in xs && x in allowed
  {
    if |xs| == 0 then []
    else if xs[0] in allowed then [xs[0]] + Intersect(xs[1..], allowed)
    else Intersect(xs[1..], allowed)
  }

  /** The filter works item by item, so it keeps the order of its input. */
  lemma {:induction false} IntersectAppend(xs: seq<string>, ys: seq<string>, allowed: seq<string>)
    ensures Intersect(xs + ys, allowed) == Intersect(xs, allowed) + Intersect(ys, allowed)
  {
    if |xs| > 0 {
      assert (xs + ys)[0] == xs[0];
      assert (xs + ys)[1..] == xs[1..] + ys;
      IntersectAppend(xs[1..], ys, allowed);
    } else {
      assert xs + ys == ys;
    }
  }

  /** Every allowed item keeps all its repetitions; nothing else is kept. */
  lemma {:induction false} IntersectCount(xs: seq<string>, allowed: seq<string>, x: string)
    ensures multiset(Intersect(xs, allowed))[x] == if x in allowed then multiset(xs)[x] else 0
  {
    if |xs| > 0 {
      IntersectCount(xs[1..], allowed, x);
      assert xs == [xs[0]] + xs[1..];
      assert multiset(xs) == multiset([xs[0]]) + multiset(xs[1..]);
    }
  }

  /** Items that are all allowed pass the filter unchanged. */
  lemma {:induction false} IntersectAllAllowed(xs: seq<string>, allowed: seq<string>)
    requires forall i :: 0 <= i < |xs| ==> xs[i] in allowed
    ensures Intersect(xs, allowed) == xs
  {
    if |xs| > 0 {
      IntersectAllAllowed(xs[1..], allowed);
    }
  }

  /** Trimming parts that have no white space at either end changes nothing. */
  lemma {:induction false} TrimAllUnspaced(parts: seq<string>)
    requires forall i :: 0 <= i < |parts| ==>
      parts[i] == [] || (!IsSpace(parts[i][0]) && !IsSpace(parts[i][|parts[i]| - 1]))
    ensures TrimAll(parts) == parts
  {
    forall i | 0 <= i < |parts|
      ensures TrimAll(parts)[i] == parts[i]
    {
      TrimUnspaced(parts[i]);
    }
  }
}

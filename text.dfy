/**
 * Text primitives the renderer relies on: the decimal form `operator<<`
 * gives an integer, a `", "`-join, the `std::string::substr` truncation of
 * the block header (with its `size_t` wrap-around), and newline counting.
 */
module Text {

  /** `size_t` is 64 bits wide; `size() - 2` wraps modulo this. */
  const SIZE_MOD: nat := 0x1_0000_0000_0000_0000

  type SizeT = n: nat | n < SIZE_MOD

  // ---------------------------------------------------------------- decimal

  predicate IsDigit(c: char) { '0' <= c <= '9' }

  predicate IsDigits(s: string) { forall i :: 0 <= i < |s| ==> IsDigit(s[i]) }

  function Digit(d: nat): (c: char)
    requires d < 10
    ensures IsDigit(c) && c as int - '0' as int == d
  {
    ('0' as int + d) as char
  }

  /** How `std::ostream` prints a non-negative integer: decimal, no padding. */
  function NatStr(n: nat): (s: string)
    ensures 0 < |s| && IsDigits(s)
    ensures |s| == 1 <==> n < 10
    ensures s[0] == '0' ==> n == 0
    decreases n
  {
    if n < 10 then [Digit(n)] else NatStr(n / 10) + [Digit(n % 10)]
  }

  /** How `std::ostream` prints a signed integer: a leading `-` when negative. */
  function IntStr(i: int): (s: string)
    ensures 0 < |s|
    ensures s[0] == '-' <==> i < 0
  {
    if i < 0 then "-" + NatStr(-i) else NatStr(i)
  }

  /** Reads a run of decimal digits back; the partner of `NatStr`. */
  function ParseNat(s: string): nat
    requires IsDigits(s)
    decreases |s|
  {
    if |s| == 0 then 0
    else ParseNat(s[..|s| - 1]) * 10 + (s[|s| - 1] as int - '0' as int)
  }

  /** Reads an optionally negative decimal back; the partner of `IntStr`. */
  function ParseInt(s: string): int
    requires 0 < |s|
    requires s[0] == '-' ==> IsDigits(s[1..])
    requires s[0] != '-' ==> IsDigits(s)
  {
    if s[0] == '-' then -(ParseNat(s[1..]) as int) else ParseNat(s)
  }

  lemma {:induction false} ParseNatStr(n: nat)
    ensures ParseNat(NatStr(n)) == n
    decreases n
  {
    if n >= 10 {
      var s := NatStr(n);
      assert s[..|s| - 1] == NatStr(n / 10);
      ParseNatStr(n / 10);
    }
  }

  lemma ParseIntStr(i: int)
    ensures var s := IntStr(i);
      && (s[0] == '-' ==> IsDigits(s[1..]))
      && (s[0] != '-' ==> IsDigits(s))
      && ParseInt(s) == i
  {
    var s := IntStr(i);
    if i < 0 {
      assert s[1..] == NatStr(-i);
      ParseNatStr(-i);
    } else {
      ParseNatStr(i);
    }
  }

  /** Distinct integers print differently. */
  lemma IntStrInjective(a: int, b: int)
    ensures IntStr(a) == IntStr(b) ==> a == b
  {
    ParseIntStr(a);
    ParseIntStr(b);
  }

  // ------------------------------------------------------------------- join

  /**
   * `xs` separated by `sep`: nothing for no element, the element alone for
   * one, no separator before the first or after the last.
   */
  function Join(xs: seq<string>, sep: string): string
    decreases |xs|
  {
    if |xs| == 0 then ""
    else if |xs| == 1 then xs[0]
    else Join(xs[..|xs| - 1], sep) + sep + xs[|xs| - 1]
  }

  /** What a loop writing `x << sep` for every element leaves in a stream. */
  function Suffixed(xs: seq<string>, sep: string): string
    decreases |xs|
  {
    if |xs| == 0 then "" else Suffixed(xs[..|xs| - 1], sep) + xs[|xs| - 1] + sep
  }

  lemma {:induction false} SuffixedIsJoinThenSep(xs: seq<string>, sep: string)
    requires 0 < |xs|
    ensures Suffixed(xs, sep) == Join(xs, sep) + sep
    decreases |xs|
  {
    if |xs| > 1 {
      SuffixedIsJoinThenSep(xs[..|xs| - 1], sep);
      assert xs[..|xs| - 1][..|xs| - 2] == xs[..|xs| - 2];
    } else {
      assert xs[..0] == [];
    }
  }

  lemma JoinSmall(sep: string, x: string, y: string)
    ensures Join([], sep) == ""
    ensures Join([x], sep) == x
    ensures Join([x, y], sep) == x + sep + y
  {
    assert [x, y][..1] == [x];
  }

  /**
   * What a loop writing each element, followed by `sep` unless it is the
   * last one, has written after its first `i` rounds.
   */
  function Listed(xs: seq<string>, sep: string, i: nat): string
    requires i <= |xs|
    decreases i
  {
    if i == 0 then "" else Listed(xs, sep, i - 1) + ListItem(xs, sep, i - 1)
  }

  /** Round `i` of that loop: the element, then `sep` if another follows. */
  function ListItem(xs: seq<string>, sep: string, i: nat): string
    requires i < |xs|
  {
    if i != |xs| - 1 then xs[i] + sep else xs[i]
  }

  lemma {:induction false} ListedPrefix(xs: seq<string>, sep: string, i: nat)
    requires 0 < i <= |xs|
    ensures Listed(xs, sep, i) == Join(xs[..i], sep) + (if i < |xs| then sep else "")
    decreases i
  {
    if i == 1 {
      assert xs[..1] == [xs[0]];
      assert Listed(xs, sep, 0) == "";
      if |xs| == 1 {
        assert xs[0] + "" == xs[0];
      }
    } else {
      ListedPrefix(xs, sep, i - 1);
      assert xs[..i][..i - 1] == xs[..i - 1];
      var j := Join(xs[..i - 1], sep);
      if i < |xs| {
        assert j + sep + (xs[i - 1] + sep) == j + sep + xs[i - 1] + sep;
      } else {
        assert j + sep + xs[i - 1] == j + sep + xs[i - 1] + "";
      }
    }
  }

  /** One round of that loop, written onto a stream that held `o`. */
  lemma ListedStep(o: string, xs: seq<string>, sep: string, i: nat)
    requires i < |xs|
    ensures i != |xs| - 1 ==> o + Listed(xs, sep, i) + xs[i] + sep == o + Listed(xs, sep, i + 1)
    ensures i == |xs| - 1 ==> o + Listed(xs, sep, i) + xs[i] == o + Listed(xs, sep, i + 1)
  {
    AppendAssoc(o, Listed(xs, sep, i), xs[i]);
    AppendAssoc(o + Listed(xs, sep, i), xs[i], sep);
    AppendAssoc(o, Listed(xs, sep, i), xs[i] + sep);
  }

  /** The separator-unless-last loop writes exactly the join. */
  lemma ListedIsJoin(xs: seq<string>, sep: string)
    ensures Listed(xs, sep, |xs|) == Join(xs, sep)
  {
    if 0 < |xs| {
      ListedPrefix(xs, sep, |xs|);
      assert xs[..|xs|] == xs;
      assert Join(xs, sep) + "" == Join(xs, sep);
    }
  }

  lemma AppendAssoc(a: string, b: string, c: string)
    ensures a + b + c == a + (b + c)
  {
  }

  lemma AppendEmpty(a: string)
    ensures a + "" == a
  {
  }

  /*
   * A stream that received `a`, `b`, ... one after the other holds its old
   * contents followed by their concatenation. Longer runs compose: the
   * prefix of a run is itself a run.
   */

  lemma Regroup3(o: string, a: string, b: string, c: string)
    ensures o + a + b + c == o + (a + b + c)
  {
    AppendAssoc(o, a, b);
    AppendAssoc(o, a + b, c);
  }

  lemma Regroup4(o: string, a: string, b: string, c: string, d: string)
    ensures o + a + b + c + d == o + (a + b + c + d)
  {
    Regroup3(o, a, b, c);
    AppendAssoc(o, a + b + c, d);
  }

  lemma Regroup5(o: string, a: string, b: string, c: string, d: string, e: string)
    ensures o + a + b + c + d + e == o + (a + b + c + d + e)
  {
    Regroup4(o, a, b, c, d);
    AppendAssoc(o, a + b + c + d, e);
  }

  lemma Regroup6(o: string, a: string, b: string, c: string, d: string, e: string, f: string)
    ensures o + a + b + c + d + e + f == o + (a + b + c + d + e + f)
  {
    Regroup5(o, a, b, c, d, e);
    AppendAssoc(o, a + b + c + d + e, f);
  }

  lemma Regroup7(o: string, a: string, b: string, c: string, d: string, e: string, f: string, g: string)
    ensures o + a + b + c + d + e + f + g == o + (a + b + c + d + e + f + g)
  {
    Regroup6(o, a, b, c, d, e, f);
    AppendAssoc(o, a + b + c + d + e + f, g);
  }

  // -------------------------------------------------- size_t and substr

  /** `a - b` computed in `size_t`: wraps below zero. */
  function SizeSub(a: SizeT, b: SizeT): (r: SizeT)
    ensures b <= a ==> r == a - b
    ensures a < b ==> r == SIZE_MOD + a - b
  {
    (a - b) % SIZE_MOD
  }

  /**
   * `s.substr(pos, count)`: the count is clamped to what is left of the
   * string; a `pos` past the end throws, so callers must not pass one.
   */
  function Substr(s: string, pos: SizeT, count: SizeT): (r: string)
    requires pos <= |s|
    ensures |r| == if count < |s| - pos then count else |s| - pos
    ensures r == s[pos..pos + |r|]
  {
    if count < |s| - pos then s[pos..pos + count] else s[pos..]
  }

  /**
   * `s.substr(0, s.size() - 2)`. Two or more characters lose the last two;
   * for shorter strings `size() - 2` wraps to a huge count and the whole
   * string comes back unchanged.
   */
  function TrimLast2(s: string): (r: string)
    requires |s| < SIZE_MOD
    ensures 2 <= |s| ==> r == s[..|s| - 2]
    ensures |s| < 2 ==> r == s
  {
    Substr(s, 0, SizeSub(|s|, 2))
  }

  /**
   * The block header's truncation is sound: every element of the stream is
   * followed by a two-character separator, so dropping the last two
   * characters yields the proper join for zero, one or many elements.
   */
  lemma TrimmedSuffixedIsJoin(xs: seq<string>, sep: string)
    requires |sep| == 2
    requires |Suffixed(xs, sep)| < SIZE_MOD
    ensures TrimLast2(Suffixed(xs, sep)) == Join(xs, sep)
  {
    if |xs| > 0 {
      SuffixedIsJoinThenSep(xs, sep);
      var j := Join(xs, sep);
      assert (j + sep)[..|j + sep| - 2] == j;
    }
  }

  // --------------------------------------------------------------- newlines

  predicate NoNewline(s: string) { '\n' !in s }

  /** The number of line breaks in `s`. */
  function NewlineCount(s: string): nat
    decreases |s|
  {
    if |s| == 0 then 0
    else NewlineCount(s[..|s| - 1]) + (if s[|s| - 1] == '\n' then 1 else 0)
  }

  lemma {:induction false} NewlineCountAppend(a: string, b: string)
    ensures NewlineCount(a + b) == NewlineCount(a) + NewlineCount(b)
    decreases |b|
  {
    if |b| == 0 {
      assert a + b == a;
    } else {
      assert (a + b)[..|a + b| - 1] == a + b[..|b| - 1];
      NewlineCountAppend(a, b[..|b| - 1]);
    }
  }

  lemma {:induction false} NoNewlineCount(s: string)
    ensures NoNewline(s) <==> NewlineCount(s) == 0
    decreases |s|
  {
    if |s| > 0 {
      var init := s[..|s| - 1];
      assert s == init + [s[|s| - 1]];
      NoNewlineCount(init);
    }
  }

  /** A line: newline-free text followed by one line break. */
  predicate IsLine(s: string)
  {
    0 < |s| && s[|s| - 1] == '\n' && NoNewline(s[..|s| - 1])
  }

  lemma IsLineCount(s: string)
    requires IsLine(s)
    ensures NewlineCount(s) == 1
  {
    NoNewlineCount(s[..|s| - 1]);
  }

  lemma IntStrNoNewline(i: int)
    ensures NoNewline(IntStr(i))
  {
    var s := IntStr(i);
    var digits := if i < 0 then NatStr(-i) else NatStr(i);
    assert forall j :: 0 <= j < |s| ==> s[j] == '-' || IsDigit(s[j]) by {
      if i < 0 {
        assert forall j :: 1 <= j < |s| ==> s[j] == digits[j - 1];
      }
    }
  }

  lemma {:induction false} JoinNoNewline(xs: seq<string>, sep: string)
    requires NoNewline(sep)
    requires forall i :: 0 <= i < |xs| ==> NoNewline(xs[i])
    ensures NoNewline(Join(xs, sep))
    decreases |xs|
  {
    if |xs| > 1 {
      JoinNoNewline(xs[..|xs| - 1], sep);
    }
  }
}

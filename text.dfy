/** String helpers the source gets from Python's standard library:
    `sep.join`, decimal rendering of integers, zero padding, `str.strip` and
    `os.path.join`; and `str.split` with a reader for decimal numbers, which the
    round-trip lemmas of the renderings use. */
module Text {
  import opened Wrappers

  /** `sep.join(parts)`: the parts with one `sep` between neighbours. */
  function Join(sep: string, parts: seq<string>): string
  {
    if |parts| == 0 then ""
    else if |parts| == 1 then parts[0]
    else Join(sep, parts[..|parts| - 1]) + sep + parts[|parts| - 1]
  }

  /** Joining two non-empty runs puts exactly one separator between them. */
  lemma {:induction false} JoinAppend(sep: string, a: seq<string>, b: seq<string>)
    requires |a| > 0 && |b| > 0
    ensures Join(sep, a + b) == Join(sep, a) + sep + Join(sep, b)
    decreases |b|
  {
    if |b| == 1 {
      assert (a + b)[..|a + b| - 1] == a;
    } else {
      var b' := b[..|b| - 1];
      assert (a + b)[..|a + b| - 1] == a + b';
      JoinAppend(sep, a, b');
    }
  }

  /** Appending one part adds the separator and the part, and nothing else. */
  lemma JoinSnoc(sep: string, a: seq<string>, x: string)
    ensures Join(sep, a + [x]) == if |a| == 0 then x else Join(sep, a) + sep + x
  {
    if |a| == 0 {
      assert a + [x] == [x];
    } else {
      assert (a + [x])[..|a + [x]| - 1] == a;
    }
  }

  // ---------------------------------------------------------------
  // Decimal rendering (`str(n)`, `f"{n}"`, `f"{n:02d}"`)
  // ---------------------------------------------------------------

  predicate IsDigit(c: char)
  {
    '0' <= c <= '9'
  }

  function DigitChar(d: nat): (c: char)
    requires d < 10
    ensures IsDigit(c) && DigitValue(c) == d
  {
    ['0', '1', '2', '3', '4', '5', '6', '7', '8', '9'][d]
  }

  function DigitValue(c: char): nat
    requires IsDigit(c)
  {
    (c as int) - ('0' as int)
  }

  /** Decimal digits of `n`, most significant first, without leading zeros. */
  function NatToString(n: nat): (s: string)
    ensures |s| > 0 && forall i :: 0 <= i < |s| ==> IsDigit(s[i])
    ensures |s| > 1 ==> s[0] != '0'
  {
    if n < 10 then [DigitChar(n)] else NatToString(n / 10) + [DigitChar(n % 10)]
  }

  /** The value a string of decimal digits denotes (`int(s)`). */
  function ParseDigits(s: string): nat
    requires forall i :: 0 <= i < |s| ==> IsDigit(s[i])
  {
    if |s| == 0 then 0 else 10 * ParseDigits(s[..|s| - 1]) + DigitValue(s[|s| - 1])
  }

  /** Reading back the rendered digits gives the number: the rendering loses nothing. */
  lemma {:induction false} NatToStringRoundTrip(n: nat)
    ensures ParseDigits(NatToString(n)) == n
  {
    if n >= 10 {
      var s := NatToString(n);
      assert s[..|s| - 1] == NatToString(n / 10);
      NatToStringRoundTrip(n / 10);
    }
  }

  /** Distinct numbers render differently. */
  lemma NatToStringInjective(m: nat, n: nat)
    requires NatToString(m) == NatToString(n)
    ensures m == n
  {
    NatToStringRoundTrip(m);
    NatToStringRoundTrip(n);
  }

  /** `str(i)` for any integer: a minus sign before the digits of a negative value. */
  function IntToString(i: int): (s: string)
    ensures i < 0 <==> (|s| > 0 && s[0] == '-')
  {
    if i < 0 then "-" + NatToString(-i) else NatToString(i)
  }

  /** `f"{n:0wd}"` for a non-negative n: left-padded with zeros to at least `width` characters. */
  function ZeroPad(n: nat, width: nat): (s: string)
    ensures |s| == if |NatToString(n)| < width then width else |NatToString(n)|
    ensures s[|s| - |NatToString(n)|..] == NatToString(n)
    ensures forall i :: 0 <= i < |s| - |NatToString(n)| ==> s[i] == '0'
  {
    Zeros(width - |NatToString(n)|) + NatToString(n)
  }

  /** Zero padding loses nothing: distinct numbers pad to distinct strings. */
  lemma ZeroPadInjective(m: nat, n: nat, width: nat)
    requires ZeroPad(m, width) == ZeroPad(n, width)
    ensures m == n
  {
    if |NatToString(m)| == |NatToString(n)| {
      NatToStringInjective(m, n);
    }
  }

  function Zeros(k: int): (s: string)
    ensures |s| == if k < 0 then 0 else k
    ensures forall i :: 0 <= i < |s| ==> s[i] == '0'
    decreases k
  {
    if k <= 0 then "" else "0" + Zeros(k - 1)
  }

  // ---------------------------------------------------------------
  // `str.strip()`
  // ---------------------------------------------------------------

  /** Python's `str.isspace` for one character: the ASCII whitespace and separator
      controls, NEL, NO-BREAK SPACE and the Unicode space separators. */
  predicate IsSpace(c: char)
  {
    var k := c as int;
    (9 <= k <= 13) || (28 <= k <= 32) || k == 0x85 || k == 0xA0 || k == 0x1680
    || (0x2000 <= k <= 0x200A) || k == 0x2028 || k == 0x2029 || k == 0x202F
    || k == 0x205F || k == 0x3000
  }

  /** Neither end is whitespace. */
  predicate IsStripped(s: string)
  {
    |s| == 0 || (!IsSpace(s[0]) && !IsSpace(s[|s| - 1]))
  }

  /** `s.lstrip()`: the suffix left after dropping the leading whitespace. */
  function TrimLeft(s: string): string
  {
    if |s| > 0 && IsSpace(s[0]) then TrimLeft(s[1..]) else s
  }

  /** `s.rstrip()`: the prefix left after dropping the trailing whitespace. */
  function TrimRight(s: string): string
  {
    if |s| > 0 && IsSpace(s[|s| - 1]) then TrimRight(s[..|s| - 1]) else s
  }

  /** `s.strip()`: the slice between the leading and the trailing whitespace. */
  function Strip(s: string): string
  {
    TrimLeft(TrimRight(s))
  }

  /** lstrip keeps a suffix, drops only whitespace, and stops at a non-space. */
  lemma {:induction false} TrimLeftSpec(s: string)
    ensures |TrimLeft(s)| <= |s| && TrimLeft(s) == s[|s| - |TrimLeft(s)|..]
    ensures forall i :: 0 <= i < |s| - |TrimLeft(s)| ==> IsSpace(s[i])
    ensures |TrimLeft(s)| == 0 || !IsSpace(TrimLeft(s)[0])
  {
    if |s| > 0 && IsSpace(s[0]) {
      TrimLeftSpec(s[1..]);
      forall i | 1 <= i < |s| - |TrimLeft(s)|
        ensures IsSpace(s[i])
      {
        assert s[i] == s[1..][i - 1];
      }
    }
  }

  /** rstrip keeps a prefix, drops only whitespace, and stops at a non-space. */
  lemma {:induction false} TrimRightSpec(s: string)
    ensures |TrimRight(s)| <= |s| && TrimRight(s) == s[..|TrimRight(s)|]
    ensures forall i :: |TrimRight(s)| <= i < |s| ==> IsSpace(s[i])
    ensures |TrimRight(s)| == 0 || !IsSpace(TrimRight(s)[|TrimRight(s)| - 1])
  {
    if |s| > 0 && IsSpace(s[|s| - 1]) {
      TrimRightSpec(s[..|s| - 1]);
      forall i | |TrimRight(s)| <= i < |s| - 1
        ensures IsSpace(s[i])
      {
        assert s[i] == s[..|s| - 1][i];
      }
    }
  }

  /** What strip returns has no whitespace at either end. */
  lemma StripStripped(s: string)
    ensures IsStripped(Strip(s))
  {
    var t := TrimRight(s);
    var r := TrimLeft(t);
    TrimRightSpec(s);
    TrimLeftSpec(t);
    if |r| > 0 {
      assert r[|r| - 1] == t[|t| - 1];
    }
  }

  /** Every character is whitespace. */
  predicate AllSpace(s: string)
  {
    forall i :: 0 <= i < |s| ==> IsSpace(s[i])
  }

  /** Strip returns a slice of the input. */
  lemma StripSlice(s: string)
    ensures |Strip(s)| <= |TrimRight(s)| <= |s|
    ensures Strip(s) == s[|TrimRight(s)| - |Strip(s)|..|TrimRight(s)|]
  {
    var t := TrimRight(s);
    var r := TrimLeft(t);
    TrimRightSpec(s);
    TrimLeftSpec(t);
    assert s[..|t|][|t| - |r|..] == s[|t| - |r|..|t|];
  }

  /** Everything strip cuts off, before and after the slice it returns, is whitespace. */
  lemma StripCutsSpace(s: string)
    ensures |Strip(s)| <= |TrimRight(s)| <= |s|
    ensures AllSpace(s[..|TrimRight(s)| - |Strip(s)|]) && AllSpace(s[|TrimRight(s)|..])
  {
    var t := TrimRight(s);
    var r := TrimLeft(t);
    TrimRightSpec(s);
    TrimLeftSpec(t);
    var lead, trail := s[..|t| - |r|], s[|t|..];
    forall i | 0 <= i < |lead|
      ensures IsSpace(lead[i])
    {
      assert lead[i] == t[i];
    }
    forall i | 0 <= i < |trail|
      ensures IsSpace(trail[i])
    {
      assert trail[i] == s[|t| + i];
    }
  }

  /** Stripping twice is the same as stripping once. */
  lemma StripIdempotent(s: string)
    ensures Strip(Strip(s)) == Strip(s)
  {
    StripStripped(s);
    StrippedIsFixed(Strip(s));
  }

  /** A string with no whitespace at either end is its own strip. */
  lemma StrippedIsFixed(s: string)
    requires IsStripped(s)
    ensures Strip(s) == s
  {
    if |s| > 0 {
      assert TrimRight(s) == s;
    }
  }

  // ---------------------------------------------------------------
  // `os.path.join`
  // ---------------------------------------------------------------

  /** POSIX `os.path.join(dir, name)`: an absolute `name` replaces `dir`; otherwise a
      separator is inserted unless `dir` is empty or already ends with one. The joined
      path always ends with `name` (`PathJoinEnds`). */
  function PathJoin(dir: string, name: string): string
  {
    if |name| > 0 && name[0] == '/' then name
    else if dir == [] || dir[|dir| - 1] == '/' then dir + name
    else dir + "/" + name
  }

  /** The joined path ends with the name, and is the name when that is absolute. */
  lemma PathJoinEnds(dir: string, name: string)
    ensures |name| <= |PathJoin(dir, name)| && PathJoin(dir, name)[|PathJoin(dir, name)| - |name|..] == name
    ensures |name| > 0 && name[0] == '/' ==> PathJoin(dir, name) == name
  {
    var p := PathJoin(dir, name);
    if !(|name| > 0 && name[0] == '/') {
      if dir == [] || dir[|dir| - 1] == '/' {
        assert p == dir + name;
      } else {
        assert p == (dir + "/") + name;
      }
    }
  }

  // ---------------------------------------------------------------
  // Reading rendered text back
  // ---------------------------------------------------------------

  /** A common prefix cancels. */
  lemma PrefixCancel(x: string, a: string, b: string)
    requires x + a == x + b
    ensures a == b
  {
    assert a == (x + a)[|x|..];
  }

  /** The first separator splits a string uniquely: pieces before it that hold no
      separator are equal, and so are the rests after it. */
  lemma FirstSeparator(sep: char, a: string, b: string, c: string, d: string)
    requires sep !in a && sep !in c
    requires a + [sep] + b == c + [sep] + d
    ensures a == c && b == d
  {
    var s := a + [sep] + b;
    FirstSeparatorAt(sep, a, b);
    FirstSeparatorAt(sep, c, d);
    assert |a| == |c|;
    assert a == s[..|a|] == c;
    assert b == s[|a| + 1..] == d;
  }

  /** Where the first separator stands. */
  lemma FirstSeparatorAt(sep: char, a: string, b: string)
    requires sep !in a
    ensures (a + [sep] + b)[|a|] == sep
    ensures forall i :: 0 <= i < |a| ==> (a + [sep] + b)[i] != sep
  {
  }

  /** One line per item, each the item after `prefix`: the bullet lists of the
      renderings. */
  function Prefixed(prefix: string, items: seq<string>): (r: seq<string>)
    ensures |r| == |items|
  {
    if |items| == 0 then []
    else Prefixed(prefix, items[..|items| - 1]) + [prefix + items[|items| - 1]]
  }

  /** Line `k` is `prefix` followed by item `k`. */
  lemma {:induction false} PrefixedAt(prefix: string, items: seq<string>, k: nat)
    requires k < |items|
    ensures Prefixed(prefix, items)[k] == prefix + items[k]
  {
    if k < |items| - 1 {
      PrefixedAt(prefix, items[..|items| - 1], k);
    }
  }

  /** The lines hold no newline when neither the prefix nor the items do. */
  lemma {:induction false} PrefixedOneLine(prefix: string, items: seq<string>)
    requires '\n' !in prefix && forall b :: b in items ==> '\n' !in b
    ensures forall k :: 0 <= k < |Prefixed(prefix, items)| ==> '\n' !in Prefixed(prefix, items)[k]
  {
    if |items| > 0 {
      PrefixedOneLine(prefix, items[..|items| - 1]);
    }
  }

  /** `s.startswith(prefix)`. */
  predicate StartsWith(s: string, prefix: string)
  {
    |prefix| <= |s| && s[..|prefix|] == prefix
  }

  /** `s.split(sep)` for a one-character separator: the pieces between separators,
      always at least one. */
  function Split(sep: char, s: string): (r: seq<string>)
    ensures |r| > 0
  {
    if |s| == 0 then [""]
    else
      var init := Split(sep, s[..|s| - 1]);
      if s[|s| - 1] == sep then init + [""]
      else init[..|init| - 1] + [init[|init| - 1] + [s[|s| - 1]]]
  }

  /** A separator followed by a piece without separators ends the split with that piece. */
  lemma {:induction false} SplitAppendPiece(sep: char, u: string, x: string)
    requires sep !in x
    ensures Split(sep, u + [sep] + x) == Split(sep, u) + [x]
    decreases |x|
  {
    if |x| == 0 {
      assert u + [sep] + x == u + [sep];
      assert (u + [sep])[..|u|] == u;
    } else {
      var x' := x[..|x| - 1];
      SplitAppendPiece(sep, u, x');
      var s := u + [sep] + x;
      assert s[..|s| - 1] == u + [sep] + x';
      assert s[|s| - 1] == x[|x| - 1];
      assert x' + [x[|x| - 1]] == x;
    }
  }

  /** A string without separators is one piece. */
  lemma {:induction false} SplitPiece(sep: char, x: string)
    requires sep !in x
    ensures Split(sep, x) == [x]
  {
    if |x| > 0 {
      var x' := x[..|x| - 1];
      SplitPiece(sep, x');
      assert x' + [x[|x| - 1]] == x;
    }
  }

  /** Splitting what was joined gives the parts back when no part holds the separator. */
  lemma {:induction false} SplitJoin(sep: char, parts: seq<string>)
    requires |parts| > 0
    requires forall k :: 0 <= k < |parts| ==> sep !in parts[k]
    ensures Split(sep, Join([sep], parts)) == parts
  {
    if |parts| == 1 {
      SplitPiece(sep, parts[0]);
    } else {
      var init, last := parts[..|parts| - 1], parts[|parts| - 1];
      assert init + [last] == parts;
      assert forall k :: 0 <= k < |init| ==> init[k] == parts[k];
      SplitJoin(sep, init);
      SplitJoinSnoc(sep, init, last);
    }
  }

  /** One more part, joined on, becomes one more piece of the split. */
  lemma SplitJoinSnoc(sep: char, init: seq<string>, last: string)
    requires |init| > 0 && sep !in last
    requires Split(sep, Join([sep], init)) == init
    ensures Split(sep, Join([sep], init + [last])) == init + [last]
  {
    JoinSnoc([sep], init, last);
    SplitAppendPiece(sep, Join([sep], init), last);
  }

  /** The number of leading decimal digits. */
  function DigitRun(s: string): (n: nat)
    ensures n <= |s| && forall i :: 0 <= i < n ==> IsDigit(s[i])
    ensures n < |s| ==> !IsDigit(s[n])
  {
    if |s| > 0 && IsDigit(s[0]) then 1 + DigitRun(s[1..]) else 0
  }

  /** Digits followed by a non-digit (or nothing) form exactly the leading run. */
  lemma {:induction false} DigitRunOf(d: string, rest: string)
    requires forall i :: 0 <= i < |d| ==> IsDigit(d[i])
    requires |rest| == 0 || !IsDigit(rest[0])
    ensures DigitRun(d + rest) == |d|
  {
    if |d| > 0 {
      assert (d + rest)[1..] == d[1..] + rest;
      DigitRunOf(d[1..], rest);
    } else {
      assert d + rest == rest;
    }
  }

  /** Read a non-negative decimal number off the front of `s`. */
  function ReadNat(s: string): Option<(nat, string)>
  {
    var n := DigitRun(s);
    if n == 0 then None else Some((ParseDigits(s[..n]), s[n..]))
  }

  /** Read an integer, with an optional minus sign, off the front of `s`. */
  function ReadInt(s: string): Option<(int, string)>
  {
    var negative := |s| > 0 && s[0] == '-';
    var r := ReadNat(if negative then s[1..] else s);
    if r.None? then None
    else
      var n: int := r.value.0;
      var v := if negative then -n else n;
      Some((v, r.value.1))
  }

  /** Reading a rendered number back stops at the following non-digit and gives the
      number. */
  lemma ReadNatRendered(n: nat, rest: string)
    requires |rest| == 0 || !IsDigit(rest[0])
    ensures ReadNat(NatToString(n) + rest) == Some((n, rest))
  {
    var d := NatToString(n);
    DigitRunOf(d, rest);
    assert (d + rest)[..|d|] == d && (d + rest)[|d|..] == rest;
    NatToStringRoundTrip(n);
  }

  /** The same for `str(i)` of any integer. */
  lemma ReadIntRendered(i: int, rest: string)
    requires |rest| == 0 || !IsDigit(rest[0])
    ensures ReadInt(IntToString(i) + rest) == Some((i, rest))
  {
    if i < 0 {
      ReadNegativeRendered(i, rest);
    } else {
      ReadNatRendered(i, rest);
      assert IntToString(i) + rest == NatToString(i) + rest;
    }
  }

  lemma ReadNegativeRendered(i: int, rest: string)
    requires i < 0 && (|rest| == 0 || !IsDigit(rest[0]))
    ensures ReadInt(IntToString(i) + rest) == Some((i, rest))
  {
    var m: nat := -i;
    var d := NatToString(m);
    var t := ['-'] + (d + rest);
    assert IntToString(i) == ['-'] + d;
    assert IntToString(i) + rest == t;
    assert t[1..] == d + rest;
    ReadNatRendered(m, rest);
    ReadIntMinus(t, m, rest);
  }

  /** A minus sign followed by a number reads as the negated number. */
  lemma ReadIntMinus(t: string, m: nat, rest: string)
    requires |t| > 0 && t[0] == '-' && ReadNat(t[1..]) == Some((m, rest))
    ensures ReadInt(t) == Some((-(m as int), rest))
  {
  }
}

/**
 * The parts of Go's `strings` and `fmt` packages that the proxy relies on,
 * restricted to the one-character separators it actually passes.
 * Strings are sequences of characters; every separator used is ASCII, and an
 * ASCII byte never occurs inside a multi-byte UTF-8 sequence, so splitting
 * characters and splitting bytes agree.
 */
module GoStrings {

  /** `strings.Index(s, string(c))`: the first position of `c` in `s`, or -1. */
  function IndexOf(s: string, c: char): (r: int)
    ensures -1 <= r < |s|
    ensures r == -1 <==> c !in s
    ensures r >= 0 ==> s[r] == c && c !in s[..r]
  {
    if |s| == 0 then -1
    else if s[0] == c then 0
    else
      var i := IndexOf(s[1..], c);
      if i == -1 then -1
      else
        assert s[..i + 1] == [s[0]] + s[1..][..i];
        i + 1
  }

  /** The longest prefix of `s` that does not contain `c`: the text before its first occurrence. */
  function Before(s: string, c: char): (r: string)
    ensures c !in r
    ensures r <= s
    ensures |r| < |s| ==> s[|r|] == c
  {
    if |s| == 0 then ""
    else if s[0] == c then ""
    else [s[0]] + Before(s[1..], c)
  }

  /** `IndexOf` and `Before` locate the same first occurrence. */
  lemma BeforeIndexOf(s: string, c: char)
    ensures IndexOf(s, c) == -1 ==> Before(s, c) == s
    ensures IndexOf(s, c) >= 0 ==> Before(s, c) == s[..IndexOf(s, c)]
  {
  }

  /** Text that has no `c` is kept whole by `Before`, and the search continues after it. */
  lemma {:induction false} BeforeAppend(x: string, y: string, c: char)
    requires c !in x
    ensures Before(x + y, c) == x + Before(y, c)
  {
    if |x| > 0 {
      var t := x[1..];
      assert x == [x[0]] + t;
      assert x[0] != c;
      assert (x + y)[0] == x[0] && (x + y)[1..] == t + y;
      assert Before(x + y, c) == [x[0]] + Before(t + y, c);
      BeforeAppend(t, y, c);
      assert [x[0]] + (t + Before(y, c)) == x + Before(y, c);
    } else {
      assert x + y == y;
    }
  }

  /** A one-character separator between a separator-free head and any tail splits at a unique place. */
  lemma SeparatedUnique(a1: string, b1: string, a2: string, b2: string, c: char)
    requires c !in a1 && c !in a2
    requires a1 + [c] + b1 == a2 + [c] + b2
    ensures a1 == a2 && b1 == b2
  {
    var s := a1 + [c] + b1;
    assert s == a1 + ([c] + b1) == a2 + ([c] + b2);
    BeforeAppend(a1, [c] + b1, c);
    BeforeAppend(a2, [c] + b2, c);
    assert Before([c] + b1, c) == [] && Before([c] + b2, c) == [];
    assert a1 == Before(s, c) == a2;
    assert b1 == s[|a1| + 1..] == b2;
  }

  /** The longest suffix of `s` that does not contain `c`: the text after its last occurrence. */
  function After(s: string, c: char): (r: string)
    ensures c !in r
    ensures |r| <= |s| && r == s[|s| - |r|..]
  {
    if |s| == 0 then ""
    else if s[|s| - 1] == c then ""
    else After(s[..|s| - 1], c) + [s[|s| - 1]]
  }

  /** Text that has no `c` is kept whole at the end by `After`. */
  lemma {:induction false} AfterAppend(x: string, y: string, c: char)
    requires c !in y
    ensures After(x + y, c) == After(x, c) + y
  {
    if |y| > 0 {
      var y' := y[..|y| - 1];
      assert (x + y)[..|x + y| - 1] == x + y';
      AfterAppend(x, y', c);
      assert y == y' + [y[|y| - 1]];
    } else {
      assert x + y == x;
    }
  }

  /** The same from the other end: a separator-free tail fixes where the last separator is. */
  lemma SeparatedUniqueFromEnd(a1: string, b1: string, a2: string, b2: string, c: char)
    requires c !in b1 && c !in b2
    requires a1 + [c] + b1 == a2 + [c] + b2
    ensures a1 == a2 && b1 == b2
  {
    var s := a1 + [c] + b1;
    AfterAppend(a1 + [c], b1, c);
    AfterAppend(a2 + [c], b2, c);
    assert After(a1 + [c], c) == "" && After(a2 + [c], c) == "";
    assert b1 == b2;
    assert a1 == s[..|a1|] == a2;
  }

  /** `strings.Join(parts, string(sep))`. */
  function Join(parts: seq<string>, sep: char): string
  {
    if |parts| == 0 then ""
    else if |parts| == 1 then parts[0]
    else parts[0] + [sep] + Join(parts[1..], sep)
  }

  /**
   * `strings.Split(s, string(sep))`: the pieces between the separators. Go
   * documents (and the contract proves) that the result is never empty, and
   * joining the pieces back gives `s`.
   */
  function Split(s: string, sep: char): (parts: seq<string>)
    ensures |parts| >= 1
    ensures parts[0] == Before(s, sep)
    ensures forall i :: 0 <= i < |parts| ==> sep !in parts[i]
    ensures Join(parts, sep) == s
    decreases |s|
  {
    var i := IndexOf(s, sep);
    BeforeIndexOf(s, sep);
    if i == -1 then [s]
    else
      var rest := Split(s[i + 1..], sep);
      var parts := [s[..i]] + rest;
      assert parts[1..] == rest;
      assert forall j :: 1 <= j < |parts| ==> parts[j] == rest[j - 1];
      assert Join(parts, sep) == s[..i] + [sep] + s[i + 1..] == s;
      parts
  }

  /** Splitting undoes joining, for pieces free of the separator. */
  lemma {:induction false} SplitJoin(parts: seq<string>, sep: char)
    requires |parts| >= 1
    requires forall i :: 0 <= i < |parts| ==> sep !in parts[i]
    ensures Split(Join(parts, sep), sep) == parts
  {
    if |parts| == 1 {
      BeforeIndexOf(parts[0], sep);
    } else {
      var tail := Join(parts[1..], sep);
      assert Join(parts, sep) == parts[0] + [sep] + tail;
      SplitAtFirst(parts[0], tail, sep);
      SplitJoin(parts[1..], sep);
      assert parts == [parts[0]] + parts[1..];
    }
  }

  /** A separator-free head followed by the separator is split off as the first piece. */
  lemma SplitAtFirst(head: string, tail: string, sep: char)
    requires sep !in head
    ensures Split(head + [sep] + tail, sep) == [head] + Split(tail, sep)
  {
    var s := head + [sep] + tail;
    assert s == head + ([sep] + tail);
    BeforeAppend(head, [sep] + tail, sep);
    BeforeIndexOf(s, sep);
    assert IndexOf(s, sep) == |head|;
    assert s[..|head|] == head && s[|head| + 1..] == tail;
  }

  /** `strings.SplitN(s, string(sep), 2)`: the text before the first `sep` and everything after it. */
  function SplitN2(s: string, sep: char): (parts: seq<string>)
    ensures 1 <= |parts| <= 2
    ensures |parts| == 2 <==> sep in s
    ensures |parts| == 1 ==> parts[0] == s
    ensures |parts| == 2 ==> parts[0] + [sep] + parts[1] == s && sep !in parts[0]
  {
    var i := IndexOf(s, sep);
    if i == -1 then [s]
    else
      assert s == s[..i] + [sep] + s[i + 1..];
      [s[..i], s[i + 1..]]
  }

  predicate IsDigit(c: char) {
    '0' <= c <= '9'
  }

  function DigitChar(d: nat): char
    requires d < 10
  {
    (48 + d) as char
  }

  /** `fmt.Sprintf("%d", n)` for a non-negative `n`: decimal digits without leading zeros. */
  function Itoa(n: nat): (s: string)
    ensures |s| >= 1
    ensures forall i :: 0 <= i < |s| ==> IsDigit(s[i])
    ensures |s| > 1 ==> s[0] != '0'
  {
    if n < 10 then [DigitChar(n)] else Itoa(n / 10) + [DigitChar(n % 10)]
  }

  /** The number a string of decimal digits denotes (the reading of a Content-Length value). */
  function Atoi(s: string): nat
    requires forall i :: 0 <= i < |s| ==> IsDigit(s[i])
  {
    if |s| == 0 then 0
    else
      assert IsDigit(s[|s| - 1]);
      Atoi(s[..|s| - 1]) * 10 + (s[|s| - 1] as int - '0' as int)
  }

  /** Reading back what `Itoa` wrote gives the number. */
  lemma {:induction false} AtoiItoa(n: nat)
    ensures Atoi(Itoa(n)) == n
  {
    if n >= 10 {
      var s := Itoa(n);
      assert s[..|s| - 1] == Itoa(n / 10);
      AtoiItoa(n / 10);
    }
  }
}

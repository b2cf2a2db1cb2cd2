/** String helpers shared by the prompt compiler and the response
    handling: prefix and suffix tests, `Array.prototype.join` and
    `String.prototype.split` on one character, and the decimal form of a
    number. */
module Strings {

  predicate Occurs(s: string, t: string, at: nat) {
    at + |s| <= |t| && t[at..at + |s|] == s
  }

  predicate EndsWith(t: string, s: string) {
    |s| <= |t| && t[|t| - |s|..] == s
  }

  /** The decimal form of a number, as a template literal prints it. */
  function NatToString(n: nat): (s: string)
    ensures s != [] && IsDecimal(s)
    ensures n > 0 ==> s[0] != '0'
    ensures DecimalValue(s) == n
  {
    if n < 10 then [DigitChar(n)]
    else
      var s := NatToString(n / 10) + [DigitChar(n % 10)];
      assert s[..|s| - 1] == NatToString(n / 10);
      s
  }

  function DigitChar(d: nat): (c: char)
    requires d < 10
    ensures '0' <= c <= '9' && (c as int) - ('0' as int) == d
  {
    (('0' as int) + d) as char
  }

  predicate IsDecimal(s: string) {
    forall i :: 0 <= i < |s| ==> '0' <= s[i] <= '9'
  }

  function DecimalValue(s: string): nat
    requires IsDecimal(s)
  {
    if s == [] then 0
    else DecimalValue(s[..|s| - 1]) * 10 + ((s[|s| - 1] as int) - ('0' as int))
  }

  /** `xs.join(sep)` */
  function Join(xs: seq<string>, sep: string): string {
    if xs == [] then ""
    else if |xs| == 1 then xs[0]
    else xs[0] + sep + Join(xs[1..], sep)
  }

  /** Joining a longer list adds the separator and the new item at the end. */
  lemma {:induction false} JoinSnoc(xs: seq<string>, x: string, sep: string)
    requires xs != []
    ensures Join(xs + [x], sep) == Join(xs, sep) + sep + x
  {
    if |xs| == 1 {
      assert (xs + [x])[1..] == [x];
    } else {
      assert (xs + [x])[1..] == xs[1..] + [x];
      JoinSnoc(xs[1..], x, sep);
    }
  }

  /** The joined text starts with the first item and ends with the last, each
      cut from its neighbour by exactly one separator. */
  lemma {:induction false} JoinEnds(xs: seq<string>, sep: string)
    requires |xs| >= 2
    ensures Join(xs, sep) == xs[0] + sep + Join(xs[1..], sep)
    ensures EndsWith(Join(xs, sep), sep + xs[|xs| - 1])
  {
    var init := xs[..|xs| - 1];
    assert xs == init + [xs[|xs| - 1]];
    JoinSnoc(init, xs[|xs| - 1], sep);
    var j := Join(init, sep) + sep + xs[|xs| - 1];
    assert j[|j| - |sep + xs[|xs| - 1]|..] == sep + xs[|xs| - 1];
  }

  predicate StartsWith(t: string, p: string) {
    |p| <= |t| && t[..|p|] == p
  }

  lemma {:induction false} JoinOpening(n: seq<string>, sep: string, pre: string, p1: string, p2: string)
    requires |n| >= 4
    ensures StartsWith(pre + Join(n, sep) + p1 + p2, pre + (n[0] + sep + n[1] + sep + n[2] + sep))
  {
    JoinEnds(n, sep);
    JoinEnds(n[1..], sep);
    JoinEnds(n[2..], sep);
    assert n[1..][1..] == n[2..] && n[2..][1..] == n[3..];
    var o := n[0] + sep + n[1] + sep + n[2] + sep;
    assert pre + Join(n, sep) + p1 + p2 == pre + o + (Join(n[3..], sep) + p1 + p2);
  }

  lemma {:induction false} JoinClosing(n: seq<string>, sep: string, pre: string, p1: string, p2: string)
    requires |n| >= 3
    ensures EndsWith(pre + Join(n, sep) + p1 + p2, sep + (n[|n| - 2] + sep + n[|n| - 1] + p1 + p2))
  {
    var k := |n|;
    assert n == n[..k - 2] + [n[k - 2]] + [n[k - 1]];
    JoinSnoc(n[..k - 2] + [n[k - 2]], n[k - 1], sep);
    JoinSnoc(n[..k - 2], n[k - 2], sep);
    var c := sep + (n[k - 2] + sep + n[k - 1] + p1 + p2);
    var t := pre + Join(n, sep) + p1 + p2;
    assert t == pre + Join(n[..k - 2], sep) + c;
  }

  /** A prefix of the text after position `k` occurs at `k`. */
  lemma OccursAfter(t: string, k: nat, s: string)
    requires k <= |t| && StartsWith(t[k..], s)
    ensures Occurs(s, t, k)
  {
    assert t[k..k + |s|] == t[k..][..|s|];
  }

  lemma EndsWithSuffix(t: string, a: string, b: string)
    requires EndsWith(t, a + b)
    ensures EndsWith(t, b)
  {
    assert t[|t| - |b|..] == (a + b)[|a|..];
  }

  lemma EndsWithLast(t: string, a: string)
    requires EndsWith(t, a) && a != []
    ensures t[|t| - 1] == a[|a| - 1]
  {
    assert t[|t| - 1] == t[|t| - |a|..][|a| - 1];
  }

  /** Extending the first item extends the joined text at the front. */
  lemma JoinExtendHead(a: string, xs: seq<string>, sep: string)
    requires xs != []
    ensures Join([a + xs[0]] + xs[1..], sep) == a + Join(xs, sep)
  {
    if |xs| > 1 {
      assert ([a + xs[0]] + xs[1..])[1..] == xs[1..];
    }
  }

  /** `s.split(sep)` for a one-character separator: the pieces between the
      separators, in order; joining them back with the separator gives `s`. */
  function Split(s: string, sep: char): (r: seq<string>)
    ensures |r| >= 1
    ensures Join(r, [sep]) == s
    ensures forall i :: 0 <= i < |r| ==> sep !in r[i]
  {
    if s == [] then [""]
    else
      var rest := Split(s[1..], sep);
      if s[0] == sep then
        assert s == [sep] + s[1..];
        [""] + rest
      else
        JoinExtendHead([s[0]], rest, [sep]);
        assert s == [s[0]] + s[1..];
        [[s[0]] + rest[0]] + rest[1..]
  }

  /** Text without the separator is one piece. */
  lemma {:induction false} SplitWhole(s: string, sep: char)
    requires sep !in s
    ensures Split(s, sep) == [s]
  {
    if s != [] {
      SplitWhole(s[1..], sep);
    }
  }

  /** Two separator-free pieces around one separator split back apart. */
  lemma {:induction false} SplitPair(x: string, y: string, sep: char)
    requires sep !in x && sep !in y
    ensures Split(x + [sep] + y, sep) == [x, y]
  {
    var s := x + [sep] + y;
    if x == [] {
      assert s[1..] == y;
      SplitWhole(y, sep);
    } else {
      assert s[1..] == x[1..] + [sep] + y;
      SplitPair(x[1..], y, sep);
      assert [x[0]] + x[1..] == x;
    }
  }
}

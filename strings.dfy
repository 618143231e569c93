/** Strings as the event loop sees them: the order std::map keeps its keys in,
    and the decimal rendering std::to_string gives to integers. */
module Strings {

  /** Lexicographic order on strings, character by character: the order in
      which a std::map<std::string, ...> is iterated. */
  predicate LexLe(a: string, b: string)
    decreases |a|
  {
    a == [] || (b != [] && (a[0] < b[0] || (a[0] == b[0] && LexLe(a[1..], b[1..]))))
  }

  lemma {:induction false} LexLeReflexive(a: string)
    ensures LexLe(a, a)
    decreases |a|
  {
    if a != [] {
      LexLeReflexive(a[1..]);
    }
  }

  lemma {:induction false} LexLeTotal(a: string, b: string)
    ensures LexLe(a, b) || LexLe(b, a)
    decreases |a|
  {
    if a != [] && b != [] && a[0] == b[0] {
      LexLeTotal(a[1..], b[1..]);
    }
  }

  lemma {:induction false} LexLeAntisymmetric(a: string, b: string)
    requires LexLe(a, b) && LexLe(b, a)
    ensures a == b
    decreases |a|
  {
    if a != [] {
      LexLeAntisymmetric(a[1..], b[1..]);
      assert a == [a[0]] + a[1..] && b == [b[0]] + b[1..];
    }
  }

  lemma {:induction false} LexLeTransitive(a: string, b: string, c: string)
    requires LexLe(a, b) && LexLe(b, c)
    ensures LexLe(a, c)
    decreases |a|
  {
    if a != [] && b != [] && c != [] && a[0] == b[0] && b[0] == c[0] {
      LexLeTransitive(a[1..], b[1..], c[1..]);
    }
  }

  /** k is the first key of ks in iteration order. */
  predicate IsLeast(k: string, ks: set<string>)
  {
    k in ks && forall k' :: k' in ks ==> LexLe(k, k')
  }

  lemma {:induction false} LeastExists(ks: set<string>)
    requires ks != {}
    ensures exists k :: IsLeast(k, ks)
    decreases ks
  {
    var x :| x in ks;
    var rest := ks - {x};
    LexLeReflexive(x);
    if rest != {} {
      LeastExists(rest);
      var m :| IsLeast(m, rest);
      LexLeTotal(x, m);
      if LexLe(x, m) {
        forall k' | k' in ks
          ensures LexLe(x, k')
        {
          if k' != x {
            LexLeTransitive(x, m, k');
          }
        }
        assert IsLeast(x, ks);
      } else {
        assert IsLeast(m, ks);
      }
    } else {
      assert ks == {x};
      assert IsLeast(x, ks);
    }
  }

  lemma LeastUnique(a: string, b: string, ks: set<string>)
    requires IsLeast(a, ks) && IsLeast(b, ks)
    ensures a == b
  {
    LexLeAntisymmetric(a, b);
  }

  /** The keys of a map in the order std::map iterates them. */
  ghost function SortedKeys(ks: set<string>): (r: seq<string>)
    ensures |r| == |ks|
    ensures forall k :: k in ks <==> k in r
    ensures forall i, j :: 0 <= i < j < |r| ==> r[i] != r[j]
    ensures ks != {} ==> IsLeast(r[0], ks) && r[1..] == SortedKeys(ks - {r[0]})
    decreases ks
  {
    if ks == {} then []
    else
      LeastExists(ks);
      var k :| IsLeast(k, ks);
      [k] + SortedKeys(ks - {k})
  }

  lemma SortedKeysFirst(k: string, ks: set<string>)
    requires IsLeast(k, ks)
    ensures SortedKeys(ks) == [k] + SortedKeys(ks - {k})
  {
    var r := SortedKeys(ks);
    LeastUnique(r[0], k, ks);
    assert r == [r[0]] + r[1..];
  }

  function DecimalDigit(d: nat): (c: char)
    requires d < 10
    ensures '0' <= c <= '9'
  {
    "0123456789"[d]
  }

  /** A shared prefix does not change how two strings compare. */
  lemma {:induction false} LexLeSharedPrefix(p: string, a: string, b: string)
    requires LexLe(a, b)
    ensures LexLe(p + a, p + b)
    decreases |p|
  {
    if p != [] {
      LexLeSharedPrefix(p[1..], a, b);
      assert (p + a)[1..] == p[1..] + a && (p + b)[1..] == p[1..] + b;
      assert p + a != [] && p + b != [] && (p + a)[0] == p[0] == (p + b)[0];
    } else {
      assert p + a == a && p + b == b;
    }
  }

  /** Two distinct keys iterate in their lexicographic order. */
  lemma SortedKeysPair(a: string, b: string)
    requires LexLe(a, b) && a != b
    ensures SortedKeys({a, b}) == [a, b]
  {
    LexLeReflexive(a);
    LexLeReflexive(b);
    SortedKeysFirst(a, {a, b});
    assert {a, b} - {a} == {b};
    SortedKeysFirst(b, {b});
    assert {b} - {b} == {};
  }

  /** std::to_string of a non-negative integer. */
  function NatToDecimal(n: nat): (s: string)
    ensures s != [] && forall i :: 0 <= i < |s| ==> '0' <= s[i] <= '9'
    decreases n
  {
    if n < 10 then [DecimalDigit(n)] else NatToDecimal(n / 10) + [DecimalDigit(n % 10)]
  }

  /** std::to_string of an integer. */
  function IntToDecimal(i: int): (s: string)
    ensures s != [] && (s[0] == '-' <==> i < 0)
  {
    if i < 0 then "-" + NatToDecimal(-i) else NatToDecimal(i)
  }

  /** The value a decimal digit character stands for. */
  function DigitValue(c: char): int
  {
    c as int - '0' as int
  }

  /** The value of a string of decimal digits, most significant first. */
  function DigitsValue(s: string): int
    decreases |s|
  {
    if s == [] then 0 else 10 * DigitsValue(s[..|s| - 1]) + DigitValue(s[|s| - 1])
  }

  /** The value of a decimal numeral with an optional leading '-'. */
  function DecimalValue(s: string): int
  {
    if s != [] && s[0] == '-' then -DigitsValue(s[1..]) else DigitsValue(s)
  }

  lemma DigitRoundTrip(d: nat)
    requires d < 10
    ensures DigitValue(DecimalDigit(d)) == d
  {
    assert "0123456789" == ['0', '1', '2', '3', '4', '5', '6', '7', '8', '9'];
  }

  /** The digits NatToDecimal writes spell the number, with no leading zero. */
  lemma {:induction false} NatToDecimalValue(n: nat)
    ensures DigitsValue(NatToDecimal(n)) == n
    ensures n > 0 ==> NatToDecimal(n)[0] != '0'
    decreases n
  {
    var s := NatToDecimal(n);
    if n < 10 {
      DigitRoundTrip(n);
      assert s[..|s| - 1] == [];
      if n > 0 {
        assert DigitValue(s[0]) == n;
      }
    } else {
      NatToDecimalValue(n / 10);
      DigitRoundTrip(n % 10);
      assert s[..|s| - 1] == NatToDecimal(n / 10);
      assert s[0] == NatToDecimal(n / 10)[0];
    }
  }

  /** Reading back what IntToDecimal writes gives the number. */
  lemma IntToDecimalValue(i: int)
    ensures DecimalValue(IntToDecimal(i)) == i
  {
    var s := IntToDecimal(i);
    if i < 0 {
      var t := NatToDecimal(-i);
      NatToDecimalValue(-i);
      assert s == "-" + t;
      assert s[1..] == t;
      assert DecimalValue(s) == -DigitsValue(t);
    } else {
      NatToDecimalValue(i);
      assert s == NatToDecimal(i) && s[0] != '-';
      assert DecimalValue(s) == DigitsValue(s);
    }
  }

  /** Distinct numbers are written differently. */
  lemma IntToDecimalInjective(i: int, j: int)
    requires IntToDecimal(i) == IntToDecimal(j)
    ensures i == j
  {
    IntToDecimalValue(i);
    IntToDecimalValue(j);
  }
}

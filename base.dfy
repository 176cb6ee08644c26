/** Wrappers and sequence helpers shared by the dashboard model and the data-preparation model. */
module Base {

  datatype Option<+T> = None | Some(value: T)

  datatype Result<+T> = Ok(value: T) | Err(msg: string)

  /** No element occurs twice. */
  predicate NoDup<T(==)>(s: seq<T>) {
    forall i, j :: 0 <= i < j < |s| ==> s[i] != s[j]
  }

  lemma NoDupConcat<T(!new)>(a: seq<T>, b: seq<T>)
    requires NoDup(a) && NoDup(b)
    requires forall x :: x in a ==> x !in b
    ensures NoDup(a + b)
  {
    forall i, j | 0 <= i < j < |a + b|
      ensures (a + b)[i] != (a + b)[j]
    {
      if j >= |a| && i < |a| {
        assert (a + b)[i] in a;
        assert (a + b)[j] == b[j - |a|];
      }
    }
  }

  /** `s.filter(d => d != x)`: every occurrence of `x` removed, the rest in order. */
  function Without<T(==,!new)>(s: seq<T>, x: T): (r: seq<T>)
    ensures forall y :: y in r <==> y in s && y != x
    ensures NoDup(s) ==> NoDup(r)
  {
    if s == [] then []
    else if s[0] == x then Without(s[1..], x)
    else
      assert NoDup(s) ==> s[0] !in s[1..] && NoDup(s[1..]);
      [s[0]] + Without(s[1..], x)
  }

  /** `s.filter(p)`, and a query's row selection: the elements passing `p`, in the order of `s`. */
  function Filter<T(!new)>(s: seq<T>, p: T -> bool): (r: seq<T>)
    ensures forall x :: x in r <==> x in s && p(x)
    ensures |r| <= |s|
    ensures |s| == 1 ==> r == if p(s[0]) then s else []
  {
    if s == [] then []
    else if p(s[0]) then [s[0]] + Filter(s[1..], p)
    else Filter(s[1..], p)
  }

  /**
   * Filtering two lists one after the other is filtering their concatenation;
   * with the one-element case this fixes the order and the number of copies
   * of every element kept.
   */
  lemma {:induction false} FilterConcat<T(!new)>(a: seq<T>, b: seq<T>, p: T -> bool)
    ensures Filter(a + b, p) == Filter(a, p) + Filter(b, p)
  {
    if a == [] {
      assert a + b == b;
    } else {
      assert (a + b)[0] == a[0] && (a + b)[1..] == a[1..] + b;
      FilterConcat(a[1..], b, p);
    }
  }

  /** The first element kept is the first element of `s` that passes. */
  lemma {:induction false} FilterFirst<T(!new)>(s: seq<T>, p: T -> bool)
    requires |Filter(s, p)| > 0
    ensures exists i :: 0 <= i < |s| && s[i] == Filter(s, p)[0] && forall j :: 0 <= j < i ==> !p(s[j])
  {
    if !p(s[0]) {
      FilterFirst(s[1..], p);
      var i :| 0 <= i < |s[1..]| && s[1..][i] == Filter(s[1..], p)[0] && forall j :: 0 <= j < i ==> !p(s[1..][j]);
      assert s[i + 1] == Filter(s, p)[0];
      forall j | 0 <= j < i + 1
        ensures !p(s[j])
      {
        if j > 0 {
          assert s[j] == s[1..][j - 1];
        }
      }
    }
  }

  /** `x` occurs in `s` before some occurrence of `y`. */
  ghost predicate Precedes<T>(s: seq<T>, x: T, y: T) {
    exists k, l :: 0 <= k < l < |s| && s[k] == x && s[l] == y
  }

  /** Any two elements of `r` occur in that order in `s`. */
  ghost predicate InOrderOf<T>(r: seq<T>, s: seq<T>) {
    forall i, j :: 0 <= i < j < |r| ==> Precedes(s, r[i], r[j])
  }

  /** An order kept in the tail of `s` is kept in `s`. */
  lemma InOrderOfTail<T>(r: seq<T>, s: seq<T>)
    requires |s| > 0 && InOrderOf(r, s[1..])
    ensures InOrderOf(r, s)
  {
    forall i, j | 0 <= i < j < |r|
      ensures Precedes(s, r[i], r[j])
    {
      var k, l :| 0 <= k < l < |s[1..]| && s[1..][k] == r[i] && s[1..][l] == r[j];
      assert s[k + 1] == r[i] && s[l + 1] == r[j];
    }
  }

  /** Putting the head of `s` in front of elements of its tail, kept in order, keeps the order of `s`. */
  lemma InOrderOfCons<T>(r: seq<T>, s: seq<T>)
    requires |s| > 0 && InOrderOf(r, s[1..])
    requires forall x :: x in r ==> x in s[1..]
    ensures InOrderOf([s[0]] + r, s)
  {
    InOrderOfTail(r, s);
    var r' := [s[0]] + r;
    forall i, j | 0 <= i < j < |r'|
      ensures Precedes(s, r'[i], r'[j])
    {
      if i == 0 {
        assert r'[j] == r[j - 1] && r[j - 1] in r;
        var l :| 0 <= l < |s[1..]| && s[1..][l] == r'[j];
        assert s[0] == r'[0] && s[l + 1] == r'[j];
      } else {
        assert r'[i] == r[i - 1] && r'[j] == r[j - 1];
      }
    }
  }

  /** The elements kept keep the order of `s`. */
  lemma {:induction false} FilterInOrder<T(!new)>(s: seq<T>, p: T -> bool)
    ensures InOrderOf(Filter(s, p), s)
  {
    if s != [] {
      FilterInOrder(s[1..], p);
      if p(s[0]) {
        InOrderOfCons(Filter(s[1..], p), s);
      } else {
        InOrderOfTail(Filter(s[1..], p), s);
      }
    }
  }

  /** Filtering with a test every element passes changes nothing. */
  lemma {:induction false} FilterAll<T(!new)>(s: seq<T>, p: T -> bool)
    requires forall i :: 0 <= i < |s| ==> p(s[i])
    ensures Filter(s, p) == s
  {
    if s != [] {
      FilterAll(s[1..], p);
    }
  }

  /** `s.filter(d => allowed.includes(d))`: the elements of `s` found in `allowed`, in the order of `s`. */
  function KeepIn<T(==,!new)>(s: seq<T>, allowed: seq<T>): (r: seq<T>)
    ensures forall y :: y in r <==> y in s && y in allowed
    ensures NoDup(s) ==> NoDup(r)
  {
    if s == [] then []
    else if s[0] in allowed then [s[0]] + KeepIn(s[1..], allowed)
    else KeepIn(s[1..], allowed)
  }

  /** The elements kept keep the order of `s`. */
  lemma {:induction false} KeepInInOrder<T(!new)>(s: seq<T>, allowed: seq<T>)
    ensures InOrderOf(KeepIn(s, allowed), s)
  {
    if s != [] {
      KeepInInOrder(s[1..], allowed);
      if s[0] in allowed {
        InOrderOfCons(KeepIn(s[1..], allowed), s);
      } else {
        InOrderOfTail(KeepIn(s[1..], allowed), s);
      }
    }
  }

  /** `s.filter(d => !excluded.includes(d))` */
  function DropIn<T(==,!new)>(s: seq<T>, excluded: seq<T>): (r: seq<T>)
    ensures forall y :: y in r <==> y in s && y !in excluded
    ensures NoDup(s) ==> NoDup(r)
  {
    if s == [] then []
    else if s[0] in excluded then DropIn(s[1..], excluded)
    else [s[0]] + DropIn(s[1..], excluded)
  }

  /** A filter that removes nothing leaves the list as it was. */
  lemma {:induction false} KeepInAll<T(!new)>(s: seq<T>, allowed: seq<T>)
    requires forall y :: y in s ==> y in allowed
    ensures KeepIn(s, allowed) == s
  {
    if s != [] {
      KeepInAll(s[1..], allowed);
    }
  }

  /** `s.indexOf(x)`: where `x` first occurs in `s`. */
  function IndexOf<T(==)>(s: seq<T>, x: T): (k: nat)
    requires x in s
    ensures k < |s| && s[k] == x && x !in s[..k]
  {
    if s[0] == x then 0
    else
      var k := IndexOf(s[1..], x);
      assert s[..k + 1] == [s[0]] + s[1..][..k];
      k + 1
  }

  /** An element of `a` first occurs in `a + b` where it first occurs in `a`. */
  lemma IndexOfPrefix<T>(a: seq<T>, b: seq<T>)
    ensures forall y :: y in a ==> IndexOf(a + b, y) == IndexOf(a, y)
  {
    forall y | y in a
      ensures IndexOf(a + b, y) == IndexOf(a, y)
    {
      var k := IndexOf(a, y);
      assert (a + b)[k] == y;
    }
  }

  /**
   * The distinct elements in order of first occurrence, as
   * `Array.from(new Set(s))` in JavaScript and `Series.unique()` in pandas give them.
   */
  function Distinct<T(==,!new)>(s: seq<T>): (r: seq<T>)
    ensures forall y :: y in r <==> y in s
    ensures NoDup(r)
    ensures forall i, j :: 0 <= i < j < |r| ==> IndexOf(s, r[i]) < IndexOf(s, r[j])
  {
    if s == [] then []
    else
      var init, last := s[..|s| - 1], s[|s| - 1];
      var d := Distinct(init);
      assert s == init + [last];
      IndexOfPrefix(init, [last]);
      if last in d then d
      else
        assert IndexOf(s, last) == |s| - 1 by {
          assert forall i :: 0 <= i < |s| - 1 ==> s[i] == init[i] && s[i] != last;
        }
        d + [last]
  }

  /** The first element is always kept, so it comes first. */
  lemma {:induction false} DistinctHead<T(!new)>(s: seq<T>)
    requires |s| > 0
    ensures |Distinct(s)| > 0 && Distinct(s)[0] == s[0]
  {
    if |s| > 1 {
      var init := s[..|s| - 1];
      DistinctHead(init);
    }
  }

  // Decimal digits.

  predicate IsDigit(ch: char) {
    '0' <= ch <= '9'
  }

  predicate AllDigits(s: string) {
    forall i :: 0 <= i < |s| ==> IsDigit(s[i])
  }

  /** The value of a string of decimal digits. */
  function DigitsValue(s: string): nat
    requires AllDigits(s)
  {
    if s == [] then 0
    else DigitsValue(s[..|s| - 1]) * 10 + (s[|s| - 1] as int - '0' as int)
  }

  function DigitChar(d: nat): (ch: char)
    requires d < 10
    ensures IsDigit(ch) && ch as int - '0' as int == d
  {
    (d + '0' as int) as char
  }

  /** Decimal notation of a natural number without leading zeros, as Python's `str` writes it. */
  function NatToString(n: nat): (s: string)
    ensures |s| >= 1 && AllDigits(s)
    ensures s[0] == '0' ==> n == 0
  {
    if n < 10 then [DigitChar(n)] else NatToString(n / 10) + [DigitChar(n % 10)]
  }

  /** Reading back the decimal notation gives the number. */
  lemma {:induction false} NatToStringRoundTrip(n: nat)
    ensures DigitsValue(NatToString(n)) == n
  {
    var s := NatToString(n);
    if n >= 10 {
      NatToStringRoundTrip(n / 10);
      assert s[..|s| - 1] == NatToString(n / 10);
    } else {
      assert s[..|s| - 1] == [];
    }
  }
}

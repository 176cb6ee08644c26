/**
 * The order JavaScript's default `Array.prototype.sort` puts strings in:
 * character by character, a proper prefix first.
 */
module StrOrder {
  import opened Base

  /** `a` sorts no later than `b`. */
  predicate Le(a: string, b: string)
    decreases |a|
  {
    |a| == 0 || (|b| > 0 && (a[0] < b[0] || (a[0] == b[0] && Le(a[1..], b[1..]))))
  }

  /** `a` sorts strictly before `b`. */
  predicate Less(a: string, b: string) {
    Le(a, b) && a != b
  }

  lemma {:induction false} LeTotal(a: string, b: string)
    ensures Le(a, b) || Le(b, a)
    decreases |a|
  {
    if |a| > 0 && |b| > 0 && a[0] == b[0] {
      LeTotal(a[1..], b[1..]);
    }
  }

  lemma {:induction false} LeAntisymmetric(a: string, b: string)
    requires Le(a, b) && Le(b, a)
    ensures a == b
    decreases |a|
  {
    if |a| > 0 {
      LeAntisymmetric(a[1..], b[1..]);
      assert a == [a[0]] + a[1..] && b == [b[0]] + b[1..];
    }
  }

  lemma {:induction false} LeTransitive(a: string, b: string, c: string)
    requires Le(a, b) && Le(b, c)
    ensures Le(a, c)
    decreases |a|
  {
    if |a| > 0 && a[0] == b[0] && b[0] == c[0] {
      LeTransitive(a[1..], b[1..], c[1..]);
    }
  }

  /** Each string sorts no later than the next one. */
  predicate Sorted(s: seq<string>) {
    forall i :: 0 <= i < |s| - 1 ==> Le(s[i], s[i + 1])
  }

  /** Each string sorts strictly before the next one. */
  predicate StrictlySorted(s: seq<string>) {
    forall i :: 0 <= i < |s| - 1 ==> Less(s[i], s[i + 1])
  }

  /** Places `x` in a sorted list. */
  function Insert(x: string, s: seq<string>): (r: seq<string>)
    requires Sorted(s)
    ensures Sorted(r)
    ensures multiset(r) == multiset(s) + multiset{x}
    ensures forall y :: y in r <==> y == x || y in s
    ensures r[0] == x || (|s| > 0 && r[0] == s[0])
  {
    if s == [] then [x]
    else if Le(x, s[0]) then [x] + s
    else
      LeTotal(x, s[0]);
      var rest := Insert(x, s[1..]);
      assert s == [s[0]] + s[1..];
      [s[0]] + rest
  }

  /** Inserting a string not yet in a list without repeats makes no repeat. */
  lemma {:induction false} InsertKeepsNoDup(x: string, s: seq<string>)
    requires Sorted(s) && NoDup(s) && x !in s
    ensures NoDup(Insert(x, s))
  {
    if s != [] && !Le(x, s[0]) {
      assert s == [s[0]] + s[1..];
      assert s[0] !in s[1..] && NoDup(s[1..]);
      InsertKeepsNoDup(x, s[1..]);
    }
  }

  /**
   * Insertion sort: the same strings, each one sorting no later than the next.
   * A list without repeats stays without repeats.
   */
  function Sort(s: seq<string>): (r: seq<string>)
    ensures Sorted(r)
    ensures multiset(r) == multiset(s)
    ensures forall y :: y in r <==> y in s
    ensures NoDup(s) ==> NoDup(r)
  {
    if s == [] then []
    else
      assert s == [s[0]] + s[1..];
      var rest := Sort(s[1..]);
      assert NoDup(s) ==> NoDup(Insert(s[0], rest)) by {
        if NoDup(s) {
          assert s[0] !in s[1..] && NoDup(s[1..]);
          InsertKeepsNoDup(s[0], rest);
        }
      }
      Insert(s[0], rest)
  }

  /** A sorted list without repeats is strictly increasing. */
  lemma SortedNoDupIsStrict(s: seq<string>)
    requires Sorted(s) && NoDup(s)
    ensures StrictlySorted(s)
  {
  }

  /** Sorting a list without repeats: strictly increasing, and the same strings. */
  lemma {:induction false} SortDistinctIsStrict(s: seq<string>)
    ensures StrictlySorted(Sort(Distinct(s)))
    ensures forall y :: y in Sort(Distinct(s)) <==> y in s
  {
    SortedNoDupIsStrict(Sort(Distinct(s)));
  }
}

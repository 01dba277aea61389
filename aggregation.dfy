/**
 * The arithmetic on the fetched records that precedes any forecast: the mean
 * of the amounts (the low-data fallback) and the per-day totals that key the
 * forecast window.
 */
module Aggregation {
  import opened Expenses

  /** The sum of `f` over a sequence, taken from the front. */
  function SumOf<T>(s: seq<T>, f: T -> real): real {
    if s == [] then 0.0 else f(s[0]) + SumOf(s[1..], f)
  }

  lemma {:induction false} SumOfConcat<T>(a: seq<T>, b: seq<T>, f: T -> real)
    ensures SumOf(a + b, f) == SumOf(a, f) + SumOf(b, f)
    decreases |a|
  {
    if a == [] {
      assert a + b == b;
    } else {
      assert (a + b)[1..] == a[1..] + b;
      SumOfConcat(a[1..], b, f);
    }
  }

  /** Taking one term out of a sum. */
  lemma SumOfRemove<T>(b: seq<T>, j: nat, f: T -> real)
    requires j < |b|
    ensures SumOf(b, f) == f(b[j]) + SumOf(b[..j] + b[j + 1..], f)
  {
    assert b == b[..j] + ([b[j]] + b[j + 1..]);
    SumOfConcat(b[..j], [b[j]] + b[j + 1..], f);
    SumOfConcat([b[j]], b[j + 1..], f);
    SumOfConcat(b[..j], b[j + 1..], f);
  }

  lemma MultisetRemove<T>(b: seq<T>, j: nat)
    requires j < |b|
    ensures multiset(b[..j] + b[j + 1..]) == multiset(b) - multiset{b[j]}
  {
    assert b == b[..j] + [b[j]] + b[j + 1..];
    assert multiset(b) == multiset(b[..j]) + multiset{b[j]} + multiset(b[j + 1..]);
  }

  /** A sum does not depend on the order of its terms. */
  lemma {:induction false} SumOfPermutation<T>(a: seq<T>, b: seq<T>, f: T -> real)
    requires multiset(a) == multiset(b)
    ensures SumOf(a, f) == SumOf(b, f)
    decreases |a|
  {
    if a == [] {
      assert |b| == |multiset(b)| == 0;
    } else {
      var x := a[0];
      assert x in multiset(b);
      var j :| 0 <= j < |b| && b[j] == x;
      MultisetRemove(a, 0);
      MultisetRemove(b, j);
      assert a[..0] + a[1..] == a[1..];
      SumOfPermutation(a[1..], b[..j] + b[j + 1..], f);
      SumOfRemove(b, j, f);
    }
  }

  function Amount(e: Expense): real {
    e.amount
  }

  function TotalAmount(es: seq<Expense>): real {
    SumOf(es, Amount)
  }

  /** The low-data fallback: the mean amount, 0 for no records. */
  function MeanAmount(es: seq<Expense>): real {
    if |es| == 0 then 0.0 else TotalAmount(es) / |es| as real
  }

  /**
   * The fallback average: the amounts are added up in one pass, and the
   * total is divided by the number of records, an empty list giving 0.
   */
  method Mean(es: seq<Expense>) returns (avg: real)
    ensures avg == MeanAmount(es)
    ensures |es| > 0 ==> avg * |es| as real == TotalAmount(es)
    ensures |es| == 0 ==> avg == 0.0
  {
    var total := 0.0;
    var i := 0;
    while i < |es|
      invariant 0 <= i <= |es|
      invariant total == TotalAmount(es[..i])
    {
      SumOfConcat(es[..i], [es[i]], Amount);
      assert es[..i + 1] == es[..i] + [es[i]];
      total := total + es[i].amount;
      i := i + 1;
    }
    assert es[..i] == es;
    avg := if |es| == 0 then 0.0 else total / |es| as real;
  }

  /** What one record adds to the total of day `key`. */
  function Contribution(dayKey: int -> string, key: string): Expense -> real {
    (e: Expense) => if dayKey(e.date) == key then e.amount else 0.0
  }

  /** The sum of the amounts of the records whose day key is `key`. */
  function DaySum(es: seq<Expense>, dayKey: int -> string, key: string): real {
    SumOf(es, Contribution(dayKey, key))
  }

  /** The day keys that occur among the records. */
  function DayKeys(es: seq<Expense>, dayKey: int -> string): set<string> {
    set e | e in es :: dayKey(e.date)
  }

  /** The reference definition of `dailyMap`: one entry per day that occurs, holding that day's total. */
  function DailyMap(es: seq<Expense>, dayKey: int -> string): map<string, real> {
    map key | key in DayKeys(es, dayKey) :: DaySum(es, dayKey, key)
  }

  /** A day with no records has total 0. */
  lemma {:induction false} DaySumAbsent(es: seq<Expense>, dayKey: int -> string, key: string)
    requires key !in DayKeys(es, dayKey)
    ensures DaySum(es, dayKey, key) == 0.0
    decreases |es|
  {
    if es != [] {
      assert es[0] in es;
      assert DayKeys(es[1..], dayKey) <= DayKeys(es, dayKey) by {
        forall k | k in DayKeys(es[1..], dayKey) ensures k in DayKeys(es, dayKey) {
          var e :| e in es[1..] && dayKey(e.date) == k;
          assert e in es;
        }
      }
      DaySumAbsent(es[1..], dayKey, key);
    }
  }

  /**
   * One pass over the records that adds each amount into its day's entry:
   * the keys are exactly the day keys that occur and each holds the sum of
   * its records' amounts.
   */
  method AggregateDaily(es: seq<Expense>, dayKey: int -> string) returns (daily: map<string, real>)
    ensures daily.Keys == DayKeys(es, dayKey)
    ensures forall key :: key in daily ==> daily[key] == DaySum(es, dayKey, key)
    ensures daily == DailyMap(es, dayKey)
  {
    daily := map[];
    var i := 0;
    while i < |es|
      invariant 0 <= i <= |es|
      invariant daily.Keys == DayKeys(es[..i], dayKey)
      invariant forall key :: key in daily ==> daily[key] == DaySum(es[..i], dayKey, key)
    {
      var e := es[i];
      var key := dayKey(e.date);
      assert es[..i + 1] == es[..i] + [e];
      forall k
        ensures DaySum(es[..i + 1], dayKey, k) == DaySum(es[..i], dayKey, k) + Contribution(dayKey, k)(e)
      {
        SumOfConcat(es[..i], [e], Contribution(dayKey, k));
      }
      if key !in daily {
        DaySumAbsent(es[..i], dayKey, key);
      }
      assert DayKeys(es[..i + 1], dayKey) == DayKeys(es[..i], dayKey) + {key};
      daily := if key in daily then daily[key := daily[key] + e.amount] else daily[key := e.amount];
      i := i + 1;
    }
    assert es[..i] == es;
  }

  /** Aggregation ignores the order of the records (the store returns them date-descending). */
  lemma DailyMapPermutation(a: seq<Expense>, b: seq<Expense>, dayKey: int -> string)
    requires multiset(a) == multiset(b)
    ensures DailyMap(a, dayKey) == DailyMap(b, dayKey)
    ensures DayKeys(a, dayKey) == DayKeys(b, dayKey)
  {
    forall e
      ensures e in a <==> e in b
    {
      assert e in a <==> e in multiset(a);
      assert e in b <==> e in multiset(b);
    }
    forall key | key in DayKeys(a, dayKey)
      ensures DaySum(a, dayKey, key) == DaySum(b, dayKey, key)
    {
      SumOfPermutation(a, b, Contribution(dayKey, key));
    }
  }

  /** Neither does the mean. */
  lemma MeanPermutation(a: seq<Expense>, b: seq<Expense>)
    requires multiset(a) == multiset(b)
    ensures MeanAmount(a) == MeanAmount(b)
  {
    assert |a| == |multiset(a)| == |multiset(b)| == |b|;
    SumOfPermutation(a, b, Amount);
  }
}

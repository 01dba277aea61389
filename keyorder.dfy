/**
 * Ordering of the day keys. `Collections.sort` on a list of strings uses
 * `String.compareTo`: the first differing character decides, and a proper
 * prefix comes before the longer string.
 */
module KeyOrder {

  /** `a.compareTo(b) < 0`; a proper prefix is smaller than the longer string. */
  predicate Less(a: string, b: string)
    ensures |a| < |b| && a == b[..|a|] ==> Less(a, b)
  {
    if a == [] then b != []
    else if b == [] then false
    else if a[0] != b[0] then a[0] < b[0]
    else Less(a[1..], b[1..])
  }

  lemma {:induction false} LessIrreflexive(a: string)
    ensures !Less(a, a)
    decreases |a|
  {
    if a != [] {
      LessIrreflexive(a[1..]);
    }
  }

  lemma {:induction false} LessTransitive(a: string, b: string, c: string)
    requires Less(a, b) && Less(b, c)
    ensures Less(a, c)
    decreases |a|
  {
    if a != [] && b != [] && c != [] && a[0] == b[0] && b[0] == c[0] {
      LessTransitive(a[1..], b[1..], c[1..]);
    }
  }

  /** `compareTo` is total: of two different strings one is smaller. */
  lemma {:induction false} LessTotal(a: string, b: string)
    requires a != b
    ensures Less(a, b) || Less(b, a)
    decreases |a|
  {
    if a != [] && b != [] && a[0] == b[0] {
      assert a == [a[0]] + a[1..] && b == [b[0]] + b[1..];
      LessTotal(a[1..], b[1..]);
    }
  }

  lemma LessAsymmetric(a: string, b: string)
    requires Less(a, b)
    ensures !Less(b, a)
  {
  }

  /** Strictly ascending: sorted and without repeats, as the keys of a map sort. */
  predicate StrictlyIncreasing(s: seq<string>) {
    forall i, j {:trigger Less(s[i], s[j])} :: 0 <= i < j < |s| ==> Less(s[i], s[j])
  }

  predicate IsLeast(k: string, keys: set<string>) {
    k in keys && forall j :: j in keys ==> j == k || Less(k, j)
  }

  lemma {:induction false} LeastExists(keys: set<string>)
    requires keys != {}
    ensures exists k :: IsLeast(k, keys)
    decreases keys
  {
    var x :| x in keys;
    var rest := keys - {x};
    if rest != {} {
      LeastExists(rest);
      var m :| IsLeast(m, rest);
      if Less(x, m) {
        forall j | j in keys
          ensures j == x || Less(x, j)
        {
          if j != x && j != m {
            LessTransitive(x, m, j);
          }
        }
        assert IsLeast(x, keys);
      } else {
        LessTotal(x, m);
        assert IsLeast(m, keys);
      }
    } else {
      assert keys == rest + {x};
      assert IsLeast(x, keys);
    }
  }

  /** Every finite set of keys has an ascending arrangement, built by putting the least key first. */
  lemma {:induction false} AscendingExists(keys: set<string>)
    ensures exists s :: IsAscendingOf(s, keys)
    decreases keys
  {
    if keys == {} {
      assert IsAscendingOf([], keys);
    } else {
      LeastExists(keys);
      var k :| IsLeast(k, keys);
      AscendingExists(keys - {k});
      var rest :| IsAscendingOf(rest, keys - {k});
      var s := [k] + rest;
      forall i, j | 0 <= i < j < |s|
        ensures Less(s[i], s[j])
      {
        if i == 0 {
          assert s[j] == rest[j - 1] && rest[j - 1] in rest;
        } else {
          assert s[i] == rest[i - 1] && s[j] == rest[j - 1];
          assert Less(rest[i - 1], rest[j - 1]);
        }
      }
      assert IsAscendingOf(s, keys);
    }
  }

  /** `s` lists exactly `keys`, strictly ascending. */
  ghost predicate IsAscendingOf(s: seq<string>, keys: set<string>) {
    StrictlyIncreasing(s) && forall k :: k in s <==> k in keys
  }

  /** An ascending arrangement has one element per key. */
  lemma {:induction false} AscendingLength(s: seq<string>, keys: set<string>)
    requires IsAscendingOf(s, keys)
    ensures |s| == |keys|
    decreases |s|
  {
    if s == [] {
      assert forall k :: k !in keys;
      assert keys == {};
    } else {
      var rest := keys - {s[0]};
      assert s[0] in s;
      forall i, j | 0 <= i < j < |s[1..]|
        ensures Less(s[1..][i], s[1..][j])
      {
        assert s[1..][i] == s[i + 1] && s[1..][j] == s[j + 1];
        assert Less(s[i + 1], s[j + 1]);
      }
      forall k
        ensures k in s[1..] <==> k in rest
      {
        if k in s[1..] {
          var i :| 0 <= i < |s[1..]| && s[1..][i] == k;
          assert Less(s[0], s[i + 1]);
          LessIrreflexive(s[0]);
        }
        if k in rest {
          assert k in s && k != s[0];
          var i :| 0 <= i < |s| && s[i] == k;
          assert s[1..][i - 1] == k;
        }
      }
      AscendingLength(s[1..], rest);
    }
  }

  /** The keys in ascending order: the list `Collections.sort` leaves behind; unique by SortedUnique. */
  ghost function Ascending(keys: set<string>): (s: seq<string>)
    ensures IsAscendingOf(s, keys)
    ensures |s| == |keys|
  {
    AscendingExists(keys);
    var s :| IsAscendingOf(s, keys);
    AscendingLength(s, keys);
    s
  }

  /** A strictly ascending sequence is determined by the set of its elements. */
  lemma {:induction false} SortedUnique(a: seq<string>, b: seq<string>)
    requires StrictlyIncreasing(a) && StrictlyIncreasing(b)
    requires forall k :: k in a <==> k in b
    ensures a == b
    decreases |a|
  {
    if a != [] {
      assert a[0] in b;
    }
    if b != [] {
      assert b[0] in a;
    }
    if a != [] {
      if a[0] != b[0] {
        var i :| 0 < i < |a| && a[i] == b[0];
        var j :| 0 < j < |b| && b[j] == a[0];
        LessAsymmetric(a[0], b[0]);
      }
      forall k
        ensures k in a[1..] <==> k in b[1..]
      {
        if k in a[1..] {
          var i :| 1 <= i < |a| && a[i] == k;
          LessIrreflexive(a[0]);
          assert k != b[0] && k in a;
          var j :| 0 <= j < |b| && b[j] == k;
          assert j != 0;
          assert b[1..][j - 1] == k;
        }
        if k in b[1..] {
          var j :| 1 <= j < |b| && b[j] == k;
          LessIrreflexive(b[0]);
          assert k != a[0] && k in b;
          var i :| 0 <= i < |a| && a[i] == k;
          assert i != 0;
          assert a[1..][i - 1] == k;
        }
      }
      SortedUnique(a[1..], b[1..]);
      assert a == [a[0]] + a[1..] && b == [b[0]] + b[1..];
    }
  }

  /**
   * The day keys copied into a list and sorted: the
   * keys, each once, in ascending order. The least remaining key is taken at
   * each step; since the result is unique (SortedUnique) it is the same list
   * whatever algorithm sorts it.
   */
  method SortKeys(keys: set<string>) returns (sorted: seq<string>)
    ensures StrictlyIncreasing(sorted)
    ensures |sorted| == |keys|
    ensures forall k :: k in sorted <==> k in keys
    ensures sorted == Ascending(keys)
  {
    sorted := [];
    var rest := keys;
    while rest != {}
      invariant rest <= keys
      invariant forall k :: k in sorted <==> k in keys && k !in rest
      invariant StrictlyIncreasing(sorted)
      invariant forall i, k :: 0 <= i < |sorted| && k in rest ==> Less(sorted[i], k)
      invariant |sorted| + |rest| == |keys|
      decreases |rest|
    {
      LeastExists(rest);
      var k :| IsLeast(k, rest);
      sorted := sorted + [k];
      rest := rest - {k};
    }
    SortedUnique(sorted, Ascending(keys));
  }
}

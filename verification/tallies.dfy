/**
 * Counters keyed in first-insertion order (a Python dict of counts), string order, and a
 * sort by a caller-chosen comparison (Python's `sorted` and `list.sort`).
 */
module Tallies {

  /** One dict entry: a key and how often it was counted. */
  datatype Tally<K> = Tally(key: K, count: nat)

  function Keys<K>(ts: seq<Tally<K>>): set<K>
  {
    set t | t in ts :: t.key
  }

  /** No key appears twice, as in a dict. */
  ghost predicate UniqueKeys<K>(ts: seq<Tally<K>>)
  {
    forall i, j :: 0 <= i < j < |ts| ==> ts[i].key != ts[j].key
  }

  /** The shape of a dict of counters that only ever grew by `+= 1`. */
  ghost predicate WellFormed<K>(ts: seq<Tally<K>>)
  {
    UniqueKeys(ts) && forall t :: t in ts ==> t.count > 0
  }

  /** The count recorded under `k` (the sum over entries with that key; 0 when there is none). */
  function CountOf<K(==)>(ts: seq<Tally<K>>, k: K): nat
  {
    if ts == [] then 0 else (if ts[0].key == k then ts[0].count else 0) + CountOf(ts[1..], k)
  }

  lemma UniqueKeysCons<K>(a: Tally<K>, ts: seq<Tally<K>>)
    requires UniqueKeys(ts) && a.key !in Keys(ts)
    ensures UniqueKeys([a] + ts)
  {
    forall i, j | 0 <= i < j < |[a] + ts|
      ensures ([a] + ts)[i].key != ([a] + ts)[j].key
    {
      if i == 0 {
        assert ts[j - 1] in ts;
      }
    }
  }

  /** In a dict of counters, the count of a listed key is the count of its one entry. */
  lemma {:induction false} CountOfMember<K>(ts: seq<Tally<K>>, t: Tally<K>)
    requires UniqueKeys(ts) && t in ts
    ensures CountOf(ts, t.key) == t.count
  {
    if ts[0] == t {
      CountOfAbsent(ts[1..], t.key);
    } else {
      assert UniqueKeys(ts[1..]) by {
        forall i, j | 0 <= i < j < |ts[1..]| ensures ts[1..][i].key != ts[1..][j].key {
          assert ts[1..][i] == ts[i + 1] && ts[1..][j] == ts[j + 1];
        }
      }
      var k :| 0 <= k < |ts| && ts[k] == t;
      assert ts[0].key != t.key;
      CountOfMember(ts[1..], t);
    }
  }

  /** A key that is not listed counts zero. */
  lemma {:induction false} CountOfAbsent<K>(ts: seq<Tally<K>>, k: K)
    requires k !in Keys(ts)
    ensures CountOf(ts, k) == 0
  {
    if ts != [] {
      assert ts[0] in ts;
      assert Keys(ts[1..]) <= Keys(ts) by {
        forall x | x in Keys(ts[1..]) ensures x in Keys(ts) {
          var t :| t in ts[1..] && t.key == x;
          assert t in ts;
        }
      }
      CountOfAbsent(ts[1..], k);
    }
  }

  /** `counts[k] += 1` on a counter dict: the count of `k` grows by one, new keys go last. */
  function Bump<K(==,!new)>(ts: seq<Tally<K>>, k: K): (r: seq<Tally<K>>)
    ensures forall j :: CountOf(r, j) == CountOf(ts, j) + (if j == k then 1 else 0)
    ensures Keys(r) == Keys(ts) + {k}
    ensures k !in Keys(ts) ==> r == ts + [Tally(k, 1)]
  {
    if ts == [] then [Tally(k, 1)]
    else
      assert Keys(ts) == {ts[0].key} + Keys(ts[1..]) by {
        assert forall t :: t in ts <==> t == ts[0] || t in ts[1..];
      }
      if ts[0].key == k then
        var r := [Tally(k, ts[0].count + 1)] + ts[1..];
        assert Keys(r) == {k} + Keys(ts[1..]) by {
          assert forall t :: t in r <==> t == r[0] || t in ts[1..];
        }
        assert r[1..] == ts[1..];
        r
      else
        var rest := Bump(ts[1..], k);
        var r := [ts[0]] + rest;
        assert r[1..] == rest;
        assert Keys(r) == {ts[0].key} + Keys(rest) by {
          assert forall t :: t in r <==> t == ts[0] || t in rest;
        }
        r
  }

  /** The tail of a dict of counters is one too. */
  lemma WellFormedTail<K>(ts: seq<Tally<K>>)
    requires WellFormed(ts) && ts != []
    ensures WellFormed(ts[1..]) && ts[0].key !in Keys(ts[1..])
  {
    forall i, j | 0 <= i < j < |ts[1..]| ensures ts[1..][i].key != ts[1..][j].key {
      assert ts[1..][i] == ts[i + 1] && ts[1..][j] == ts[j + 1];
    }
    forall t | t in ts[1..] ensures t.key != ts[0].key {
      var i :| 0 <= i < |ts[1..]| && ts[1..][i] == t;
      assert ts[i + 1] == t;
    }
  }

  /** Counting one more occurrence keeps a dict of counters well formed. */
  lemma {:induction false} BumpWellFormed<K(!new)>(ts: seq<Tally<K>>, k: K)
    requires WellFormed(ts)
    ensures WellFormed(Bump(ts, k))
  {
    if ts != [] {
      WellFormedTail(ts);
      if ts[0].key == k {
        var r := Bump(ts, k);
        assert r == [Tally(k, ts[0].count + 1)] + ts[1..];
        UniqueKeysCons(Tally(k, ts[0].count + 1), ts[1..]);
      } else {
        BumpWellFormed(ts[1..], k);
        UniqueKeysCons(ts[0], Bump(ts[1..], k));
      }
    }
  }

  /** How many elements of `s` equal `x`. */
  function Occurrences<K(==)>(s: seq<K>, x: K): nat
  {
    if s == [] then 0 else Occurrences(s[..|s| - 1], x) + (if s[|s| - 1] == x then 1 else 0)
  }

  function Members<K>(s: seq<K>): set<K>
  {
    set x | x in s
  }

  /** Counting each element of `keys` in turn. */
  function BumpAll<K(==,!new)>(ts: seq<Tally<K>>, keys: seq<K>): (r: seq<Tally<K>>)
    ensures forall k :: CountOf(r, k) == CountOf(ts, k) + Occurrences(keys, k)
    ensures Keys(r) == Keys(ts) + Members(keys)
    ensures WellFormed(ts) ==> WellFormed(r)
  {
    if keys == [] then ts
    else
      var init := keys[..|keys| - 1];
      assert Members(keys) == Members(init) + {keys[|keys| - 1]} by {
        assert keys == init + [keys[|keys| - 1]];
        assert forall x :: x in keys <==> x in init || x == keys[|keys| - 1];
      }
      var before := BumpAll(ts, init);
      assert WellFormed(ts) ==> WellFormed(Bump(before, keys[|keys| - 1])) by {
        if WellFormed(ts) {
          BumpWellFormed(before, keys[|keys| - 1]);
        }
      }
      Bump(before, keys[|keys| - 1])
  }

  /** The `for` loop that counts each element of `keys` with `+= 1`. */
  method TallyEach<K(==,!new)>(items: seq<Tally<K>>, keys: seq<K>) returns (r: seq<Tally<K>>)
    ensures r == BumpAll(items, keys)
  {
    r := items;
    for j := 0 to |keys|
      invariant r == BumpAll(items, keys[..j])
    {
      assert keys[..j + 1][..j] == keys[..j];
      r := Bump(r, keys[j]);
    }
    assert keys[..|keys|] == keys;
  }

  /** Python's string order: lexicographic by character, a proper prefix first. */
  predicate LexLe(a: string, b: string)
  {
    a == [] || (b != [] && (a[0] < b[0] || (a[0] == b[0] && LexLe(a[1..], b[1..]))))
  }

  lemma {:induction false} LexLeTotal(a: string, b: string)
    ensures LexLe(a, b) || LexLe(b, a)
  {
    if a != [] && b != [] && a[0] == b[0] {
      LexLeTotal(a[1..], b[1..]);
    }
  }

  lemma {:induction false} LexLeAntisymmetric(a: string, b: string)
    requires LexLe(a, b) && LexLe(b, a)
    ensures a == b
  {
    if a != [] && b != [] {
      LexLeAntisymmetric(a[1..], b[1..]);
      assert a == [a[0]] + a[1..] && b == [b[0]] + b[1..];
    }
  }

  /** Every two elements compare one way or the other. */
  ghost predicate IsTotal<T(!new)>(le: (T, T) -> bool)
  {
    forall a, b :: le(a, b) || le(b, a)
  }

  ghost predicate SortedBy<T>(s: seq<T>, le: (T, T) -> bool)
  {
    forall i :: 0 < i < |s| ==> le(s[i - 1], s[i])
  }

  ghost predicate Distinct<T>(s: seq<T>)
  {
    forall i, j :: 0 <= i < j < |s| ==> s[i] != s[j]
  }

  /** Inserts `x` in front of the first element it does not follow. */
  function Insert<T(==,!new)>(x: T, s: seq<T>, le: (T, T) -> bool): (r: seq<T>)
    requires IsTotal(le) && SortedBy(s, le)
    ensures SortedBy(r, le)
    ensures |r| == |s| + 1 && multiset(r) == multiset(s) + multiset{x}
    ensures r[0] == x || (s != [] && r[0] == s[0])
  {
    if s == [] then [x]
    else if le(x, s[0]) then [x] + s
    else
      var rest := Insert(x, s[1..], le);
      assert le(s[0], x);
      assert s == [s[0]] + s[1..];
      [s[0]] + rest
  }

  /** A list without repeats: its head does not recur in its tail, which has none either. */
  lemma DistinctTail<T>(s: seq<T>)
    requires Distinct(s) && s != []
    ensures s[0] !in s[1..] && Distinct(s[1..])
  {
    forall i | 0 <= i < |s[1..]| ensures s[1..][i] != s[0] {
      assert s[1..][i] == s[i + 1];
    }
    forall i, j | 0 <= i < j < |s[1..]| ensures s[1..][i] != s[1..][j] {
      assert s[1..][i] == s[i + 1] && s[1..][j] == s[j + 1];
    }
  }

  /** A list is without repeats when its multiset counts every element at most once. */
  lemma DistinctByMultiset<T>(s: seq<T>)
    requires forall x :: multiset(s)[x] <= 1
    ensures Distinct(s)
  {
    forall i, j | 0 <= i < j < |s|
      ensures s[i] != s[j]
    {
      assert s == s[..j] + s[j..];
      assert multiset(s)[s[j]] == multiset(s[..j])[s[j]] + multiset(s[j..])[s[j]];
      assert s[j] in s[j..];
      assert s[j] !in s[..j];
      assert s[i] in s[..j];
    }
  }

  /** In a list without repeats, every element occurs once. */
  lemma {:induction false} MultisetOfDistinct<T>(s: seq<T>)
    requires Distinct(s)
    ensures forall x :: multiset(s)[x] <= 1
  {
    if s != [] {
      DistinctTail(s);
      MultisetOfDistinct(s[1..]);
      assert s == [s[0]] + s[1..];
    }
  }

  /** The elements of `s` ordered by `le` (insertion sort). */
  function SortBy<T(==,!new)>(s: seq<T>, le: (T, T) -> bool): (r: seq<T>)
    requires IsTotal(le)
    ensures SortedBy(r, le)
    ensures |r| == |s| && multiset(r) == multiset(s)
    ensures forall y :: y in r <==> y in s
  {
    if s == [] then []
    else
      assert s == [s[0]] + s[1..];
      var r := Insert(s[0], SortBy(s[1..], le), le);
      assert forall y :: y in r <==> y in multiset(r);
      assert forall y :: y in s <==> y in multiset(s);
      r
  }

  /** A sorted rearrangement of a list without repeats has none either. */
  lemma SortKeepsDistinct<T(!new)>(s: seq<T>, le: (T, T) -> bool)
    requires IsTotal(le) && Distinct(s)
    ensures Distinct(SortBy(s, le))
  {
    MultisetOfDistinct(s);
    DistinctByMultiset(SortBy(s, le));
  }

  /** Rearranging a dict's entries without repeating one keeps its keys unique. */
  lemma UniqueKeysOfRearrangement<K>(a: seq<Tally<K>>, b: seq<Tally<K>>)
    requires UniqueKeys(a) && Distinct(b)
    requires forall x :: x in b <==> x in a
    ensures UniqueKeys(b)
  {
    forall i, j | 0 <= i < j < |b|
      ensures b[i].key != b[j].key
    {
      assert b[i] in a && b[j] in a;
      var p :| 0 <= p < |a| && a[p] == b[i];
      var q :| 0 <= q < |a| && a[q] == b[j];
      assert b[i] != b[j];
    }
  }
}

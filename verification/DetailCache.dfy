/** The bounded cache of detail items: rememberMobileDetailItem in apps/mobile/mobileDomain.ts. */
module DetailCache {
  const LIMIT: nat := 24

  type Key = string
  type Item = int

  /** A JavaScript Map: entries in insertion order, keys unique. */
  type Entries = seq<(Key, Item)>

  predicate Has(s: Entries, k: Key) { exists i :: 0 <= i < |s| && s[i].0 == k }

  ghost predicate Unique(s: Entries) { forall i, j :: 0 <= i < j < |s| ==> s[i].0 != s[j].0 }

  function Without(s: Entries, k: Key): Entries {
    if s == [] then [] else if s[|s| - 1].0 == k then Without(s[..|s| - 1], k) else Without(s[..|s| - 1], k) + [s[|s| - 1]]
  }

  /** The newest `LIMIT` entries. */
  function Bounded(s: Entries): Entries { if |s| > LIMIT then s[|s| - LIMIT..] else s }

  function Remembered(s: Entries, k: Key, item: Item): Entries { Bounded(Without(s, k) + [(k, item)]) }

  class ItemCache {
    var entries: Entries

    constructor ()
      ensures entries == []
    {
      entries := [];
    }

    method Remember(k: Key, item: Item)
      modifies this
      ensures entries == Remembered(old(entries), k, item)
    {
      entries := Without(entries, k);
      entries := entries + [(k, item)];
      ghost var before := entries;
      while |entries| > LIMIT
        invariant |entries| <= |before| && entries == before[|before| - |entries|..]
        invariant |entries| >= LIMIT || entries == before
      {
        entries := entries[1..];
      }
    }
  }

  // ---- what the cache holds after any calls -----------------------------------------------

  function Cache(calls: seq<(Key, Item)>): Entries {
    if calls == [] then []
    else Remembered(Cache(calls[..|calls| - 1]), calls[|calls| - 1].0, calls[|calls| - 1].1)
  }

  /** The reference: the latest call of every key, oldest first, with no bound. */
  function Latest(calls: seq<(Key, Item)>): Entries {
    if calls == [] then []
    else Without(Latest(calls[..|calls| - 1]), calls[|calls| - 1].0) + [calls[|calls| - 1]]
  }

  lemma {:induction false} WithoutKeys(s: Entries, k: Key)
    ensures !Has(Without(s, k), k) && (Unique(s) ==> Unique(Without(s, k)))
    ensures forall e :: e in Without(s, k) <==> e in s && e.0 != k
  {
    if s != [] {
      var n := |s| - 1;
      WithoutKeys(s[..n], k);
      assert s == s[..n] + [s[n]];
      var rest := Without(s[..n], k);
      if Unique(s) {
        forall i | 0 <= i < |rest| ensures rest[i].0 != s[n].0 { assert rest[i] in s[..n]; }
      }
    }
  }

  lemma {:induction false} AbsentStays(s: Entries, k: Key)
    requires !Has(s, k)
    ensures Without(s, k) == s
  {
    if s != [] {
      var n := |s| - 1;
      forall i | 0 <= i < n ensures s[..n][i].0 != k { assert s[i].0 != k; }
      AbsentStays(s[..n], k);
      assert s == s[..n] + [s[n]];
    }
  }

  lemma {:induction false} WithoutSplit(a: Entries, b: Entries, k: Key)
    ensures Without(a + b, k) == Without(a, k) + Without(b, k)
  {
    if b == [] {
      assert a + b == a;
    } else {
      assert (a + b)[..|a + b| - 1] == a + b[..|b| - 1];
      WithoutSplit(a, b[..|b| - 1], k);
    }
  }

  lemma {:induction false} WithoutLength(s: Entries, k: Key)
    requires Unique(s)
    ensures |Without(s, k)| == if Has(s, k) then |s| - 1 else |s|
  {
    if s != [] {
      var n := |s| - 1;
      WithoutLength(s[..n], k);
      if s[n].0 == k {
        forall i | 0 <= i < n ensures s[..n][i].0 != k { assert s[i].0 != s[n].0; }
      } else if Has(s, k) {
        var i :| 0 <= i < |s| && s[i].0 == k;
        assert s[..n][i].0 == k;
      }
    }
  }

  /** Evicting before a call or only after it makes no difference. */
  lemma EvictionCommutes(s: Entries, k: Key, item: Item)
    requires Unique(s)
    ensures Remembered(Bounded(s), k, item) == Remembered(s, k, item)
  {
    if |s| > LIMIT {
      var a, b := s[..|s| - LIMIT], s[|s| - LIMIT..];
      assert s == a + b;
      WithoutSplit(a, b, k);
      assert Unique(b);
      WithoutLength(b, k);
      var x := [(k, item)];
      assert Without(s, k) + x == Without(a, k) + (Without(b, k) + x);
      if Has(b, k) {
        var i :| 0 <= i < |b| && b[i].0 == k;
        forall n | 0 <= n < |a| ensures a[n].0 != k { assert s[n].0 != s[|a| + i].0; }
        AbsentStays(a, k);
      }
    }
  }

  lemma {:induction false} LatestIsUnique(calls: seq<(Key, Item)>)
    ensures Unique(Latest(calls))
  {
    if calls != [] {
      var n := |calls| - 1;
      LatestIsUnique(calls[..n]);
      WithoutKeys(Latest(calls[..n]), calls[n].0);
    }
  }

  /** After any calls the cache holds exactly the 24 most recently remembered keys, each with its latest item. */
  lemma {:induction false} CacheIsTheLatest(calls: seq<(Key, Item)>)
    ensures Cache(calls) == if |Latest(calls)| > 24 then Latest(calls)[|Latest(calls)| - 24..] else Latest(calls)
  {
    if calls != [] {
      var n := |calls| - 1;
      CacheIsTheLatest(calls[..n]);
      LatestIsUnique(calls[..n]);
      EvictionCommutes(Latest(calls[..n]), calls[n].0, calls[n].1);
    }
  }

  /** Call `i` is the last one for its key. */
  predicate IsLast(calls: seq<(Key, Item)>, i: nat) {
    i < |calls| && forall j :: i < j < |calls| ==> calls[j].0 != calls[i].0
  }

  ghost predicate LastCall(calls: seq<(Key, Item)>, e: (Key, Item)) { exists i: nat :: IsLast(calls, i) && calls[i] == e }

  lemma LastInPrefix(calls: seq<(Key, Item)>, i: nat)
    requires i < |calls| - 1
    ensures IsLast(calls, i) <==> IsLast(calls[..|calls| - 1], i) && calls[|calls| - 1].0 != calls[i].0
  {
    var n := |calls| - 1;
    if IsLast(calls[..n], i) && calls[n].0 != calls[i].0 {
      forall j | i < j < |calls| ensures calls[j].0 != calls[i].0 { if j < n { assert calls[..n][j] == calls[j]; } }
    }
  }

  lemma LastCallOne(calls: seq<(Key, Item)>, e: (Key, Item))
    requires calls != []
    ensures var n := |calls| - 1; LastCall(calls, e) <==> calls[n] == e || (calls[n].0 != e.0 && LastCall(calls[..n], e))
  {
    var n := |calls| - 1;
    assert IsLast(calls, n);
    if LastCall(calls, e) && calls[n] != e {
      var i: nat :| IsLast(calls, i) && calls[i] == e;
      LastInPrefix(calls, i);
      assert calls[..n][i] == e;
    }
    if LastCall(calls[..n], e) && calls[n].0 != e.0 {
      var i: nat :| IsLast(calls[..n], i) && calls[..n][i] == e;
      LastInPrefix(calls, i);
    }
  }

  /** `Latest` keeps, for every key ever used, its last call and nothing else. */
  lemma {:induction false} LatestHoldsLastCalls(calls: seq<(Key, Item)>, e: (Key, Item))
    ensures e in Latest(calls) <==> LastCall(calls, e)
  {
    if calls != [] {
      var n := |calls| - 1;
      LatestHoldsLastCalls(calls[..n], e);
      WithoutKeys(Latest(calls[..n]), calls[n].0);
      LastCallOne(calls, e);
    }
  }
}

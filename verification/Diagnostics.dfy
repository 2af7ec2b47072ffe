/** Retention of diagnostics: mobileDiagnosticIdsToDelete and the table that uses it (apps/mobile). */
module Diagnostics {
  const MAX_EVENTS: nat := 100
  const MAX_AGE: int := 7 * 24 * 60 * 60 * 1000
  const MAX_BYTES: nat := 256 * 1024

  datatype Candidate = Candidate(id: string, createdAt: int, bytes: nat)

  function Bytes(s: seq<Candidate>): nat { if s == [] then 0 else Bytes(s[..|s| - 1]) + s[|s| - 1].bytes }

  /** What one prune may keep: how many events, how many bytes, and nothing created before `oldest`. */
  datatype Limits = Limits(events: nat, bytes: nat, oldest: int)

  function LimitsAt(now: int): Limits { Limits(MAX_EVENTS, MAX_BYTES, now - MAX_AGE) }

  predicate Expired(c: Candidate, limits: Limits) { c.createdAt < limits.oldest }

  /** How many events a walk has kept so far, and their bytes. */
  datatype Retained = Retained(count: nat, bytes: nat)

  predicate Fits(r: Retained, c: Candidate, limits: Limits) {
    !Expired(c, limits) && r.count < limits.events && r.bytes + c.bytes <= limits.bytes
  }

  function RetainedBy(s: seq<Candidate>, n: nat, limits: Limits): Retained
    requires n <= |s|
  {
    if n == 0 then Retained(0, 0)
    else
      var r := RetainedBy(s, n - 1, limits);
      if Fits(r, s[n - 1], limits) then Retained(r.count + 1, r.bytes + s[n - 1].bytes) else r
  }

  lemma BytesOne(s: seq<Candidate>, c: Candidate)
    ensures Bytes(s + [c]) == Bytes(s) + c.bytes
  {
    assert (s + [c])[..|s|] == s;
  }

  predicate FitsAt(s: seq<Candidate>, i: nat, limits: Limits)
    requires i < |s|
  {
    Fits(RetainedBy(s, i, limits), s[i], limits)
  }

  /** What a walk over the first `n` candidates keeps. */
  function KeptOf(s: seq<Candidate>, n: nat, limits: Limits): seq<Candidate>
    requires n <= |s|
  {
    if n == 0 then [] else if FitsAt(s, n - 1, limits) then KeptOf(s, n - 1, limits) + [s[n - 1]] else KeptOf(s, n - 1, limits)
  }

  function DeletedOf(s: seq<Candidate>, n: nat, limits: Limits): seq<Candidate>
    requires n <= |s|
  {
    if n == 0 then [] else if FitsAt(s, n - 1, limits) then DeletedOf(s, n - 1, limits) else DeletedOf(s, n - 1, limits) + [s[n - 1]]
  }

  function Kept(s: seq<Candidate>, limits: Limits): seq<Candidate> { KeptOf(s, |s|, limits) }

  function Deleted(s: seq<Candidate>, limits: Limits): seq<Candidate> { DeletedOf(s, |s|, limits) }

  function Ids(s: seq<Candidate>): seq<string> { if s == [] then [] else Ids(s[..|s| - 1]) + [s[|s| - 1].id] }

  lemma IdsOne(s: seq<Candidate>, c: Candidate)
    ensures Ids(s + [c]) == Ids(s) + [c.id]
  {
    assert (s + [c])[..|s|] == s;
  }

  predicate NewestFirst(s: seq<Candidate>) { forall i, j :: 0 <= i < j < |s| ==> s[i].createdAt >= s[j].createdAt }

  function Inserted(s: seq<Candidate>, c: Candidate): seq<Candidate> {
    if s == [] || s[|s| - 1].createdAt >= c.createdAt then s + [c] else Inserted(s[..|s| - 1], c) + [s[|s| - 1]]
  }

  /** The stable sort by descending time. */
  function Sorted(s: seq<Candidate>): seq<Candidate> {
    if s == [] then [] else Inserted(Sorted(s[..|s| - 1]), s[|s| - 1])
  }

  lemma {:induction false} InsertedIsPermutation(s: seq<Candidate>, c: Candidate)
    ensures multiset(Inserted(s, c)) == multiset(s) + multiset{c}
  {
    if s != [] && s[|s| - 1].createdAt < c.createdAt {
      InsertedIsPermutation(s[..|s| - 1], c);
      assert s == s[..|s| - 1] + [s[|s| - 1]];
    }
  }

  lemma {:induction false} InsertedMembers(s: seq<Candidate>, c: Candidate, d: Candidate)
    ensures d in Inserted(s, c) <==> d in s || d == c
  {
    if s != [] && s[|s| - 1].createdAt < c.createdAt {
      InsertedMembers(s[..|s| - 1], c, d);
      assert s == s[..|s| - 1] + [s[|s| - 1]];
    }
  }

  lemma {:induction false} InsertedIsSorted(s: seq<Candidate>, c: Candidate)
    requires NewestFirst(s)
    ensures NewestFirst(Inserted(s, c))
  {
    if s != [] && s[|s| - 1].createdAt < c.createdAt {
      var n := |s| - 1;
      InsertedIsSorted(s[..n], c);
      var rest := Inserted(s[..n], c);
      forall i | 0 <= i < |rest| ensures rest[i].createdAt >= s[n].createdAt {
        InsertedMembers(s[..n], c, rest[i]);
      }
    }
  }

  lemma {:induction false} SortedIsPermutation(s: seq<Candidate>)
    ensures multiset(Sorted(s)) == multiset(s)
  {
    if s != [] {
      SortedIsPermutation(s[..|s| - 1]);
      InsertedIsPermutation(Sorted(s[..|s| - 1]), s[|s| - 1]);
      assert s == s[..|s| - 1] + [s[|s| - 1]];
    }
  }

  lemma {:induction false} SortedIsSorted(s: seq<Candidate>)
    ensures NewestFirst(Sorted(s)) && multiset(Sorted(s)) == multiset(s)
  {
    SortedIsPermutation(s);
    if s != [] {
      SortedIsSorted(s[..|s| - 1]);
      InsertedIsSorted(Sorted(s[..|s| - 1]), s[|s| - 1]);
    }
  }

  /** The walk over the candidates, newest first. */
  method WalkNewestFirst(ordered: seq<Candidate>, limits: Limits) returns (ids: seq<string>)
    ensures ids == Ids(Deleted(ordered, limits))
  {
    ids := [];
    var retainedCount: nat, retainedBytes: nat := 0, 0;
    for i := 0 to |ordered|
      invariant Retained(retainedCount, retainedBytes) == RetainedBy(ordered, i, limits)
      invariant ids == Ids(DeletedOf(ordered, i, limits))
    {
      var c := ordered[i];
      if c.createdAt < limits.oldest || retainedCount >= limits.events || retainedBytes + c.bytes > limits.bytes {
        IdsOne(DeletedOf(ordered, i, limits), c);
        ids := ids + [c.id];
      } else {
        retainedCount := retainedCount + 1;
        retainedBytes := retainedBytes + c.bytes;
      }
    }
  }

  /** The ids a prune at time `now` deletes. */
  method IdsToDelete(candidates: seq<Candidate>, now: int) returns (ids: seq<string>)
    ensures ids == Ids(Deleted(Sorted(candidates), LimitsAt(now)))
  {
    ids := WalkNewestFirst(Sorted(candidates), Limits(MAX_EVENTS, MAX_BYTES, now - MAX_AGE));
  }

  // ---- the policy ------------------------------------------------------------------------

  lemma {:induction false} KeptOrDeleted(s: seq<Candidate>, n: nat, limits: Limits)
    requires n <= |s|
    ensures multiset(KeptOf(s, n, limits)) + multiset(DeletedOf(s, n, limits)) == multiset(s[..n])
  {
    if n > 0 {
      KeptOrDeleted(s, n - 1, limits);
      assert s[..n] == s[..n - 1] + [s[n - 1]];
    }
  }

  /** The two counters are the size and the bytes of what is kept. */
  lemma {:induction false} RetainedIsKept(s: seq<Candidate>, n: nat, limits: Limits)
    requires n <= |s|
    ensures RetainedBy(s, n, limits) == Retained(|KeptOf(s, n, limits)|, Bytes(KeptOf(s, n, limits)))
  {
    if n > 0 {
      RetainedIsKept(s, n - 1, limits);
      BytesOne(KeptOf(s, n - 1, limits), s[n - 1]);
    }
  }

  lemma {:induction false} KeptFits(s: seq<Candidate>, n: nat, limits: Limits)
    requires n <= |s|
    ensures RetainedBy(s, n, limits).count <= limits.events && RetainedBy(s, n, limits).bytes <= limits.bytes
    ensures forall c :: c in KeptOf(s, n, limits) ==> !Expired(c, limits)
  {
    if n > 0 { KeptFits(s, n - 1, limits); }
  }

  /** Kept and deleted split the candidates, and what is kept respects every bound. */
  lemma WalkIsBounded(s: seq<Candidate>, limits: Limits)
    ensures multiset(Kept(s, limits)) + multiset(Deleted(s, limits)) == multiset(s)
    ensures |Kept(s, limits)| <= limits.events && Bytes(Kept(s, limits)) <= limits.bytes
    ensures forall c :: c in Kept(s, limits) ==> !Expired(c, limits)
  {
    KeptOrDeleted(s, |s|, limits);
    assert s[..|s|] == s;
    KeptFits(s, |s|, limits);
    RetainedIsKept(s, |s|, limits);
  }

  /** At most 100 events and 256 KiB are kept, none older than seven days. */
  lemma KeptIsBounded(s: seq<Candidate>, now: int)
    ensures multiset(Kept(s, LimitsAt(now))) + multiset(Deleted(s, LimitsAt(now))) == multiset(s)
    ensures |Kept(s, LimitsAt(now))| <= 100 && Bytes(Kept(s, LimitsAt(now))) <= 262_144
    ensures forall c :: c in Kept(s, LimitsAt(now)) ==> c.createdAt >= now - 604_800_000
  {
    WalkIsBounded(s, LimitsAt(now));
  }

  lemma {:induction false} KeptGrows(s: seq<Candidate>, i: nat, n: nat, limits: Limits)
    requires i <= n <= |s|
    ensures KeptOf(s, i, limits) <= KeptOf(s, n, limits)
  {
    if i < n { KeptGrows(s, i, n - 1, limits); }
  }

  lemma {:induction false} WalkMembers(s: seq<Candidate>, n: nat, limits: Limits, c: Candidate)
    requires n <= |s| && (c in KeptOf(s, n, limits) || c in DeletedOf(s, n, limits))
    ensures exists i :: 0 <= i < n && s[i] == c
  {
    if s[n - 1] != c { WalkMembers(s, n - 1, limits, c); }
  }

  /** `c` was deleted at position `i`: it is too old, or a bound breaks with the kept ones before it, all at least as new. */
  ghost predicate Justified(s: seq<Candidate>, limits: Limits, i: nat) {
    && i < |s| && KeptOf(s, i, limits) <= Kept(s, limits)
    && (forall k :: k in KeptOf(s, i, limits) ==> k.createdAt >= s[i].createdAt)
    && (Expired(s[i], limits) || |KeptOf(s, i, limits)| == limits.events || Bytes(KeptOf(s, i, limits)) + s[i].bytes > limits.bytes)
  }

  lemma {:induction false} DeletedAt(s: seq<Candidate>, n: nat, limits: Limits, c: Candidate)
    requires n <= |s| && c in DeletedOf(s, n, limits)
    ensures exists i: nat :: i < n && s[i] == c && !FitsAt(s, i, limits)
  {
    if c in DeletedOf(s, n - 1, limits) { DeletedAt(s, n - 1, limits, c); }
  }

  /** No event is deleted without reason. */
  lemma DeletionsAreJustified(s: seq<Candidate>, limits: Limits, c: Candidate)
    requires NewestFirst(s) && c in Deleted(s, limits)
    ensures exists i: nat :: i < |s| && s[i] == c && Justified(s, limits, i)
  {
    DeletedAt(s, |s|, limits, c);
    var i: nat :| i < |s| && s[i] == c && !FitsAt(s, i, limits);
    KeptGrows(s, i, |s|, limits);
    KeptFits(s, i, limits);
    RetainedIsKept(s, i, limits);
    forall k | k in KeptOf(s, i, limits) ensures k.createdAt >= s[i].createdAt {
      WalkMembers(s, i, limits, k);
    }
    assert Justified(s, limits, i);
  }

  /** What a prune deletes is older than seven days, or comes after 100 kept events, or does not fit in 256 KiB beside them. */
  lemma PrunedForAReason(s: seq<Candidate>, now: int, c: Candidate)
    requires NewestFirst(s) && c in Deleted(s, LimitsAt(now))
    ensures exists i: nat :: i < |s| && s[i] == c && Crowded(s, KeptOf(s, i, LimitsAt(now)), now, i)
  {
    DeletionsAreJustified(s, LimitsAt(now), c);
    var i: nat :| i < |s| && s[i] == c && Justified(s, LimitsAt(now), i);
    JustifiedIsCrowded(s, now, i);
  }

  lemma JustifiedIsCrowded(s: seq<Candidate>, now: int, i: nat)
    requires i < |s| && Justified(s, LimitsAt(now), i)
    ensures Crowded(s, KeptOf(s, i, LimitsAt(now)), now, i)
  {
    forall k | k in KeptOf(s, i, LimitsAt(now)) ensures k in s { WalkMembers(s, i, LimitsAt(now), k); }
  }

  /** Event `i` of the order is expired, or has no room beside `ahead`, which are all at least as new. */
  ghost predicate Crowded(s: seq<Candidate>, ahead: seq<Candidate>, now: int, i: nat)
    requires i < |s|
  {
    && (forall k :: k in ahead ==> k in s && k.createdAt >= s[i].createdAt)
    && (s[i].createdAt < now - 604_800_000 || |ahead| == 100 || Bytes(ahead) + s[i].bytes > 262_144)
  }

  lemma {:induction false} BytesSplit(a: seq<Candidate>, b: seq<Candidate>)
    ensures Bytes(a + b) == Bytes(a) + Bytes(b)
  {
    if b == [] {
      assert a + b == a;
    } else {
      assert (a + b)[..|a + b| - 1] == a + b[..|b| - 1];
      BytesSplit(a, b[..|b| - 1]);
    }
  }

  lemma {:induction false} BytesOfPermutation(a: seq<Candidate>, b: seq<Candidate>)
    requires multiset(a) == multiset(b)
    ensures Bytes(a) == Bytes(b) && |a| == |b|
  {
    assert |multiset(a)| == |a| && |multiset(b)| == |b|;
    if a != [] {
      var n := |a| - 1;
      assert a == a[..n] + [a[n]];
      assert a[n] in multiset(b);
      var j :| 0 <= j < |b| && b[j] == a[n];
      var rest := b[..j] + b[j + 1..];
      WithoutOne(b, j);
      BytesOfPermutation(a[..n], rest);
    }
  }

  lemma WithoutOne(b: seq<Candidate>, j: nat)
    requires j < |b|
    ensures var rest := b[..j] + b[j + 1..];
      multiset(rest) == multiset(b) - multiset{b[j]} && Bytes(b) == Bytes(rest) + b[j].bytes
  {
    assert b == b[..j] + [b[j]] + b[j + 1..];
    BytesSplit(b[..j] + [b[j]], b[j + 1..]);
    BytesOne(b[..j], b[j]);
    BytesSplit(b[..j], b[j + 1..]);
  }

  lemma {:induction false} AllRetained(s: seq<Candidate>, n: nat, limits: Limits)
    requires n <= |s| <= limits.events && Bytes(s) <= limits.bytes && forall c :: c in s ==> !Expired(c, limits)
    ensures RetainedBy(s, n, limits) == Retained(n, Bytes(s[..n]))
  {
    if n > 0 {
      AllRetained(s, n - 1, limits);
      PartOfBytes(s, n - 1);
    }
  }

  /** Nothing is deleted from what respects the bounds as a whole. */
  lemma {:induction false} AllFit(s: seq<Candidate>, n: nat, limits: Limits)
    requires n <= |s| && forall i :: 0 <= i < |s| ==> FitsAt(s, i, limits)
    ensures KeptOf(s, n, limits) == s[..n] && DeletedOf(s, n, limits) == []
  {
    if n > 0 {
      AllFit(s, n - 1, limits);
      assert s[..n] == s[..n - 1] + [s[n - 1]];
    }
  }

  lemma PartOfBytes(s: seq<Candidate>, n: nat)
    requires n < |s|
    ensures Bytes(s[..n + 1]) == Bytes(s[..n]) + s[n].bytes <= Bytes(s)
  {
    BytesOne(s[..n], s[n]);
    assert s[..n + 1] == s[..n] + [s[n]];
    assert s == (s[..n] + [s[n]]) + s[n + 1..];
    BytesSplit(s[..n] + [s[n]], s[n + 1..]);
  }

  /** Pruning what was kept, at the same time and in any order, deletes nothing. */
  lemma SecondPruneIsIdle(s: seq<Candidate>, limits: Limits, again: seq<Candidate>)
    requires multiset(again) == multiset(Kept(s, limits))
    ensures Deleted(again, limits) == [] && Kept(again, limits) == again
  {
    WalkIsBounded(s, limits);
    BytesOfPermutation(again, Kept(s, limits));
    forall c | c in again ensures !Expired(c, limits) {
      assert c in multiset(again);
    }
    forall i | 0 <= i < |again| ensures FitsAt(again, i, limits) {
      AllRetained(again, i, limits);
      PartOfBytes(again, i);
    }
    AllFit(again, |again|, limits);
    assert again[..|again|] == again;
  }

  ghost predicate DistinctIds(s: seq<Candidate>) { forall i, j :: 0 <= i < j < |s| ==> s[i].id != s[j].id }

  /** An event survives exactly when it fits after what is kept of the events ahead of it. */
  lemma {:induction false} SurvivesExactly(s: seq<Candidate>, i: nat, n: nat, limits: Limits)
    requires i < n <= |s| && DistinctIds(s)
    ensures s[i] in KeptOf(s, n, limits) <==> FitsAt(s, i, limits)
  {
    if i < n - 1 {
      SurvivesExactly(s, i, n - 1, limits);
      assert s[n - 1].id != s[i].id;
    } else {
      forall c | c in KeptOf(s, i, limits) ensures c.id != s[i].id { WalkMembers(s, i, limits, c); }
    }
  }

  /** An event newer than every other survives its own prune. */
  lemma NewestSurvives(s: seq<Candidate>, i: nat, limits: Limits)
    requires NewestFirst(s) && i < |s| && s[i].bytes <= limits.bytes && limits.events > 0 && !Expired(s[i], limits)
    requires forall j :: 0 <= j < |s| && j != i ==> s[j].createdAt < s[i].createdAt
    ensures s[i] in Kept(s, limits)
  {
    assert i == 0;
    assert KeptOf(s, 1, limits) == [s[0]];
    KeptGrows(s, 1, |s|, limits);
    assert Kept(s, limits)[0] == s[0];
  }

  // ---- the table --------------------------------------------------------------------------

  datatype Row = Row(createdAt: int, bytes: nat)

  /** `s` is a query result: every row of the table once. */
  ghost predicate Lists(rows: map<string, Row>, s: seq<Candidate>) {
    && DistinctIds(s)
    && (forall c :: c in s ==> c.id in rows && rows[c.id] == Row(c.createdAt, c.bytes))
    && (forall id :: id in rows ==> exists c :: c in s && c.id == id)
  }

  lemma {:induction false} IdsAre(s: seq<Candidate>)
    ensures forall id :: id in Ids(s) <==> exists c :: c in s && c.id == id
  {
    if s != [] {
      var n := |s| - 1;
      assert s == s[..n] + [s[n]];
      IdsAre(s[..n]);
    }
  }

  lemma {:induction false} SplitByIndex(s: seq<Candidate>, n: nat, limits: Limits)
    requires n <= |s| && DistinctIds(s)
    ensures forall k, d :: k in KeptOf(s, n, limits) && d in DeletedOf(s, n, limits) ==> k.id != d.id
    ensures forall i, j :: 0 <= i < j < |KeptOf(s, n, limits)| ==> KeptOf(s, n, limits)[i].id != KeptOf(s, n, limits)[j].id
  {
    if n > 0 {
      SplitByIndex(s, n - 1, limits);
      forall c | c in KeptOf(s, n - 1, limits) || c in DeletedOf(s, n - 1, limits)
        ensures c.id != s[n - 1].id
      {
        WalkMembers(s, n - 1, limits, c);
      }
    }
  }

  lemma SortedLists(rows: map<string, Row>, s: seq<Candidate>)
    requires Lists(rows, s)
    ensures Lists(rows, Sorted(s))
  {
    SortedIsSorted(s);
    var t := Sorted(s);
    forall c ensures c in t <==> c in s { assert c in multiset(t) <==> c in multiset(s); }
    forall i, j | 0 <= i < j < |t| ensures t[i].id != t[j].id {
      StaysDistinct(s, t, i, j);
    }
  }

  lemma StaysDistinct(s: seq<Candidate>, t: seq<Candidate>, i: nat, j: nat)
    requires multiset(s) == multiset(t) && i < j < |t|
    requires DistinctIds(s)
    ensures t[i].id != t[j].id
  {
    assert t[i] in multiset(t) && t[j] in multiset(t);
    assert t[i] in s && t[j] in s;
    Once(s, t[i]);
    if t[i] == t[j] { Twice(t, i, j); }
  }

  lemma Twice(t: seq<Candidate>, i: nat, j: nat)
    requires i < j < |t| && t[i] == t[j]
    ensures multiset(t)[t[i]] >= 2
  {
    assert t == t[..j] + ([t[j]] + t[j + 1..]);
    assert t[..j][i] in multiset(t[..j]);
    assert multiset(t) == multiset(t[..j]) + multiset([t[j]] + t[j + 1..]);
  }

  lemma {:induction false} Once(s: seq<Candidate>, c: Candidate)
    requires DistinctIds(s)
    ensures multiset(s)[c] <= 1
  {
    if s != [] {
      var n := |s| - 1;
      assert s == s[..n] + [s[n]];
      Once(s[..n], c);
      if c in s[..n] { assert c.id != s[n].id; }
    }
  }

  lemma KeptIsListed(rows: map<string, Row>, s: seq<Candidate>, limits: Limits, left: map<string, Row>)
    requires Lists(rows, s)
    requires forall id :: id in left <==> id in rows && id !in Ids(Deleted(s, limits))
    requires forall id :: id in left ==> left[id] == rows[id]
    ensures Lists(left, Kept(s, limits))
  {
    var kept, deleted := Kept(s, limits), Deleted(s, limits);
    SplitByIndex(s, |s|, limits);
    WalkIsBounded(s, limits);
    IdsAre(deleted);
    forall c ensures c in s <==> c in kept || c in deleted {
      assert c in multiset(s) <==> c in multiset(kept) || c in multiset(deleted);
    }
    forall id | id in left ensures exists c :: c in kept && c.id == id {
      var c :| c in s && c.id == id;
      assert c in kept;
    }
  }

  class DiagnosticTable {
    var rows: map<string, Row>

    constructor ()
      ensures rows == map[]
    {
      rows := map[];
    }

    /** The deletions of a prune, one by one. */
    method DeleteAll(ids: seq<string>)
      modifies this
      ensures forall id :: id in rows <==> id in old(rows) && id !in ids
      ensures forall id :: id in rows ==> rows[id] == old(rows)[id]
    {
      for i := 0 to |ids|
        invariant forall id :: id in rows <==> id in old(rows) && id !in ids[..i]
        invariant forall id :: id in rows ==> rows[id] == old(rows)[id]
      {
        assert ids[..i + 1] == ids[..i] + [ids[i]];
        rows := rows - {ids[i]};
      }
      assert ids[..|ids|] == ids;
    }

    /** The answer of the query is given, so any order of equally old events is covered. */
    method Prune(listed: seq<Candidate>, now: int)
      requires Lists(rows, listed)
      modifies this
      ensures Lists(rows, Kept(Sorted(listed), LimitsAt(now)))
    {
      SortedLists(rows, listed);
      var ids := IdsToDelete(listed, now);
      DeleteAll(ids);
      KeptIsListed(old(rows), Sorted(listed), LimitsAt(now), rows);
    }

    /**
     An event above the byte limit is not recorded.  Any other is inserted and the table pruned at its time; the event
     is there afterwards if and only if it fits after what is kept of the events listed ahead of it.
     */
    method Record(id: string, createdAt: int, bytes: nat, listed: seq<Candidate>)
      requires Lists(rows[id := Row(createdAt, bytes)], listed)
      modifies this
      ensures bytes > 262_144 ==> rows == old(rows)
      ensures bytes <= 262_144 ==> Lists(rows, Kept(Sorted(listed), LimitsAt(createdAt)))
      ensures bytes <= 262_144 ==>
        forall i :: 0 <= i < |Sorted(listed)| && Sorted(listed)[i].id == id ==> (id in rows <==> HasRoom(Sorted(listed), i, createdAt))
      ensures bytes <= 262_144 && (forall other :: other in old(rows) && other != id ==> old(rows)[other].createdAt < createdAt) ==>
        id in rows
      ensures id in rows && bytes <= 262_144 ==> rows[id] == Row(createdAt, bytes)
    {
      if bytes > MAX_BYTES { return; }
      rows := rows[id := Row(createdAt, bytes)];
      ghost var inserted := rows;
      Prune(listed, createdAt);
      RecordedExactly(inserted, rows, id, listed);
      if forall other :: other in old(rows) && other != id ==> old(rows)[other].createdAt < createdAt {
        NewEventSurvives(inserted, id, listed);
      }
    }
  }

  /** Room for event `i` of the order beside the kept events ahead of it. */
  predicate HasRoom(s: seq<Candidate>, i: nat, now: int)
    requires i < |s|
  {
    RetainedBy(s, i, LimitsAt(now)).count < 100 && RetainedBy(s, i, LimitsAt(now)).bytes + s[i].bytes <= 262_144
  }

  lemma KeptExactly(left: map<string, Row>, s: seq<Candidate>, i: nat, limits: Limits)
    requires DistinctIds(s) && i < |s| && Lists(left, Kept(s, limits))
    ensures s[i].id in left <==> FitsAt(s, i, limits)
    ensures s[i].id in left ==> left[s[i].id] == Row(s[i].createdAt, s[i].bytes)
  {
    SurvivesExactly(s, i, |s|, limits);
    if s[i].id in left {
      var c :| c in Kept(s, limits) && c.id == s[i].id;
      WalkMembers(s, |s|, limits, c);
      assert c == s[i];
    }
  }

  lemma RecordedExactly(inserted: map<string, Row>, left: map<string, Row>, id: string, listed: seq<Candidate>)
    requires Lists(inserted, listed) && id in inserted
    requires Lists(left, Kept(Sorted(listed), LimitsAt(inserted[id].createdAt)))
    ensures forall i :: 0 <= i < |Sorted(listed)| && Sorted(listed)[i].id == id ==>
      (id in left <==> HasRoom(Sorted(listed), i, inserted[id].createdAt))
    ensures id in left ==> left[id] == inserted[id]
  {
    var s, limits := Sorted(listed), LimitsAt(inserted[id].createdAt);
    SortedLists(inserted, listed);
    forall i | 0 <= i < |s| && s[i].id == id
      ensures id in left <==> HasRoom(s, i, inserted[id].createdAt)
      ensures id in left ==> left[id] == inserted[id]
    {
      assert s[i] in s;
      KeptExactly(left, s, i, limits);
    }
    var c :| c in s && c.id == id;
  }

  lemma NewEventSurvives(rows: map<string, Row>, id: string, listed: seq<Candidate>)
    requires Lists(rows, listed) && id in rows && rows[id].bytes <= 262_144
    requires forall other :: other in rows && other != id ==> rows[other].createdAt < rows[id].createdAt
    ensures Candidate(id, rows[id].createdAt, rows[id].bytes) in Kept(Sorted(listed), LimitsAt(rows[id].createdAt))
  {
    SortedLists(rows, listed);
    SortedIsSorted(listed);
    var s := Sorted(listed);
    var c :| c in s && c.id == id;
    var i :| 0 <= i < |s| && s[i] == c;
    forall j | 0 <= j < |s| && j != i ensures s[j].createdAt < s[i].createdAt {
      assert s[j] in s && s[j].id != id;
    }
    NewestSurvives(s, i, LimitsAt(rows[id].createdAt));
  }

  lemma KeptWereListed(rows: map<string, Row>, listed: seq<Candidate>, limits: Limits, id: string)
    requires Lists(rows, Kept(Sorted(listed), limits)) && id in rows
    ensures exists c :: c in listed && c.id == id
  {
    var c :| c in Kept(Sorted(listed), limits) && c.id == id;
    WalkMembers(Sorted(listed), |Sorted(listed)|, limits, c);
    SortedIsPermutation(listed);
    assert c in multiset(Sorted(listed));
    assert c in multiset(listed);
  }

  lemma TieOrder(first: Candidate, second: Candidate)
    requires first.createdAt == second.createdAt
    ensures Sorted([first, second]) == [first, second]
  {
    assert [first, second][..1] == [first] && [first][..0] == [];
    assert Sorted([first]) == [first];
  }

  lemma SecondHasNoRoom(first: Candidate, second: Candidate, now: int)
    requires first.createdAt == second.createdAt == now && first.bytes == 1 && second.bytes == 262_144
    ensures !HasRoom([first, second], 1, now)
  {
    assert RetainedBy([first, second], 1, LimitsAt(now)) == Retained(1, 1);
  }

  /** A tie that loses: the full-sized event recorded second is listed after an equally old one and is gone at once. */
  method TiesCanLose(now: int) returns (table: DiagnosticTable)
    ensures fresh(table) && "new" !in table.rows
  {
    table := new DiagnosticTable();
    var first, second := Candidate("old", now, 1), Candidate("new", now, MAX_BYTES);
    assert first.id[0] != second.id[0];
    table.Record("old", now, 1, [first]);
    forall id | id in table.rows ensures id == "old" { KeptWereListed(table.rows, [first], LimitsAt(now), id); }
    table.Record("new", now, MAX_BYTES, [first, second]);
    TieOrder(first, second);
    SecondHasNoRoom(first, second, now);
  }
}

/** Seed-on-first-read, shared by the job, company, event and news services:
    count the collection; when it is empty, `addDoc` each canonical record in
    order. Operation 0 of a seed is the count query, operation `1 + i` the
    insertion of record `i`. Also the `getDocs` snapshot of a collection. */
module Seeding {
  import opened Common

  /** The documents that inserting `recs` in order creates when the id
      counter starts at `base`. */
  function Seeded<T>(base: nat, recs: seq<T>): map<string, T>
    decreases |recs|
  {
    if recs == [] then map[]
    else Seeded(base, recs[..|recs| - 1])[AutoId(base + |recs| - 1) := recs[|recs| - 1]]
  }

  /** The generated ids that are keys of `Seeded(base, recs)` are exactly the
      `|recs|` ids from `base` on. */
  lemma {:induction false} SeededKeys<T>(base: nat, recs: seq<T>)
    ensures forall n: nat :: AutoId(n) in Seeded(base, recs) <==> base <= n < base + |recs|
    decreases |recs|
  {
    if recs != [] {
      var last := |recs| - 1;
      SeededKeys(base, recs[..last]);
      forall n: nat
        ensures AutoId(n) in Seeded(base, recs) <==> base <= n < base + |recs|
      {
        AutoIdInjective(n, base + last);
      }
    }
  }

  /** Record `i` of `recs` is stored under the `i`-th generated id from `base`,
      and there are no other documents. */
  lemma {:induction false} SeededShape<T>(base: nat, recs: seq<T>)
    ensures |Seeded(base, recs)| == |recs|
    ensures forall i :: 0 <= i < |recs| ==>
      AutoId(base + i) in Seeded(base, recs) && Seeded(base, recs)[AutoId(base + i)] == recs[i]
    decreases |recs|
  {
    SeededKeys(base, recs);
    if recs != [] {
      var last := |recs| - 1;
      var init := recs[..last];
      SeededShape(base, init);
      SeededKeys(base, init);
      assert AutoId(base + last) !in Seeded(base, init);
      forall i | 0 <= i < last
        ensures Seeded(base, recs)[AutoId(base + i)] == recs[i]
      {
        AutoIdInjective(base + i, base + last);
        assert init[i] == recs[i];
      }
    }
  }

  /** How many canonical records the store accepts before it fails, once it
      has answered the count query (operation 0). */
  function Written(o: Outage, n: nat): (w: nat)
    requires Answers(o, 0)
    ensures w <= n
    ensures forall op: nat :: 1 <= op <= w ==> Answers(o, op)
    ensures w < n ==> !Answers(o, 1 + w)
  {
    if o.Reachable? || n < o.after then n else o.after - 1
  }

  /** The collection, the id counter and whether the seed completed (false:
      the seed threw). */
  datatype SeedResult<T> = SeedResult(coll: map<string, T>, next: nat, ok: bool)

  /** What `seedX()` does to a collection: nothing without a database, a
      failure if the count query fails, nothing if the collection holds any
      document, otherwise the insertion, in order, of the canonical records
      the store accepts. */
  function SeedOutcome<T>(configured: bool, coll: map<string, T>, recs: seq<T>, next: nat, o: Outage)
    : (r: SeedResult<T>)
    ensures !configured || |coll| != 0 ==> r.coll == coll && r.next == next
    ensures !configured ==> r.ok
    ensures configured ==> (r.ok <==> Answers(o, SeedOps(coll, |recs|) - 1))
    ensures next <= r.next
  {
    if !configured then SeedResult(coll, next, true)
    else if !Answers(o, 0) then SeedResult(coll, next, false)
    else if |coll| != 0 then SeedResult(coll, next, true)
    else
      var w := Written(o, |recs|);
      SeedResult(Seeded(next, recs[..w]), next + w, w == |recs|)
  }

  /** Once the count query is answered, an empty collection ends up holding
      the canonical records the store accepted before failing, in order under
      consecutive generated ids; none when the first insertion fails. */
  lemma SeedLeavesPrefix<T>(coll: map<string, T>, recs: seq<T>, next: nat, o: Outage)
    requires |coll| == 0 && Answers(o, 0)
    ensures var r := SeedOutcome(true, coll, recs, next, o);
      r.next - next <= |recs| && r.coll == Seeded(next, recs[..r.next - next])
  {
  }

  /** A completed seed of an empty collection leaves exactly the canonical
      records, each under a freshly generated id. */
  lemma SeedFillsEmpty<T>(coll: map<string, T>, recs: seq<T>, next: nat, o: Outage)
    requires |coll| == 0
    requires SeedOutcome(true, coll, recs, next, o).ok
    ensures var r := SeedOutcome(true, coll, recs, next, o);
      && r.next == next + |recs|
      && |r.coll| == |recs|
      && (forall i :: 0 <= i < |recs| ==> AutoId(next + i) in r.coll && r.coll[AutoId(next + i)] == recs[i])
      && Fresh(r.next, r.coll)
  {
    assert recs[..|recs|] == recs;
    SeededShape(next, recs);
    SeededKeys(next, recs);
  }

  /** After a seed that completed, the collection is non-empty exactly when it
      was non-empty before or there are canonical records. */
  lemma SeedNonEmpty<T>(configured: bool, coll: map<string, T>, recs: seq<T>, next: nat, o: Outage)
    requires configured
    requires SeedOutcome(configured, coll, recs, next, o).ok
    ensures |SeedOutcome(configured, coll, recs, next, o).coll| > 0 <==> |coll| > 0 || |recs| > 0
  {
    if |coll| == 0 {
      SeedFillsEmpty(coll, recs, next, o);
    }
  }

  /** Seeding twice against a reachable store is seeding once. */
  lemma {:induction false} SeedIdempotent<T>(configured: bool, coll: map<string, T>, recs: seq<T>, next: nat)
    ensures var once := SeedOutcome(configured, coll, recs, next, Reachable);
      SeedOutcome(configured, once.coll, recs, once.next, Reachable) == once
  {
    var once := SeedOutcome(configured, coll, recs, next, Reachable);
    if configured && |coll| == 0 && recs != [] {
      SeedFillsEmpty(coll, recs, next, Reachable);
    }
  }

  /** A seed that failed after some insertions leaves a proper prefix of the
      canonical records, and every later seed takes that for a seeded
      collection and adds nothing. */
  lemma {:induction false} PartialSeedIsFinal<T>(coll: map<string, T>, recs: seq<T>, next: nat, o: Outage, o': Outage)
    requires |coll| == 0
    requires var r := SeedOutcome(true, coll, recs, next, o); !r.ok && r.next > next
    ensures var r := SeedOutcome(true, coll, recs, next, o);
      && 0 < r.next - next < |recs|
      && r.coll == Seeded(next, recs[..r.next - next])
      && 0 < |r.coll| < |recs|
      && var r' := SeedOutcome(true, r.coll, recs, r.next, o'); r'.coll == r.coll && r'.next == r.next
  {
    var w := Written(o, |recs|);
    SeededShape(next, recs[..w]);
  }

  /** The number of store operations a seed uses when it completes: the count
      query, and one insertion per record when the collection was empty. The
      seed throws exactly when the last of these is not answered. */
  function SeedOps<T>(coll: map<string, T>, n: nat): nat {
    if |coll| != 0 then 1 else 1 + n
  }

  /** `docs` is a snapshot of `m`: every document exactly once, with its id. */
  ghost predicate Lists<T>(docs: seq<Doc<T>>, m: map<string, T>) {
    && |docs| == |m|
    && (forall i :: 0 <= i < |docs| ==> docs[i].id in m && m[docs[i].id] == docs[i].data)
    && (forall i, j :: 0 <= i < j < |docs| ==> docs[i].id != docs[j].id)
    && (forall k :: k in m ==> Doc(k, m[k]) in docs)
  }

  /** In a list of documents with distinct ids each document occurs at most once. */
  lemma {:induction false} DistinctIdsOnce<T>(a: seq<Doc<T>>, x: Doc<T>)
    requires forall i, j :: 0 <= i < j < |a| ==> a[i].id != a[j].id
    ensures multiset(a)[x] == if x in a then 1 else 0
    decreases |a|
  {
    if a != [] {
      assert a == [a[0]] + a[1..];
      assert forall i :: 0 <= i < |a[1..]| ==> a[1..][i] == a[i + 1];
      DistinctIdsOnce(a[1..], x);
    }
  }

  /** Two snapshots of the same collection hold the same documents; they may
      differ only in order. */
  lemma ListsSameMultiset<T>(a: seq<Doc<T>>, b: seq<Doc<T>>, m: map<string, T>)
    requires Lists(a, m) && Lists(b, m)
    ensures multiset(a) == multiset(b)
  {
    forall x
      ensures multiset(a)[x] == multiset(b)[x]
    {
      DistinctIdsOnce(a, x);
      DistinctIdsOnce(b, x);
      if x in a {
        var i :| 0 <= i < |a| && a[i] == x;
        assert Doc(x.id, m[x.id]) in b;
      }
      if x in b {
        var i :| 0 <= i < |b| && b[i] == x;
        assert Doc(x.id, m[x.id]) in a;
      }
    }
    assert multiset(a) == multiset(b);
  }

  /** `getDocs(collection)` followed by `docs.map(doc => ({ id: doc.id, ...doc.data() }))`.
      The store's own order of the snapshot is not modelled. */
  method Snapshot<T>(m: map<string, T>) returns (docs: seq<Doc<T>>)
    ensures Lists(docs, m)
  {
    docs := [];
    var done: set<string> := {};
    while done != m.Keys
      invariant done <= m.Keys && |docs| == |done|
      invariant forall i :: 0 <= i < |docs| ==> docs[i].id in done && m[docs[i].id] == docs[i].data
      invariant forall i, j :: 0 <= i < j < |docs| ==> docs[i].id != docs[j].id
      invariant forall k :: k in done ==> Doc(k, m[k]) in docs
      decreases m.Keys - done
    {
      assert m.Keys - done != {};
      var k :| k in m.Keys - done;
      docs := docs + [Doc(k, m[k])];
      done := done + {k};
    }
  }

  /** The loop of `seedX()`: when the collection is empty, `addDoc` each
      canonical record in turn; `ok` is false when the seed throws. */
  method SeedCollection<T>(configured: bool, coll: map<string, T>, recs: seq<T>, next: nat, o: Outage)
    returns (coll': map<string, T>, next': nat, ok: bool)
    requires Fresh(next, coll)
    ensures SeedResult(coll', next', ok) == SeedOutcome(configured, coll, recs, next, o)
    ensures Fresh(next', coll')
  {
    if !configured || !Answers(o, 0) || |coll| != 0 {
      return coll, next, !configured || Answers(o, 0);
    }
    coll', next' := coll, next;
    for i := 0 to |recs|
      invariant coll' == Seeded(next, recs[..i])
      invariant next' == next + i
      invariant Answers(o, i)
      invariant Fresh(next', coll')
    {
      if !Answers(o, 1 + i) {
        assert Written(o, |recs|) == i;
        return coll', next', false;
      }
      assert recs[..i + 1][..i] == recs[..i];
      SeededKeys(next, recs[..i + 1]);
      coll' := coll'[AutoId(next') := recs[i]];
      next' := next' + 1;
    }
    assert recs[..|recs|] == recs;
    ok := true;
  }

  /** The id of the `i`-th document of a fallback list: `${prefix}${i}`. */
  function MockId(prefix: string, i: nat): string {
    prefix + NatToString(i)
  }

  /** The fallback list a service returns without a database:
      `recs.map((r, i) => ({ ...r, id: `${prefix}${i}` }))`. */
  function MockDocs<T>(prefix: string, recs: seq<T>): (r: seq<Doc<T>>)
    ensures |r| == |recs|
    ensures forall i :: 0 <= i < |r| ==> r[i].data == recs[i] && r[i].id == MockId(prefix, i)
  {
    seq(|recs|, i requires 0 <= i < |recs| => Doc(MockId(prefix, i), recs[i]))
  }

  /** No two documents of a fallback list share an id. */
  lemma MockIdsDistinct<T>(prefix: string, recs: seq<T>)
    ensures forall i, j :: 0 <= i < j < |recs| ==> MockDocs(prefix, recs)[i].id != MockDocs(prefix, recs)[j].id
  {
    var r := MockDocs(prefix, recs);
    forall i, j | 0 <= i < j < |recs|
      ensures r[i].id != r[j].id
    {
      if r[i].id == r[j].id {
        assert NatToString(i) == r[i].id[|prefix|..] == r[j].id[|prefix|..] == NatToString(j);
        NatToStringInjective(i, j);
      }
    }
  }
}

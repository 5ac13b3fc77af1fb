/** The gateway's cache (backend/internal/learning/gateway.go): a map and a recency list
    bounded in entries and in bytes. */
module Cache {
  import opened Domain

  type Bytes = seq<nat>

  datatype Entry = Entry(key: Id, data: Bytes, expires: int)

  /** Milliseconds. */
  const DAY := 86400000

  // ---------- Specification: entries, most recently used first ----------

  function Size(entries: seq<Entry>): (n: nat)
  {
    if entries == [] then 0 else Size(entries[..|entries| - 1]) + |entries[|entries| - 1].data|
  }

  function EntryFor(entries: seq<Entry>, key: Id): (r: Option<Entry>)
    ensures r.Some? ==> r.value in entries && r.value.key == key
    ensures r.None? ==> forall e :: e in entries ==> e.key != key
  {
    if entries == [] then None
    else if entries[0].key == key then Some(entries[0])
    else EntryFor(entries[1..], key)
  }

  /** Without the entry for a key. */
  function Without(entries: seq<Entry>, key: Id): (r: seq<Entry>)
    ensures |r| <= |entries|
    ensures forall e :: e in r ==> e in entries
  {
    if entries == [] then []
    else if entries[0].key == key then entries[1..]
    else [entries[0]] + Without(entries[1..], key)
  }

  /** Drops the least recently used entries until fewer than `n` with at most `room` bytes are left. */
  function Trimmed(entries: seq<Entry>, n: nat, room: nat): (r: seq<Entry>)
    requires n > 0
    ensures |r| <= |entries| && r == entries[..|r|]
    ensures |r| < n && Size(r) <= room
  {
    if |entries| >= n || Size(entries) > room then Trimmed(entries[..|entries| - 1], n, room) else entries
  }

  function AfterGet(entries: seq<Entry>, key: Id, now: int): (seq<Entry>, Option<Bytes>) {
    var e := EntryFor(entries, key);
    if e.None? then (entries, None)
    else if now > e.value.expires then (Without(entries, key), None)
    else ([e.value] + Without(entries, key), Some(e.value.data))
  }

  function AfterPut(entries: seq<Entry>, key: Id, data: Bytes, now: int, maxEntries: nat, maxBytes: nat): seq<Entry>
    requires maxEntries > 0
  {
    if |data| > maxBytes then entries
    else [Entry(key, data, now + DAY)] + Trimmed(Without(entries, key), maxEntries, maxBytes - |data|)
  }

  predicate OneEach(entries: seq<Entry>) {
    forall i, j :: 0 <= i < j < |entries| ==> entries[i].key != entries[j].key
  }

  predicate Bounded(entries: seq<Entry>, maxEntries: nat, maxBytes: nat) {
    |entries| <= maxEntries && Size(entries) <= maxBytes
  }

  // ---------- Sizes ----------

  lemma {:induction false} SizeJoin(a: seq<Entry>, b: seq<Entry>)
    ensures Size(a + b) == Size(a) + Size(b)
    decreases |b|
  {
    if b == [] {
      assert a + b == a;
    } else {
      var last := |b| - 1;
      SizeJoin(a, b[..last]);
      assert (a + b)[..|a + b| - 1] == a + b[..last];
    }
  }

  lemma SizeCons(e: Entry, entries: seq<Entry>)
    ensures Size([e] + entries) == |e.data| + Size(entries)
  {
    SizeJoin([e], entries);
  }

  lemma {:induction false} WithoutSize(entries: seq<Entry>, key: Id)
    ensures Size(Without(entries, key))
      == Size(entries) - (if EntryFor(entries, key).Some? then |EntryFor(entries, key).value.data| else 0)
    decreases |entries|
  {
    if entries != [] {
      assert entries == [entries[0]] + entries[1..];
      SizeCons(entries[0], entries[1..]);
      if entries[0].key != key {
        WithoutSize(entries[1..], key);
        SizeCons(entries[0], Without(entries[1..], key));
      }
    }
  }

  lemma {:induction false} WithoutKeys(entries: seq<Entry>, key: Id)
    requires OneEach(entries)
    ensures OneEach(Without(entries, key))
    ensures forall e :: e in Without(entries, key) <==> e in entries && e.key != key
    decreases |entries|
  {
    if entries != [] {
      var rest := Without(entries[1..], key);
      WithoutKeys(entries[1..], key);
      assert entries == [entries[0]] + entries[1..];
      if entries[0].key != key {
        forall j | 0 <= j < |rest|
          ensures rest[j].key != entries[0].key
        {
          assert rest[j] in entries[1..];
          var k :| 0 <= k < |entries| - 1 && entries[1..][k] == rest[j];
          assert entries[k + 1] == rest[j];
        }
      } else {
        forall e | e in entries[1..]
          ensures e.key != key
        {
          var k :| 0 <= k < |entries| - 1 && entries[1..][k] == e;
          assert entries[k + 1] == e;
        }
      }
    }
  }

  // ---------- What the specification promises ----------

  /** The longest most-recent prefix that leaves room is kept: one more entry and either
      bound would be broken. */
  lemma {:induction false} TrimsNoMore(entries: seq<Entry>, n: nat, room: nat, m: nat)
    requires n > 0 && |Trimmed(entries, n, room)| < m <= |entries|
    ensures m >= n || Size(entries[..m]) > room
    decreases |entries|
  {
    if m == |entries| {
      assert entries[..m] == entries;
    } else {
      var front := entries[..|entries| - 1];
      TrimsNoMore(front, n, room, m);
      assert front[..m] == entries[..m];
    }
  }

  /** Every operation keeps one entry per key and both bounds. */
  lemma GetKeeps(entries: seq<Entry>, key: Id, now: int, maxEntries: nat, maxBytes: nat)
    requires OneEach(entries) && Bounded(entries, maxEntries, maxBytes)
    ensures OneEach(AfterGet(entries, key, now).0) && Bounded(AfterGet(entries, key, now).0, maxEntries, maxBytes)
    ensures forall e :: e in AfterGet(entries, key, now).0 ==> e in entries
  {
    WithoutKeys(entries, key);
    WithoutSize(entries, key);
    var e := EntryFor(entries, key);
    if e.Some? {
      SizeCons(e.value, Without(entries, key));
      FoundShorter(entries, key);
    }
  }

  lemma {:induction false} FoundShorter(entries: seq<Entry>, key: Id)
    ensures |Without(entries, key)| == |entries| - (if EntryFor(entries, key).Some? then 1 else 0)
    decreases |entries|
  {
    if entries != [] && entries[0].key != key {
      FoundShorter(entries[1..], key);
    }
  }

  /** A lookup hits exactly when there is an entry for the key that has not expired, and gives
      its data; an expired entry is dropped, and every other entry stays. */
  lemma GetHits(entries: seq<Entry>, key: Id, now: int)
    requires OneEach(entries)
    ensures AfterGet(entries, key, now).1.Some? <==> exists e :: e in entries && e.key == key && now <= e.expires
    ensures AfterGet(entries, key, now).1.Some? ==> exists e ::
      e in entries && e.key == key && now <= e.expires && e.data == AfterGet(entries, key, now).1.value
    ensures forall e :: e in AfterGet(entries, key, now).0 <==> e in entries && (e.key == key ==> now <= e.expires)
  {
    WithoutKeys(entries, key);
    var found := EntryFor(entries, key);
    if found.Some? {
      forall e | e in entries && e.key == key
        ensures e == found.value
      {
        SameKey(entries, e, found.value);
      }
    }
  }

  lemma SameKey(entries: seq<Entry>, e: Entry, f: Entry)
    requires OneEach(entries) && e in entries && f in entries && e.key == f.key
    ensures e == f
  {
  }

  /** What is small enough is found again for a day, whatever had to go for it. */
  lemma PutThenGet(entries: seq<Entry>, key: Id, data: Bytes, now: int, n: nat, max: nat, later: int)
    requires n > 0 && |data| <= max && later <= now + DAY
    ensures AfterGet(AfterPut(entries, key, data, now, n, max), key, later).1 == Some(data)
  {
  }

  /** A put with a place and the bytes to spare drops nothing else. */
  lemma PutKeepsOthers(entries: seq<Entry>, key: Id, data: Bytes, now: int, n: nat, max: nat, e: Entry)
    requires n > 0 && OneEach(entries) && e in entries && e.key != key
    requires |entries| < n && Size(entries) + |data| <= max
    ensures e in AfterPut(entries, key, data, now, n, max)
  {
    WithoutKeys(entries, key);
    WithoutSize(entries, key);
  }

  lemma PutKeeps(entries: seq<Entry>, key: Id, data: Bytes, now: int, maxEntries: nat, maxBytes: nat)
    requires maxEntries > 0 && OneEach(entries) && Bounded(entries, maxEntries, maxBytes)
    ensures OneEach(AfterPut(entries, key, data, now, maxEntries, maxBytes))
    ensures Bounded(AfterPut(entries, key, data, now, maxEntries, maxBytes), maxEntries, maxBytes)
  {
    if |data| <= maxBytes {
      var rest := Without(entries, key);
      var kept := Trimmed(rest, maxEntries, maxBytes - |data|);
      WithoutKeys(entries, key);
      forall x | x in kept
        ensures x.key != key
      {
        assert x in rest;
      }
      SizeCons(Entry(key, data, now + DAY), kept);
    }
  }

  // ---------- Runs ----------

  datatype Op = Get(key: Id, now: int) | Put(key: Id, data: Bytes, now: int)

  function After(ops: seq<Op>, maxEntries: nat, maxBytes: nat): seq<Entry>
    requires maxEntries > 0
  {
    if ops == [] then []
    else
      var entries := After(ops[..|ops| - 1], maxEntries, maxBytes);
      match ops[|ops| - 1]
      case Get(key, now) => AfterGet(entries, key, now).0
      case Put(key, data, now) => AfterPut(entries, key, data, now, maxEntries, maxBytes)
  }

  /** The last value put for a key, of those that are at most `limit` bytes long. */
  function LastPut(ops: seq<Op>, key: Id, limit: Option<nat>): Option<Op> {
    if ops == [] then None
    else
      var op := ops[|ops| - 1];
      if op.Put? && op.key == key && (limit.Some? ==> |op.data| <= limit.value) then Some(op)
      else LastPut(ops[..|ops| - 1], key, limit)
  }

  ghost predicate Faithful(ops: seq<Op>, entries: seq<Entry>, maxBytes: nat) {
    forall e :: e in entries ==>
      && LastPut(ops, e.key, Some(maxBytes)).Some?
      && LastPut(ops, e.key, Some(maxBytes)).value.Put?
      && LastPut(ops, e.key, Some(maxBytes)).value.data == e.data
      && LastPut(ops, e.key, Some(maxBytes)).value.now + DAY == e.expires
  }

  /** After any operations the cache is bounded, holds one entry per key, and each entry
      is the last one admitted for its key. */
  lemma {:induction false} RunKeeps(ops: seq<Op>, maxEntries: nat, maxBytes: nat)
    requires maxEntries > 0
    ensures OneEach(After(ops, maxEntries, maxBytes)) && Bounded(After(ops, maxEntries, maxBytes), maxEntries, maxBytes)
    ensures Faithful(ops, After(ops, maxEntries, maxBytes), maxBytes)
    decreases |ops|
  {
    if ops != [] {
      var front, op := ops[..|ops| - 1], ops[|ops| - 1];
      var entries := After(front, maxEntries, maxBytes);
      RunKeeps(front, maxEntries, maxBytes);
      match op {
        case Get(key, now) => GetKeeps(entries, key, now, maxEntries, maxBytes);
        case Put(key, data, now) =>
          PutKeeps(entries, key, data, now, maxEntries, maxBytes);
          WithoutKeys(entries, key);
          if |data| <= maxBytes {
            var kept := Trimmed(Without(entries, key), maxEntries, maxBytes - |data|);
            forall e | e in kept
              ensures e in entries && e.key != key
            {
              assert e in Without(entries, key);
            }
          }
      }
    }
  }

  /** A hit is the last admitted value, not older than a day. */
  lemma HitIsLastAdmitted(ops: seq<Op>, key: Id, now: int, maxEntries: nat, maxBytes: nat)
    requires maxEntries > 0 && AfterGet(After(ops, maxEntries, maxBytes), key, now).1.Some?
    ensures
      var last := LastPut(ops, key, Some(maxBytes));
      && last.Some? && last.value.Put?
      && AfterGet(After(ops, maxEntries, maxBytes), key, now).1 == Some(last.value.data)
      && now <= last.value.now + DAY
  {
    RunKeeps(ops, maxEntries, maxBytes);
  }

  lemma {:induction false} AdmittedIsPut(ops: seq<Op>, key: Id, limit: nat)
    requires LastPut(ops, key, Some(limit)).Some?
    ensures LastPut(ops, key, None).Some? && LastPut(ops, key, None).value.Put?
      && LastPut(ops, key, None).value.key == key
    ensures LastPut(ops, key, Some(limit)).value.Put? && |LastPut(ops, key, Some(limit)).value.data| <= limit
    ensures |LastPut(ops, key, None).value.data| <= limit ==> LastPut(ops, key, None) == LastPut(ops, key, Some(limit))
    decreases |ops|
  {
    if ops != [] {
      var op := ops[|ops| - 1];
      if !(op.Put? && op.key == key) {
        AdmittedIsPut(ops[..|ops| - 1], key, limit);
      } else if |op.data| > limit {
        AdmittedIsPut(ops[..|ops| - 1], key, limit);
      }
    }
  }

  /** For callers that may put a key again while it is cached: a hit is the last value put
      exactly when that value was small enough to be admitted. The gateway never puts such
      a key, so there every hit is the last value put (GatewayRuns.HitIsLatestWanted). */
  lemma HitIsLastPutUnlessOversized(ops: seq<Op>, key: Id, now: int, maxEntries: nat, maxBytes: nat)
    requires maxEntries > 0 && AfterGet(After(ops, maxEntries, maxBytes), key, now).1.Some?
    ensures LastPut(ops, key, None).Some? && LastPut(ops, key, None).value.Put?
    ensures AfterGet(After(ops, maxEntries, maxBytes), key, now).1 == Some(LastPut(ops, key, None).value.data)
      <==> |LastPut(ops, key, None).value.data| <= maxBytes
  {
    HitIsLastAdmitted(ops, key, now, maxEntries, maxBytes);
    AdmittedIsPut(ops, key, maxBytes);
  }

  // ---------- Order of use ----------

  /** The operation uses the key: it admits a value for it, or finds one. */
  predicate Uses(op: Op, entries: seq<Entry>, maxBytes: nat, key: Id) {
    match op
    case Get(k, now) => k == key && AfterGet(entries, key, now).1.Some?
    case Put(k, data, _) => k == key && |data| <= maxBytes
  }

  /** The number of the operation that used the key last; 0 when none did. */
  function LastUse(ops: seq<Op>, maxEntries: nat, maxBytes: nat, key: Id): (n: nat)
    requires maxEntries > 0
    ensures n <= |ops|
  {
    if ops == [] then 0
    else
      var front := ops[..|ops| - 1];
      if Uses(ops[|ops| - 1], After(front, maxEntries, maxBytes), maxBytes, key) then |ops|
      else LastUse(front, maxEntries, maxBytes, key)
  }

  /** The most recently used first. */
  ghost predicate ByUse(ops: seq<Op>, maxEntries: nat, maxBytes: nat, entries: seq<Entry>)
    requires maxEntries > 0
  {
    forall i, j :: 0 <= i < j < |entries| ==>
      LastUse(ops, maxEntries, maxBytes, entries[i].key) > LastUse(ops, maxEntries, maxBytes, entries[j].key)
  }

  /** Leaving one entry out keeps the order. */
  lemma {:induction false} WithoutByUse(ops: seq<Op>, maxEntries: nat, maxBytes: nat, entries: seq<Entry>, key: Id)
    requires maxEntries > 0 && ByUse(ops, maxEntries, maxBytes, entries)
    ensures ByUse(ops, maxEntries, maxBytes, Without(entries, key))
    decreases |entries|
  {
    hide LastUse;
    if entries != [] {
      var tail, rest := entries[1..], Without(entries[1..], key);
      assert forall i :: 0 <= i < |tail| ==> tail[i] == entries[i + 1];
      WithoutByUse(ops, maxEntries, maxBytes, tail, key);
      if entries[0].key != key {
        forall j | 0 <= j < |rest|
          ensures LastUse(ops, maxEntries, maxBytes, entries[0].key) > LastUse(ops, maxEntries, maxBytes, rest[j].key)
        {
          assert rest[j] in tail;
          var k :| 0 <= k < |tail| && tail[k] == rest[j];
          assert entries[k + 1] == rest[j];
        }
      }
    }
  }

  /** An operation that uses none of the keys but one leaves their order. */
  lemma OthersByUse(ops: seq<Op>, maxEntries: nat, maxBytes: nat, entries: seq<Entry>)
    requires maxEntries > 0 && ops != [] && ByUse(ops[..|ops| - 1], maxEntries, maxBytes, entries)
    requires forall e :: e in entries ==>
      !Uses(ops[|ops| - 1], After(ops[..|ops| - 1], maxEntries, maxBytes), maxBytes, e.key)
    ensures ByUse(ops, maxEntries, maxBytes, entries)
    ensures forall e :: e in entries ==> LastUse(ops, maxEntries, maxBytes, e.key) < |ops|
  {
    hide Uses, After;
    forall e | e in entries
      ensures LastUse(ops, maxEntries, maxBytes, e.key) == LastUse(ops[..|ops| - 1], maxEntries, maxBytes, e.key)
    {
    }
  }

  lemma ConsByUse(ops: seq<Op>, maxEntries: nat, maxBytes: nat, e: Entry, entries: seq<Entry>)
    requires maxEntries > 0 && ByUse(ops, maxEntries, maxBytes, entries)
    requires forall x :: x in entries ==>
      LastUse(ops, maxEntries, maxBytes, x.key) < LastUse(ops, maxEntries, maxBytes, e.key)
    ensures ByUse(ops, maxEntries, maxBytes, [e] + entries)
  {
    hide LastUse;
  }

  lemma PrefixByUse(ops: seq<Op>, maxEntries: nat, maxBytes: nat, entries: seq<Entry>, n: nat)
    requires maxEntries > 0 && ByUse(ops, maxEntries, maxBytes, entries) && n <= |entries|
    ensures ByUse(ops, maxEntries, maxBytes, entries[..n])
  {
    hide LastUse;
  }

  /** A key that is used now goes to the front, before others that are not. */
  lemma FrontByUse(ops: seq<Op>, maxEntries: nat, maxBytes: nat, e: Entry, rest: seq<Entry>, n: nat)
    requires maxEntries > 0 && ops != [] && n <= |rest|
    requires ByUse(ops[..|ops| - 1], maxEntries, maxBytes, rest) && e.key == ops[|ops| - 1].key
    requires forall x :: x in rest ==> x.key != e.key
    requires Uses(ops[|ops| - 1], After(ops[..|ops| - 1], maxEntries, maxBytes), maxBytes, e.key)
    ensures ByUse(ops, maxEntries, maxBytes, [e] + rest[..n])
  {
    hide LastUse, After;
    OthersByUse(ops, maxEntries, maxBytes, rest);
    UsedNow(ops, maxEntries, maxBytes, e.key);
    PrefixByUse(ops, maxEntries, maxBytes, rest, n);
    assert forall x :: x in rest[..n] ==> x in rest;
    ConsByUse(ops, maxEntries, maxBytes, e, rest[..n]);
  }

  /** After any operations the entries stand in the order of their last use. */
  lemma {:induction false} InOrderOfUse(ops: seq<Op>, maxEntries: nat, maxBytes: nat)
    requires maxEntries > 0
    ensures ByUse(ops, maxEntries, maxBytes, After(ops, maxEntries, maxBytes))
    decreases |ops|
  {
    hide LastUse, ByUse, OneEach, Bounded, Faithful;
    if ops == [] {
      NothingByUse(maxEntries, maxBytes);
    } else {
      var front, op := ops[..|ops| - 1], ops[|ops| - 1];
      var entries := After(front, maxEntries, maxBytes);
      InOrderOfUse(front, maxEntries, maxBytes);
      RunKeeps(front, maxEntries, maxBytes);
      WithoutByUse(front, maxEntries, maxBytes, entries, op.key);
      WithoutKeys(entries, op.key);
      var rest := Without(entries, op.key);
      if Uses(op, entries, maxBytes, op.key) {
        if op.Get? {
          FrontByUse(ops, maxEntries, maxBytes, EntryFor(entries, op.key).value, rest, |rest|);
          assert rest[..|rest|] == rest;
        } else {
          var kept := Trimmed(rest, maxEntries, maxBytes - |op.data|);
          FrontByUse(ops, maxEntries, maxBytes, Entry(op.key, op.data, op.now + DAY), rest, |kept|);
        }
      } else {
        UnusedByUse(ops, maxEntries, maxBytes);
      }
    }
  }

  lemma NothingByUse(maxEntries: nat, maxBytes: nat)
    requires maxEntries > 0
    ensures ByUse([], maxEntries, maxBytes, [])
  {
  }

  lemma UsedNow(ops: seq<Op>, maxEntries: nat, maxBytes: nat, key: Id)
    requires maxEntries > 0 && ops != []
    requires Uses(ops[|ops| - 1], After(ops[..|ops| - 1], maxEntries, maxBytes), maxBytes, key)
    ensures LastUse(ops, maxEntries, maxBytes, key) == |ops|
  {
  }

  /** An operation that does not use its key uses none. */
  lemma UnusedByUse(ops: seq<Op>, maxEntries: nat, maxBytes: nat)
    requires maxEntries > 0 && ops != []
    requires ByUse(ops[..|ops| - 1], maxEntries, maxBytes, After(ops[..|ops| - 1], maxEntries, maxBytes))
    requires !Uses(ops[|ops| - 1], After(ops[..|ops| - 1], maxEntries, maxBytes), maxBytes, ops[|ops| - 1].key)
    ensures ByUse(ops, maxEntries, maxBytes, After(ops, maxEntries, maxBytes))
  {
    hide LastUse;
    var front, op := ops[..|ops| - 1], ops[|ops| - 1];
    var entries := After(front, maxEntries, maxBytes);
    OthersByUse(ops, maxEntries, maxBytes, entries);
    if op.Get? {
      WithoutByUse(ops, maxEntries, maxBytes, entries, op.key);
    }
  }

  /** What a put evicts was used less recently than anything it keeps. */
  lemma EvictsLeastRecent(ops: seq<Op>, maxEntries: nat, maxBytes: nat, key: Id, data: Bytes, now: int, gone: Entry,
      kept: Entry)
    requires maxEntries > 0
    requires
      var entries := After(ops, maxEntries, maxBytes);
      var after := AfterPut(entries, key, data, now, maxEntries, maxBytes);
      gone in entries && gone.key != key && gone !in after && kept in after && kept.key != key
    ensures LastUse(ops, maxEntries, maxBytes, gone.key) < LastUse(ops, maxEntries, maxBytes, kept.key)
  {
    hide LastUse;
    var entries := After(ops, maxEntries, maxBytes);
    RunKeeps(ops, maxEntries, maxBytes);
    InOrderOfUse(ops, maxEntries, maxBytes);
    WithoutByUse(ops, maxEntries, maxBytes, entries, key);
    WithoutKeys(entries, key);
    if |data| <= maxBytes {
      var rest := Without(entries, key);
      var n := |Trimmed(rest, maxEntries, maxBytes - |data|)|;
      var i :| 0 <= i < |rest| && rest[i] == gone;
      var j :| 0 <= j < n && rest[..n][j] == kept;
      assert rest[j] == kept;
      forall t | 0 <= t < n
        ensures rest[t] != gone
      {
        assert rest[..n][t] in rest[..n];
      }
    }
  }

  // ---------- The object ----------

  /** A list element; `items` and `lru` share them. */
  class Element {
    const entry: Entry

    constructor (entry: Entry)
      ensures this.entry == entry
    {
      this.entry := entry;
    }
  }

  function EntriesOf(elements: seq<Element>): (r: seq<Entry>)
    ensures |r| == |elements|
  {
    seq(|elements|, i requires 0 <= i < |elements| => elements[i].entry)
  }

  /** Map and list hold the same elements, one per key. */
  ghost predicate Linked(lru: seq<Element>, items: map<Id, Element>) {
    && (forall e :: e in lru ==> e.entry.key in items && items[e.entry.key] == e)
    && (forall key :: key in items ==> items[key] in lru && items[key].entry.key == key)
    && OneEach(EntriesOf(lru))
  }

  /** What remains when element i leaves the list. */
  lemma OthersStay(lru: seq<Element>, i: nat)
    requires OneEach(EntriesOf(lru)) && i < |lru|
    ensures forall e :: e in lru[..i] + lru[i + 1..] <==> e in lru && e.entry.key != lru[i].entry.key
  {
    hide OneEach;
    var rest := lru[..i] + lru[i + 1..];
    forall e
      ensures e in rest <==> e in lru && e.entry.key != lru[i].entry.key
    {
      if e in rest {
        var k :| 0 <= k < |rest| && rest[k] == e;
        var j := if k < i then k else k + 1;
        assert lru[j] == e;
        KeysDiffer(lru, i, j);
      }
      if e in lru && e.entry.key != lru[i].entry.key {
        var j :| 0 <= j < |lru| && lru[j] == e;
        assert rest[if j < i then j else j - 1] == e;
      }
    }
  }

  lemma KeysDiffer(lru: seq<Element>, i: nat, j: nat)
    requires OneEach(EntriesOf(lru)) && i < |lru| && j < |lru| && i != j
    ensures lru[i].entry.key != lru[j].entry.key
  {
    assert EntriesOf(lru)[i].key != EntriesOf(lru)[j].key;
  }

  lemma LinkedRemove(lru: seq<Element>, items: map<Id, Element>, i: nat)
    requires Linked(lru, items) && i < |lru|
    ensures
      var key, rest := lru[i].entry.key, lru[..i] + lru[i + 1..];
      && Linked(rest, items - {key}) && EntriesOf(rest) == Without(EntriesOf(lru), key)
      && Size(EntriesOf(rest)) == Size(EntriesOf(lru)) - |lru[i].entry.data|
      && (i == |lru| - 1 ==> EntriesOf(rest) == EntriesOf(lru)[..i])
  {
    hide OneEach, Without, Size, EntryFor;
    var key := lru[i].entry.key;
    RemovedAt(lru, i);
    WithoutSize(EntriesOf(lru), key);
    WithoutKeys(EntriesOf(lru), key);
    OnlyOne(EntriesOf(lru), i);
    OthersStay(lru, i);
  }

  lemma LinkedPush(lru: seq<Element>, items: map<Id, Element>, e: Element)
    requires Linked(lru, items) && e.entry.key !in items
    ensures Linked([e] + lru, items[e.entry.key := e])
    ensures EntriesOf([e] + lru) == [e.entry] + EntriesOf(lru)
    ensures Size(EntriesOf([e] + lru)) == |e.entry.data| + Size(EntriesOf(lru))
  {
    var entries := EntriesOf(lru);
    assert EntriesOf([e] + lru) == [e.entry] + entries;
    SizeCons(e.entry, entries);
    forall x | x in entries
      ensures x.key != e.entry.key
    {
      var k :| 0 <= k < |lru| && entries[k] == x;
      assert lru[k] in lru;
    }
  }

  class LruCache {
    var items: map<Id, Element>
    var lru: seq<Element>
    var bytes: int
    const maxEntries: nat
    const maxBytes: nat

    ghost predicate Valid()
      reads this
    {
      && maxEntries > 0 && Linked(lru, items)
      && bytes == Size(EntriesOf(lru)) && Bounded(EntriesOf(lru), maxEntries, maxBytes)
    }

    ghost function Contents(): seq<Entry>
      reads this
    {
      EntriesOf(lru)
    }

    constructor (n: nat, max: nat)
      requires n > 0
      ensures Valid() && Contents() == [] && maxEntries == n && maxBytes == max
    {
      items := map[];
      lru := [];
      bytes := 0;
      maxEntries := n;
      maxBytes := max;
    }

    /** remove: the element leaves the map, the list and the byte count. */
    method Remove(e: Element)
      requires Valid() && e in lru
      modifies this
      ensures Valid() && Contents() == Without(old(Contents()), e.entry.key)
      ensures items == old(items) - {e.entry.key} && |lru| == |old(lru)| - 1
      ensures e == old(lru)[|old(lru)| - 1] ==> Contents() == old(Contents())[..|old(lru)| - 1]
    {
      hide Linked, Without, Size, OneEach;
      var i :| 0 <= i < |lru| && lru[i] == e && (e == lru[|lru| - 1] ==> i == |lru| - 1);
      LinkedRemove(lru, items, i);
      items := items - {e.entry.key};
      bytes := bytes - |e.entry.data|;
      lru := lru[..i] + lru[i + 1..];
    }

    method Lookup(key: Id, now: int) returns (found: Option<Bytes>)
      requires Valid()
      modifies this
      ensures Valid() && (Contents(), found) == AfterGet(old(Contents()), key, now)
    {
      hide Linked, Without, Size, OneEach, EntryFor;
      ghost var before := Contents();
      FindIs(lru, items, key);
      LinkedOneEach(lru, items);
      GetKeeps(before, key, now, maxEntries, maxBytes);
      if key !in items {
        return None;
      }
      var e := items[key];
      ElementOf(lru, items, key);
      if now > e.entry.expires {
        Remove(e);
        return None;
      }
      // MoveToFront
      Remove(e);
      LinkedPush(lru, items, e);
      lru := [e] + lru;
      items := items[key := e];
      bytes := bytes + |e.entry.data|;
      found := Some(e.entry.data);
    }

    /** The eviction loop ends before the list is empty. */
    method Insert(key: Id, data: Bytes, now: int)
      requires Valid()
      modifies this
      ensures Valid() && Contents() == AfterPut(old(Contents()), key, data, now, maxEntries, maxBytes)
    {
      hide Linked, Without, Size, OneEach, EntryFor, EntriesOf;
      ghost var before := Contents();
      LinkedOneEach(lru, items);
      PutKeeps(before, key, data, now, maxEntries, maxBytes);
      if |data| > maxBytes {
        return;
      }
      FindIs(lru, items, key);
      if key in items {
        ElementOf(lru, items, key);
        Remove(items[key]);
      } else {
        NothingToRemove(before, key);
      }
      ghost var rest := Contents();
      while |lru| >= maxEntries || bytes + |data| > maxBytes
        invariant Valid() && key !in items
        invariant Trimmed(rest, maxEntries, maxBytes - |data|) == Trimmed(Contents(), maxEntries, maxBytes - |data|)
        decreases |lru|
      {
        Remove(lru[|lru| - 1]);
      }
      var e := new Element(Entry(key, data, now + DAY));
      LinkedPush(lru, items, e);
      items := items[key := e];
      lru := [e] + lru;
      bytes := bytes + |data|;
    }
  }

  lemma LinkedOneEach(lru: seq<Element>, items: map<Id, Element>)
    requires Linked(lru, items)
    ensures OneEach(EntriesOf(lru))
  {
  }

  lemma ElementOf(lru: seq<Element>, items: map<Id, Element>, key: Id)
    requires Linked(lru, items) && key in items
    ensures items[key] in lru && items[key].entry.key == key
  {
  }

  lemma {:induction false} NothingToRemove(entries: seq<Entry>, key: Id)
    requires EntryFor(entries, key).None?
    ensures Without(entries, key) == entries
    decreases |entries|
  {
    if entries != [] {
      NothingToRemove(entries[1..], key);
      assert entries == [entries[0]] + entries[1..];
    }
  }

  lemma OnlyOne(entries: seq<Entry>, i: nat)
    requires OneEach(entries) && i < |entries|
    ensures EntryFor(entries, entries[i].key) == Some(entries[i])
  {
    var f := EntryFor(entries, entries[i].key);
    assert entries[i] in entries;
    var k :| 0 <= k < |entries| && entries[k] == f.value;
  }

  lemma {:induction false} RemovedAt(elements: seq<Element>, i: nat)
    requires i < |elements| && OneEach(EntriesOf(elements))
    ensures EntriesOf(elements[..i] + elements[i + 1..]) == Without(EntriesOf(elements), elements[i].entry.key)
    ensures i == |elements| - 1 ==> EntriesOf(elements[..i] + elements[i + 1..]) == EntriesOf(elements)[..i]
    decreases i
  {
    var entries := EntriesOf(elements);
    if i > 0 {
      assert entries[0].key != entries[i].key;
      assert EntriesOf(elements[1..]) == entries[1..];
      RemovedAt(elements[1..], i - 1);
      assert elements[1..][..i - 1] + elements[1..][i..] == (elements[..i] + elements[i + 1..])[1..];
    } else {
      assert elements[..0] + elements[1..] == elements[1..];
    }
  }

  /** The map finds what the list holds. */
  lemma FindIs(lru: seq<Element>, items: map<Id, Element>, key: Id)
    requires Linked(lru, items)
    ensures EntryFor(EntriesOf(lru), key) == if key in items then Some(items[key].entry) else None
  {
    if key in items {
      var i :| 0 <= i < |lru| && lru[i] == items[key];
      assert EntriesOf(lru)[i] == items[key].entry;
      OnlyOne(EntriesOf(lru), i);
    } else {
      forall e | e in EntriesOf(lru)
        ensures e.key != key
      {
        var k :| 0 <= k < |lru| && EntriesOf(lru)[k] == e;
        assert lru[k] in lru;
      }
    }
  }
}

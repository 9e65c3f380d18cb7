/** What the cache promises over whole runs: hits are latest writes, and only stale, deleted or old keys miss. */
module TtlCacheTheorems {
  import opened PyText
  import opened TtlCaches

  // ---------- The run, the plain map it stands for, and the touches ----------

  function Run<V>(ops: seq<Op<V>>, maxSize: nat): seq<Entry<V>> {
    if ops == [] then [] else Apply(Run(ops[..|ops| - 1], maxSize), ops[|ops| - 1], maxSize)
  }

  datatype Stamped<V> = Stamped(value: V, stamp: real)

  /** The plain map of latest writes; a read that finds a value stale deletes it. */
  function Write<V>(m: map<string, Stamped<V>>, op: Op<V>): map<string, Stamped<V>> {
    match op
    case Get(key, ttl, now) =>
      if Strip(key) in m && Stale(m[Strip(key)].stamp, ttl, now) then m - {Strip(key)} else m
    case Set(key, value, now) => if Strip(key) == "" then m else m[Strip(key) := Stamped(value, now)]
    case Invalidate(key) => m - {Strip(key)}
    case PopOut(key) => m - {Strip(key)}
    case Clear => map[]
  }

  function Written<V>(ops: seq<Op<V>>): map<string, Stamped<V>> {
    if ops == [] then map[] else Write(Written(ops[..|ops| - 1]), ops[|ops| - 1])
  }

  /** The key a set stores or a hit returns. */
  function Touched<V>(data: seq<Entry<V>>, op: Op<V>): seq<string> {
    match op
    case Get(key, ttl, now) => if Hit(data, Strip(key), ttl, now).Some? then [Strip(key)] else []
    case Set(key, _, _) => if Strip(key) == "" then [] else [Strip(key)]
    case _ => []
  }

  function Log<V>(ops: seq<Op<V>>, maxSize: nat): seq<string> {
    if ops == [] then []
    else
      var init, last := ops[..|ops| - 1], ops[|ops| - 1];
      Log(init, maxSize) + Touched(Run(init, maxSize), last)
  }

  /** The other keys touched since `k` last was. */
  function OthersSince(log: seq<string>, k: string): set<string> {
    if log == [] || log[|log| - 1] == k then {}
    else OthersSince(log[..|log| - 1], k) + {log[|log| - 1]}
  }

  lemma OthersSnoc(log: seq<string>, x: string, k: string)
    ensures OthersSince(log + [x], k) == if x == k then {} else OthersSince(log, k) + {x}
  {
    assert (log + [x])[..|log|] == log;
  }

  // ---------- The invariant ----------

  /** What is held is what was last written. */
  ghost predicate Holds<V>(data: seq<Entry<V>>, m: map<string, Stamped<V>>) {
    forall i | 0 <= i < |data| ::
      data[i].key in m && m[data[i].key] == Stamped(data[i].value, data[i].stamp)
  }

  /** Entries stand in the order in which they were last touched. */
  ghost predicate ByRecency<V>(data: seq<Entry<V>>, log: seq<string>) {
    forall i, j | 0 <= i < j < |data| :: data[j].key in OthersSince(log, data[i].key)
  }

  predicate Has<V>(data: seq<Entry<V>>, k: string) { IndexOf(data, k) < |data| }

  /** A written key is missing only when enough other keys were touched since. */
  ghost predicate OnlyOldMissing<V>(data: seq<Entry<V>>, m: map<string, Stamped<V>>, log: seq<string>, maxSize: nat) {
    forall k | k in m && !Has(data, k) :: |OthersSince(log, k)| >= maxSize
  }

  ghost predicate Inv<V>(data: seq<Entry<V>>, m: map<string, Stamped<V>>, log: seq<string>, maxSize: nat) {
    && Keyed(data) && |data| <= maxSize && "" !in m
    && Holds(data, m) && ByRecency(data, log) && OnlyOldMissing(data, m, log, maxSize)
  }

  lemma WithoutHas<V>(data: seq<Entry<V>>, i: nat)
    requires Keyed(data) && i < |data|
    ensures forall k :: Has(Without(data, i), k) <==> Has(data, k) && k != data[i].key
  {
    var rest := Without(data, i);
    assert forall j | 0 <= j < |rest| :: rest[j] == data[if j < i then j else j + 1];
    forall k
      ensures Has(rest, k) <==> Has(data, k) && k != data[i].key
    {
      var j := IndexOf(data, k);
      if j < |data| && k != data[i].key {
        assert rest[if j < i then j else j - 1].key == k;
      }
    }
  }

  lemma SnocHas<V>(data: seq<Entry<V>>, e: Entry<V>)
    ensures forall k :: Has(data + [e], k) <==> Has(data, k) || k == e.key
  {
    forall k
      ensures Has(data + [e], k) <==> Has(data, k) || k == e.key
    {
      assert (data + [e])[|data|].key == e.key;
      if Has(data, k) {
        assert (data + [e])[IndexOf(data, k)].key == k;
      }
    }
  }

  lemma WithoutRecency<V>(data: seq<Entry<V>>, i: nat, log: seq<string>)
    requires ByRecency(data, log) && i < |data|
    ensures ByRecency(Without(data, i), log)
  {
    var rest := Without(data, i);
    assert forall j | 0 <= j < |rest| :: rest[j] == data[if j < i then j else j + 1];
  }

  lemma TouchRecency<V>(rest: seq<Entry<V>>, e: Entry<V>, log: seq<string>)
    requires ByRecency(rest, log) && forall i | 0 <= i < |rest| :: rest[i].key != e.key
    ensures ByRecency(rest + [e], log + [e.key])
  {
    forall i, j | 0 <= i < j < |rest| + 1
      ensures (rest + [e])[j].key in OthersSince(log + [e.key], (rest + [e])[i].key)
    {
      OthersSnoc(log, e.key, rest[i].key);
    }
  }

  // ---------- Deleting ----------

  lemma RemoveKeepsInv<V>(data: seq<Entry<V>>, k: string, m: map<string, Stamped<V>>, log: seq<string>, maxSize: nat)
    requires Inv(data, m, log, maxSize)
    ensures Inv(Removed(data, k), m - {k}, log, maxSize)
  {
    var i := IndexOf(data, k);
    if i < |data| {
      WithoutKeyed(data, i);
      WithoutHas(data, i);
      WithoutRecency(data, i, log);
    }
  }

  // ---------- Touching ----------

  lemma SubsetSize(a: set<string>, b: set<string>)
    requires a <= b
    ensures |a| <= |b|
  {
    assert b == a + (b - a);
  }

  /** After a touch, whatever was missing is missing for at least as good a reason. */
  lemma TouchMissing<V>(
      rest: seq<Entry<V>>, e: Entry<V>, m: map<string, Stamped<V>>, log: seq<string>, maxSize: nat, gone: set<string>)
    requires forall k | k in m && !Has(rest, k) && k != e.key :: k in gone || |OthersSince(log, k)| >= maxSize
    requires forall k | k in gone :: k != e.key && |OthersSince(log + [e.key], k)| >= maxSize
    ensures OnlyOldMissing(rest + [e], m[e.key := Stamped(e.value, e.stamp)], log + [e.key], maxSize)
  {
    SnocHas(rest, e);
    forall k | k in m && !Has(rest + [e], k)
      ensures |OthersSince(log + [e.key], k)| >= maxSize
    {
      OthersSnoc(log, e.key, k);
      SubsetSize(OthersSince(log, k), OthersSince(log, k) + {e.key});
    }
  }

  lemma TouchPresent<V>(
      data: seq<Entry<V>>, i: nat, e: Entry<V>, m: map<string, Stamped<V>>, log: seq<string>, maxSize: nat)
    requires Inv(data, m, log, maxSize) && i < |data| && e.key == data[i].key
    ensures Inv(Without(data, i) + [e], m[e.key := Stamped(e.value, e.stamp)], log + [e.key], maxSize)
  {
    hide OthersSince, ByRecency, Holds, IndexOf;
    var rest := Without(data, i);
    WithoutKeyed(data, i);
    WithoutHas(data, i);
    WithoutRecency(data, i, log);
    WithoutSize(data, i);
    HoldsAfterTouch(data, i, e, m);
    SnocKeyed(rest, e);
    TouchRecency(rest, e, log);
    TouchMissing(rest, e, m, log, maxSize, {});
  }

  lemma WithoutSize<V>(data: seq<Entry<V>>, i: nat)
    requires i < |data|
    ensures |Without(data, i)| == |data| - 1
  {
  }

  lemma HoldsAfterTouch<V>(data: seq<Entry<V>>, i: nat, e: Entry<V>, m: map<string, Stamped<V>>)
    requires Keyed(data) && Holds(data, m) && i < |data| && e.key == data[i].key
    ensures Holds(Without(data, i) + [e], m[e.key := Stamped(e.value, e.stamp)])
  {
    var rest := Without(data, i);
    assert forall j | 0 <= j < |rest| :: rest[j] == data[if j < i then j else j + 1];
  }

  function KeySet<V>(data: seq<Entry<V>>): set<string> {
    set i | 0 <= i < |data| :: data[i].key
  }

  lemma {:induction false} KeySetSize<V>(data: seq<Entry<V>>)
    requires Keyed(data)
    ensures |KeySet(data)| == |data|
  {
    if data != [] {
      var n := |data| - 1;
      KeySetSize(data[..n]);
      assert KeySet(data) == KeySet(data[..n]) + {data[n].key};
      assert data[n].key !in KeySet(data[..n]);
    }
  }

  /** In a full cache every other key, and the new one, was touched since the oldest key was. */
  lemma OldestIsOld<V>(data: seq<Entry<V>>, log: seq<string>, x: string, maxSize: nat)
    requires Keyed(data) && ByRecency(data, log) && |data| >= maxSize && data != [] && !Has(data, x)
    ensures |OthersSince(log + [x], data[0].key)| >= maxSize
  {
    var rest, others := data[1..], OthersSince(log + [x], data[0].key);
    OthersSnoc(log, x, data[0].key);
    KeySetSize(rest);
    forall k | k in KeySet(rest)
      ensures k in others && k != x
    {
      var i :| 0 <= i < |rest| && rest[i].key == k;
      assert rest[i] == data[i + 1];
    }
    assert KeySet(rest) + {x} <= others;
    SubsetSize(KeySet(rest) + {x}, others);
  }

  lemma TailHas<V>(data: seq<Entry<V>>)
    requires Keyed(data) && data != []
    ensures forall k :: Has(data[1..], k) <==> Has(data, k) && k != data[0].key
  {
    assert Without(data, 0) == data[1..];
    WithoutHas(data, 0);
  }

  /** A new entry behind others of which none has its key. */
  lemma TouchNew<V>(
      data: seq<Entry<V>>, room: seq<Entry<V>>, e: Entry<V>, m: map<string, Stamped<V>>, log: seq<string>,
      maxSize: nat, gone: set<string>)
    requires Inv(data, m, log, maxSize) && e.key != "" && !Has(data, e.key) && |room| < maxSize
    requires Keyed(room) && ByRecency(room, log) && Holds(room, m)
    requires forall k :: Has(room, k) <==> Has(data, k) && k !in gone
    requires forall k | k in gone :: k != e.key && |OthersSince(log + [e.key], k)| >= maxSize
    ensures Inv(room + [e], m[e.key := Stamped(e.value, e.stamp)], log + [e.key], maxSize)
  {
    hide OthersSince, ByRecency;
    AbsentEverywhere(room, e.key);
    SnocKeyed(room, e);
    TouchRecency(room, e, log);
    TouchMissing(room, e, m, log, maxSize, gone);
  }

  lemma AbsentEverywhere<V>(data: seq<Entry<V>>, k: string)
    requires !Has(data, k)
    ensures forall i | 0 <= i < |data| :: data[i].key != k
  {
  }

  lemma TouchAbsent<V>(
      data: seq<Entry<V>>, e: Entry<V>, m: map<string, Stamped<V>>, log: seq<string>, maxSize: nat)
    requires Inv(data, m, log, maxSize) && maxSize > 0 && e.key != "" && !Has(data, e.key)
    ensures var room := if |data| >= maxSize then data[1..] else data;
            Inv(room + [e], m[e.key := Stamped(e.value, e.stamp)], log + [e.key], maxSize)
  {
    hide OthersSince, OnlyOldMissing;
    if |data| >= maxSize {
      TailHas(data);
      AbsentEverywhere(data, e.key);
      OldestIsOld(data, log, e.key, maxSize);
      TouchNew(data, data[1..], e, m, log, maxSize, {data[0].key});
    } else {
      TouchNew(data, data, e, m, log, maxSize, {});
    }
  }

  // ---------- Every operation ----------

  lemma GetKeepsInv<V>(
      data: seq<Entry<V>>, k: string, ttl: real, now: real, m: map<string, Stamped<V>>, log: seq<string>, maxSize: nat)
    requires Inv(data, m, log, maxSize)
    ensures Inv(AfterGet(data, k, ttl, now),
                if k in m && Stale(m[k].stamp, ttl, now) then m - {k} else m,
                log + if Hit(data, k, ttl, now).Some? then [k] else [], maxSize)
  {
    var i := IndexOf(data, k);
    assert log + [] == log;
    if i == |data| {
      RemoveKeepsInv(data, k, m, log, maxSize);
    } else if Stale(data[i].stamp, ttl, now) {
      RemoveKeepsInv(data, k, m, log, maxSize);
    } else {
      TouchPresent(data, i, data[i], m, log, maxSize);
      assert m[k := Stamped(data[i].value, data[i].stamp)] == m;
    }
  }

  lemma SetKeepsInv<V>(
      data: seq<Entry<V>>, k: string, value: V, now: real, m: map<string, Stamped<V>>, log: seq<string>, maxSize: nat)
    requires Inv(data, m, log, maxSize) && maxSize > 0
    ensures Inv(AfterSet(data, k, value, now, maxSize),
                if k == "" then m else m[k := Stamped(value, now)],
                log + if k == "" then [] else [k], maxSize)
  {
    var i := IndexOf(data, k);
    if k == "" {
      assert log + [] == log;
    } else if i < |data| {
      TouchPresent(data, i, Entry(k, now, value), m, log, maxSize);
    } else {
      TouchAbsent(data, Entry(k, now, value), m, log, maxSize);
    }
  }

  lemma StepKeepsInv<V>(data: seq<Entry<V>>, op: Op<V>, m: map<string, Stamped<V>>, log: seq<string>, maxSize: nat)
    requires Inv(data, m, log, maxSize) && maxSize > 0
    ensures Inv(Apply(data, op, maxSize), Write(m, op), log + Touched(data, op), maxSize)
  {
    hide Strip, Removed, AfterGet, AfterSet, Hit, OnlyOldMissing, ByRecency, Holds;
    assert log + [] == log;
    match op
    case Get(key, ttl, now) => GetKeepsInv(data, Strip(key), ttl, now, m, log, maxSize);
    case Set(key, value, now) => SetKeepsInv(data, Strip(key), value, now, m, log, maxSize);
    case Invalidate(key) => DeleteKeepsInv(data, Strip(key), m, log, maxSize);
    case PopOut(key) => DeleteKeepsInv(data, Strip(key), m, log, maxSize);
    case Clear => NothingHeld<V>(log, maxSize);
  }

  lemma DeleteKeepsInv<V>(data: seq<Entry<V>>, k: string, m: map<string, Stamped<V>>, log: seq<string>, maxSize: nat)
    requires Inv(data, m, log, maxSize)
    ensures Inv(if k == "" then data else Removed(data, k), m - {k}, log, maxSize)
  {
    if k == "" {
      assert m - {k} == m;
    } else {
      RemoveKeepsInv(data, k, m, log, maxSize);
    }
  }

  lemma NothingHeld<V>(log: seq<string>, maxSize: nat)
    ensures Inv<V>([], map[], log, maxSize)
  {
  }

  lemma {:induction false} RunKeepsInv<V>(ops: seq<Op<V>>, maxSize: nat)
    requires maxSize > 0
    ensures Inv(Run(ops, maxSize), Written(ops), Log(ops, maxSize), maxSize)
  {
    if ops == [] {
      NothingHeld<V>([], maxSize);
    } else {
      var init, last := ops[..|ops| - 1], ops[|ops| - 1];
      RunKeepsInv(init, maxSize);
      StepKeepsInv(Run(init, maxSize), last, Written(init), Log(init, maxSize), maxSize);
    }
  }

  // ---------- The promises ----------

  /**
   A hit is the latest write since any deletion, and younger than the time to live. A key that
   was written and is still fresh is missed only after `maxSize` other keys were touched since.
   */
  lemma HitIsLatestWrite<V>(ops: seq<Op<V>>, key: string, ttl: real, now: real, maxSize: nat)
    requires maxSize > 0
    ensures var k, m := Strip(key), Written(ops);
            var hit := Hit(Run(ops, maxSize), k, ttl, now);
            && (hit.Some? ==> k in m && hit.value == m[k].value && !Stale(m[k].stamp, ttl, now))
            && (k in m && !Stale(m[k].stamp, ttl, now) && hit.None? ==>
                  |OthersSince(Log(ops, maxSize), k)| >= maxSize)
            && |Run(ops, maxSize)| <= maxSize
  {
    hide Strip;
    RunKeepsInv(ops, maxSize);
  }

  /** A set evicts a key only after `maxSize` distinct other keys were touched since it was. */
  lemma OnlyOldKeysAreEvicted<V>(ops: seq<Op<V>>, op: Op<V>, k: string, maxSize: nat)
    requires maxSize > 0 && op.Set?
    requires Has(Run(ops, maxSize), k) && !Has(Run(ops + [op], maxSize), k)
    ensures |OthersSince(Log(ops + [op], maxSize), k)| >= maxSize
  {
    var data, m := Run(ops, maxSize), Written(ops);
    RunKeepsInv(ops, maxSize);
    RunKeepsInv(ops + [op], maxSize);
    assert (ops + [op])[..|ops|] == ops;
    assert k == data[IndexOf(data, k)].key && k in m && k in Write(m, op);
  }

  /** Reads aside, the latest writes: what a key maps to ignoring expiry. */
  function LastSet<V>(ops: seq<Op<V>>): map<string, Stamped<V>> {
    if ops == [] then map[]
    else
      var before, last := LastSet(ops[..|ops| - 1]), ops[|ops| - 1];
      if last.Get? then before else Write(before, last)
  }

  /** Reads delete, and never change, what was last set. */
  lemma {:induction false} ReadsOnlyDelete<V>(ops: seq<Op<V>>, k: string)
    requires k in Written(ops)
    ensures k in LastSet(ops) && LastSet(ops)[k] == Written(ops)[k]
  {
    hide Strip;
    var init := ops[..|ops| - 1];
    if k in Written(init) {
      ReadsOnlyDelete(init, k);
    }
  }
}

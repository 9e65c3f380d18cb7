/** The in-process cache: an ordered map with expiry on read and eviction of the oldest key. */
module TtlCaches {
  import opened PyText

  datatype Entry<V> = Entry(key: string, stamp: real, value: V)

  datatype Op<V> =
    | Get(key: string, ttl: real, now: real)
    | Set(key: string, value: V, now: real)
    | Invalidate(key: string)
    | PopOut(key: string)
    | Clear

  // ---------- One operation on the ordered map ----------

  /** The place of a key, or the length if it is absent. */
  function IndexOf<V>(data: seq<Entry<V>>, k: string): (i: nat)
    ensures i <= |data|
    ensures i < |data| ==> data[i].key == k
    ensures forall j | 0 <= j < i :: data[j].key != k
  {
    if data == [] then 0 else if data[0].key == k then 0 else 1 + IndexOf(data[1..], k)
  }

  function Without<V>(data: seq<Entry<V>>, i: nat): seq<Entry<V>>
    requires i < |data|
  {
    data[..i] + data[i + 1..]
  }

  predicate Stale(stamp: real, ttl: real, now: real) { ttl > 0.0 && now - stamp >= ttl }

  function Removed<V>(data: seq<Entry<V>>, k: string): seq<Entry<V>> {
    var i := IndexOf(data, k);
    if i < |data| then Without(data, i) else data
  }

  function AfterGet<V>(data: seq<Entry<V>>, k: string, ttl: real, now: real): seq<Entry<V>> {
    var i := IndexOf(data, k);
    if k == "" || i == |data| then data
    else if Stale(data[i].stamp, ttl, now) then Without(data, i)
    else Without(data, i) + [data[i]]
  }

  function Hit<V>(data: seq<Entry<V>>, k: string, ttl: real, now: real): Option<V> {
    var i := IndexOf(data, k);
    if k == "" || i == |data| || Stale(data[i].stamp, ttl, now) then None else Some(data[i].value)
  }

  function AfterSet<V>(data: seq<Entry<V>>, k: string, value: V, now: real, maxSize: nat): seq<Entry<V>> {
    if k == "" then data
    else
      var i := IndexOf(data, k);
      var room := if i < |data| then Without(data, i)
                  else if |data| >= maxSize && data != [] then data[1..] else data;
      room + [Entry(k, now, value)]
  }

  function Apply<V>(data: seq<Entry<V>>, op: Op<V>, maxSize: nat): seq<Entry<V>> {
    match op
    case Get(key, ttl, now) => AfterGet(data, Strip(key), ttl, now)
    case Set(key, value, now) => AfterSet(data, Strip(key), value, now, maxSize)
    case Invalidate(key) => if Strip(key) == "" then data else Removed(data, Strip(key))
    case PopOut(key) => if Strip(key) == "" then data else Removed(data, Strip(key))
    case Clear => []
  }

  predicate Keyed<V>(data: seq<Entry<V>>) {
    && (forall i, j | 0 <= i < j < |data| :: data[i].key != data[j].key)
    && (forall i | 0 <= i < |data| :: data[i].key != "")
  }

  // ---------- The cache in place ----------

  class TtlCache<V> {
    var data: seq<Entry<V>>
    const maxSize: nat

    ghost predicate Valid()
      reads this
    {
      Keyed(data) && |data| <= maxSize && maxSize >= 16
    }

    constructor (size: int)
      ensures Valid() && data == [] && maxSize == if size > 16 then size else 16
    {
      data := [];
      maxSize := if size > 16 then size else 16;
    }

    method GetValue(key: string, ttl: real, now: real) returns (r: Option<V>)
      requires Valid()
      modifies this
      ensures data == Apply(old(data), Get(key, ttl, now), maxSize) && Valid()
      ensures r == Hit(old(data), Strip(key), ttl, now)
    {
      ApplyKeeps(data, Get(key, ttl, now), maxSize);
      var k := Strip(key);
      if k == "" {
        return None;
      }
      var i := IndexOf(data, k);
      if i == |data| {
        return None;
      }
      var row := data[i];
      if Stale(row.stamp, ttl, now) {
        data := Without(data, i);
        return None;
      }
      data := Without(data, i) + [row];
      return Some(row.value);
    }

    method SetValue(key: string, value: V, now: real)
      requires Valid()
      modifies this
      ensures data == Apply(old(data), Set(key, value, now), maxSize) && Valid()
    {
      ApplyKeeps(data, Set(key, value, now), maxSize);
      var k := Strip(key);
      if k == "" {
        return;
      }
      var i := IndexOf(data, k);
      if i < |data| {
        data := Without(data, i);
      } else if |data| >= maxSize {
        data := data[1..];
      }
      data := data + [Entry(k, now, value)];
    }

    method InvalidateKey(key: string)
      requires Valid()
      modifies this
      ensures data == Apply(old(data), Invalidate(key), maxSize) && Valid()
    {
      ApplyKeeps(data, Invalidate(key), maxSize);
      var k := Strip(key);
      if k != "" {
        data := Removed(data, k);
      }
    }

    /** `in` looks only for presence: expired values count until a read drops them. */
    method Contains(key: string) returns (r: bool)
      requires Valid()
      ensures r <==> exists i :: 0 <= i < |data| && data[i].key == Strip(key)
    {
      r := IndexOf(data, Strip(key)) < |data|;
    }

    method Pop(key: string) returns (r: Option<V>)
      requires Valid()
      modifies this
      ensures data == Apply(old(data), PopOut(key), maxSize) && Valid()
      ensures r == Hit(old(data), Strip(key), 0.0, 0.0)
    {
      ApplyKeeps(data, PopOut(key), maxSize);
      var k := Strip(key);
      if k == "" {
        return None;
      }
      var i := IndexOf(data, k);
      if i == |data| {
        return None;
      }
      r := Some(data[i].value);
      data := Without(data, i);
    }

    method ClearAll()
      requires Valid()
      modifies this
      ensures data == Apply(old(data), Clear, maxSize) && Valid()
    {
      data := [];
    }
  }

  lemma WithoutKeyed<V>(data: seq<Entry<V>>, i: nat)
    requires Keyed(data) && i < |data|
    ensures Keyed(Without(data, i)) && forall j | 0 <= j < |data| - 1 :: Without(data, i)[j].key != data[i].key
  {
    var rest := Without(data, i);
    assert forall j | 0 <= j < |rest| :: rest[j] == data[if j < i then j else j + 1];
  }

  lemma SnocKeyed<V>(data: seq<Entry<V>>, e: Entry<V>)
    requires Keyed(data) && e.key != "" && forall j | 0 <= j < |data| :: data[j].key != e.key
    ensures Keyed(data + [e])
  {
  }

  /** Keys stay distinct and non-empty, and the cache never outgrows its bound. */
  lemma ApplyKeeps<V>(data: seq<Entry<V>>, op: Op<V>, maxSize: nat)
    requires Keyed(data) && |data| <= maxSize && maxSize > 0
    ensures Keyed(Apply(data, op, maxSize)) && |Apply(data, op, maxSize)| <= maxSize
  {
    hide Strip;
    match op
    case Get(key, ttl, now) => GetKeeps(data, Strip(key), ttl, now);
    case Set(key, value, now) => SetKeeps(data, Strip(key), value, now, maxSize);
    case Invalidate(key) => RemovedKeeps(data, Strip(key));
    case PopOut(key) => RemovedKeeps(data, Strip(key));
    case Clear =>
  }

  lemma RemovedKeeps<V>(data: seq<Entry<V>>, k: string)
    requires Keyed(data)
    ensures Keyed(Removed(data, k)) && |Removed(data, k)| <= |data|
  {
    var i := IndexOf(data, k);
    if i < |data| {
      WithoutKeyed(data, i);
    }
  }

  lemma GetKeeps<V>(data: seq<Entry<V>>, k: string, ttl: real, now: real)
    requires Keyed(data)
    ensures Keyed(AfterGet(data, k, ttl, now)) && |AfterGet(data, k, ttl, now)| <= |data|
  {
    var i := IndexOf(data, k);
    if i < |data| {
      WithoutKeyed(data, i);
      SnocKeyed(Without(data, i), data[i]);
    }
  }

  lemma SetKeeps<V>(data: seq<Entry<V>>, k: string, value: V, now: real, maxSize: nat)
    requires Keyed(data) && |data| <= maxSize && maxSize > 0
    ensures Keyed(AfterSet(data, k, value, now, maxSize)) && |AfterSet(data, k, value, now, maxSize)| <= maxSize
  {
    if k != "" {
      var i := IndexOf(data, k);
      if i < |data| {
        WithoutKeyed(data, i);
        SnocKeyed(Without(data, i), Entry(k, now, value));
      } else if |data| >= maxSize {
        SnocKeyed(data[1..], Entry(k, now, value));
      } else {
        SnocKeyed(data, Entry(k, now, value));
      }
    }
  }
}

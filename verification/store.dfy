/** The key-value store of subscriptions and the prune map. A range read answers in key
    order over a half-open range, as etcd does. Each call's outcome is an input. */
module Store {
  import opened Text
  import opened Types

  type Db = map<string, SubData>

  /** Which calls to the store succeed; deletes fail key by key. */
  datatype KvIo = KvIo(rangeOk: bool, getOk: bool, storeOk: bool, deleteFails: set<string>)

  const KV_OK := KvIo(true, true, true, {})

  ghost predicate Sorted(list: seq<Record>) {
    forall i, j :: 0 <= i < j < |list| ==> Less(list[i].key, list[j].key)
  }

  ghost predicate HasKey(list: seq<Record>, key: string) {
    exists i :: 0 <= i < |list| && list[i].key == key
  }

  /** The list holds exactly the records of the range, in key order. */
  ghost predicate Listing(data: Db, lo: string, hi: string, list: seq<Record>) {
    Sorted(list)
    && (forall i :: 0 <= i < |list| ==>
          list[i].key in data && InRange(lo, hi, list[i].key) && data[list[i].key] == list[i].value)
    && (forall k :: k in data && InRange(lo, hi, k) ==> HasKey(list, k))
  }

  function Insert(list: seq<Record>, rec: Record): seq<Record> {
    if list == [] then [rec]
    else if Less(rec.key, list[0].key) then [rec] + list
    else [list[0]] + Insert(list[1..], rec)
  }

  lemma {:induction false} InsertHas(list: seq<Record>, rec: Record)
    ensures forall r :: r in Insert(list, rec) <==> r == rec || r in list
  {
    if list != [] && !Less(rec.key, list[0].key) {
      InsertHas(list[1..], rec);
      assert list == [list[0]] + list[1..];
    }
  }

  lemma {:induction false} InsertSorted(list: seq<Record>, rec: Record)
    requires Sorted(list) && forall r :: r in list ==> r.key != rec.key
    ensures Sorted(Insert(list, rec))
  {
    if list == [] {
    } else if Less(rec.key, list[0].key) {
      forall i | 0 <= i < |list| ensures Less(rec.key, list[i].key) {
        if i > 0 {
          LessTransitive(rec.key, list[0].key, list[i].key);
        }
      }
    } else {
      assert list[0] in list;
      LessTotal(rec.key, list[0].key);
      InsertSorted(list[1..], rec);
      InsertHas(list[1..], rec);
      var rest := Insert(list[1..], rec);
      forall i | 0 <= i < |rest| ensures Less(list[0].key, rest[i].key) {
        assert rest[i] in rest;
        if rest[i] != rec {
          var j :| 0 <= j < |list[1..]| && list[1..][j] == rest[i];
          assert list[j + 1] == rest[i];
        }
      }
    }
  }

  /** Adding one more record of the range to a listing gives a listing. */
  lemma InsertLists(data: Db, key: string, lo: string, hi: string, list: seq<Record>)
    requires key in data && Listing(data - {key}, lo, hi, list)
    ensures Listing(data, lo, hi, if InRange(lo, hi, key) then Insert(list, Record(key, data[key])) else list)
  {
    if InRange(lo, hi, key) {
      var rec := Record(key, data[key]);
      var out := Insert(list, rec);
      InsertHas(list, rec);
      InsertSorted(list, rec);
      forall i | 0 <= i < |out|
        ensures out[i].key in data && InRange(lo, hi, out[i].key) && data[out[i].key] == out[i].value
      {
        assert out[i] in out;
      }
      forall k | k in data && InRange(lo, hi, k) ensures HasKey(out, k) {
        if k == key {
          assert rec in out;
        } else {
          assert k in data - {key};
          var i :| 0 <= i < |list| && list[i].key == k;
          assert list[i] in out;
        }
      }
    } else {
      forall k | k in data && InRange(lo, hi, k) ensures HasKey(list, k) {
        assert k in data - {key};
      }
    }
  }

  /** The answer of a successful range read. */
  ghost function ListingOf(data: Db, lo: string, hi: string): (list: seq<Record>)
    ensures Listing(data, lo, hi, list)
    decreases |data|
  {
    if data == map[] then []
    else
      var key :| key in data;
      assert |data - {key}| < |data| by { assert (data - {key}).Keys == data.Keys - {key}; }
      var rest := ListingOf(data - {key}, lo, hi);
      InsertLists(data, key, lo, hi, rest);
      if InRange(lo, hi, key) then Insert(rest, Record(key, data[key])) else rest
  }

  lemma {:induction false} ListingUnique(data: Db, lo: string, hi: string, a: seq<Record>, b: seq<Record>)
    requires Listing(data, lo, hi, a) && Listing(data, lo, hi, b)
    ensures a == b
    decreases |a|
  {
    if a == [] {
      if b != [] {
        FirstKeysAgree(data, lo, hi, b, a);
      }
    } else {
      FirstKeysAgree(data, lo, hi, a, b);
      ListingTail(data, lo, hi, a);
      ListingTail(data, lo, hi, b);
      ListingUnique(data - {a[0].key}, lo, hi, a[1..], b[1..]);
      assert a == [a[0]] + a[1..] && b == [b[0]] + b[1..];
    }
  }

  lemma FirstKeysAgree(data: Db, lo: string, hi: string, a: seq<Record>, b: seq<Record>)
    requires Listing(data, lo, hi, a) && Listing(data, lo, hi, b) && a != []
    ensures b != [] && a[0] == b[0]
  {
    assert HasKey(b, a[0].key);
    assert HasKey(a, b[0].key);
    var i :| 0 <= i < |a| && a[i].key == b[0].key;
    var j :| 0 <= j < |b| && b[j].key == a[0].key;
    if i > 0 && j > 0 {
      LessTransitive(a[0].key, b[0].key, a[0].key);
      LessIrreflexive(a[0].key);
    }
  }

  lemma ListingTail(data: Db, lo: string, hi: string, list: seq<Record>)
    requires list != [] && Listing(data, lo, hi, list)
    ensures Listing(data - {list[0].key}, lo, hi, list[1..])
  {
    var rest := data - {list[0].key};
    forall i | 0 <= i < |list[1..]| ensures list[1..][i].key in rest {
      assert Less(list[0].key, list[i + 1].key);
      LessIrreflexive(list[0].key);
    }
    forall k | k in rest && InRange(lo, hi, k) ensures HasKey(list[1..], k) {
      var i :| 0 <= i < |list| && list[i].key == k;
      assert list[1..][i - 1].key == k;
    }
  }

  lemma ListingDistinct(data: Db, lo: string, hi: string, list: seq<Record>)
    requires Listing(data, lo, hi, list)
    ensures forall i, j :: 0 <= i < j < |list| ==> list[i].key != list[j].key
  {
    forall i, j | 0 <= i < j < |list| ensures list[i].key != list[j].key {
      LessIrreflexive(list[i].key);
    }
  }

  class KvStore {
    var data: Db

    method GetRange(lo: string, hi: string, io: KvIo) returns (ok: bool, list: seq<Record>)
      ensures ok == io.rangeOk
      ensures list == if ok then ListingOf(data, lo, hi) else []
    {
      ok, list := io.rangeOk, [];
      if !ok { return; }
      var todo := data.Keys;
      ghost var done: Db := map[];
      while todo != {}
        invariant done.Keys !! todo && done.Keys + todo == data.Keys
        invariant forall k :: k in done ==> data[k] == done[k]
        invariant Listing(done, lo, hi, list)
        decreases todo
      {
        var key :| key in todo;
        todo := todo - {key};
        ghost var was := done;
        done := done[key := data[key]];
        assert done - {key} == was;
        InsertLists(done, key, lo, hi, list);
        if InRange(lo, hi, key) {
          list := Insert(list, Record(key, data[key]));
        }
      }
      assert done == data;
      ListingUnique(data, lo, hi, list, ListingOf(data, lo, hi));
    }

    method Get(key: string, io: KvIo) returns (found: bool, ok: bool)
      ensures ok == io.getOk && found == (ok && key in data)
    {
      ok := io.getOk;
      found := ok && key in data;
    }

    method Put(key: string, value: SubData, io: KvIo) returns (ok: bool)
      modifies this
      ensures ok == io.storeOk
      ensures data == if ok then old(data)[key := value] else old(data)
    {
      ok := io.storeOk;
      if ok {
        data := data[key := value];
      }
    }

    method Delete(key: string, io: KvIo) returns (ok: bool)
      modifies this
      ensures ok == (key !in io.deleteFails)
      ensures data == if ok then old(data) - {key} else old(data)
    {
      ok := key !in io.deleteFails;
      if ok {
        data := data - {key};
      }
    }
  }

  /** Subscribers awaiting removal. The source's map only ever stores true. */
  class PruneMap {
    var marks: set<string>
  }
}

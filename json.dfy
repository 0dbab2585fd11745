/** The keyed document the logger builds with json-c, reduced to what the
    logger relies on: an insertion-ordered list of (key, value) entries in
    which adding an existing key replaces its value in place. */
module Json {
  import opened Header

  datatype Option<T> = None | Some(value: T)

  /** The four entry kinds the logger creates: `json_object_new_int`,
      `json_object_new_int64`, `json_object_new_double`, `json_object_new_string`. */
  datatype Value =
    | JInt(i: Int32)
    | JInt64(n: Int64)
    | JDouble(d: Double)
    | JString(s: string)

  type Entries = seq<(string, Value)>

  function Keys(e: Entries): set<string> {
    set i | 0 <= i < |e| :: e[i].0
  }

  predicate UniqueKeys(e: Entries) {
    forall i, j :: 0 <= i < j < |e| ==> e[i].0 != e[j].0
  }

  /** The position of the first entry under key `k`. */
  function IndexOf(e: Entries, k: string): (r: Option<nat>)
    ensures r.Some? ==> r.value < |e| && e[r.value].0 == k
    ensures r.Some? ==> forall j :: 0 <= j < r.value ==> e[j].0 != k
    ensures r.None? <==> k !in Keys(e)
  {
    if e == [] then None
    else if e[0].0 == k then Some(0)
    else
      match IndexOf(e[1..], k)
      case None => None
      case Some(j) => Some(j + 1)
  }

  /** The value the document holds under `k`, if any: an observer of the
      document used to state properties; logger.c never reads an object back. */
  function Lookup(e: Entries, k: string): Option<Value> {
    match IndexOf(e, k)
    case None => None
    case Some(i) => Some(e[i].1)
  }

  /** `json_object_object_add`: replace the value of an existing key in place,
      otherwise append a new entry at the end. */
  function Put(e: Entries, k: string, v: Value): Entries {
    match IndexOf(e, k)
    case None => e + [(k, v)]
    case Some(i) => e[i := (k, v)]
  }

  /** A key is found exactly when the document holds it, and in a document
      without duplicate keys it is found with the value stored beside it. */
  lemma LookupFound(e: Entries, k: string)
    ensures Lookup(e, k).Some? <==> k in Keys(e)
    ensures Lookup(e, k).Some? ==> (k, Lookup(e, k).value) in e
    ensures UniqueKeys(e) ==> forall i :: 0 <= i < |e| && e[i].0 == k ==> Lookup(e, k) == Some(e[i].1)
  {
  }

  /** Adding a key adds it to the key set, keeps every existing key at its
      position, and grows the document only when the key is new, by
      appending it at the end. */
  lemma PutKeys(e: Entries, k: string, v: Value)
    ensures Keys(Put(e, k, v)) == Keys(e) + {k}
    ensures |Put(e, k, v)| == if k in Keys(e) then |e| else |e| + 1
    ensures forall i :: 0 <= i < |e| ==> Put(e, k, v)[i].0 == e[i].0
    ensures k !in Keys(e) ==> Put(e, k, v) == e + [(k, v)]
  {
    var r := Put(e, k, v);
    match IndexOf(e, k)
    case None =>
      KeysAppend(e, k, v);
    case Some(i) =>
      forall x ensures x in Keys(r) <==> x in Keys(e) {
        if x in Keys(e) {
          var j :| 0 <= j < |e| && e[j].0 == x;
          assert r[j].0 == x;
        }
      }
  }

  /** After adding `k`, looking up `k` gives the new value (last write wins)
      and every other key gives what it gave before. */
  lemma PutLookup(e: Entries, k: string, v: Value, k': string)
    ensures Lookup(Put(e, k, v), k') == if k' == k then Some(v) else Lookup(e, k')
  {
    var r := Put(e, k, v);
    match IndexOf(e, k)
    case None =>
      KeysAppend(e, k, v);
      if k' != k {
        SameKeysAppend(e, k, v, k');
      }
    case Some(i) =>
      SameKeysSameIndex(e, r, k');
  }

  /** Adding keeps the keys of the document distinct, and on such a document
      it replaces the entry under `k` in place and leaves the others as they were. */
  lemma PutUnique(e: Entries, k: string, v: Value)
    requires UniqueKeys(e)
    ensures UniqueKeys(Put(e, k, v))
    ensures forall i :: 0 <= i < |e| ==> Put(e, k, v)[i] == if e[i].0 == k then (k, v) else e[i]
  {
  }

  /** Documents with the same key at every position find every key at the same place. */
  lemma {:induction false} SameKeysSameIndex(a: Entries, b: Entries, k: string)
    requires |a| == |b|
    requires forall i :: 0 <= i < |a| ==> a[i].0 == b[i].0
    ensures IndexOf(a, k) == IndexOf(b, k)
  {
    if a != [] && a[0].0 != k {
      SameKeysSameIndex(a[1..], b[1..], k);
    }
  }

  lemma KeysAppend(e: Entries, k: string, v: Value)
    ensures Keys(e + [(k, v)]) == Keys(e) + {k}
  {
    var r := e + [(k, v)];
    forall x ensures x in Keys(r) <==> x in Keys(e) + {k} {
      if x in Keys(e) {
        var j :| 0 <= j < |e| && e[j].0 == x;
        assert r[j].0 == x;
      }
      if x == k {
        assert r[|e|].0 == k;
      }
    }
  }

  /** Appending an entry under `k` leaves every other key where it was. */
  lemma SameKeysAppend(e: Entries, k: string, v: Value, k': string)
    requires k' != k
    ensures IndexOf(e + [(k, v)], k') == IndexOf(e, k')
  {
    var r := e + [(k, v)];
    KeysAppend(e, k, v);
    match IndexOf(e, k')
    case None =>
    case Some(j) =>
      assert r[j].0 == k';
  }

  /** json-c's `json_object` of object type, as far as the logger uses it. */
  class Document {
    var entries: Entries

    /** `json_object_new_object`. */
    constructor ()
      ensures entries == []
    {
      entries := [];
    }

    /** `json_object_object_add`. */
    method Add(key: string, v: Value)
      modifies this
      ensures entries == Put(old(entries), key, v)
    {
      entries := Put(entries, key, v);
    }
  }
}

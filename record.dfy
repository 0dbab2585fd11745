/** Properties of the record `reallog` assembles and of the blocks it
    releases, stated over the specification functions of module Logger. */
module Record {
  import opened Header
  import opened Json
  import opened Logger

  /** The keys the first `k` fields write: those whose tag has a `case`. */
  function WrittenKeys(fs: seq<FieldData>, k: nat): set<string>
    requires k <= |fs|
  {
    set i | 0 <= i < k && KnownTag(fs[i].tag) :: fs[i].key
  }

  /** The document before any field is exactly "timestamp" (the clock
      reading) followed by "level" (the level token). */
  lemma {:induction false} BaseShape(l: string, clock: Int64)
    ensures Base(l, clock) == [("timestamp", JInt64(clock)), ("level", JString(l))]
  {
    PutKeys([], "timestamp", JInt64(Timestamp(clock)));
    var e := [("timestamp", JInt64(clock))];
    assert Keys(e) == {"timestamp"};
    PutKeys(e, "level", JString(l));
  }

  /** Running the loop never removes an entry or moves an existing key. */
  lemma {:induction false} AddAllKeepsPositions(e: Entries, fs: seq<FieldData>, k: nat)
    requires k <= |fs| && AllCoherent(fs)
    ensures |AddAll(e, fs, k)| >= |e|
    ensures forall i :: 0 <= i < |e| ==> AddAll(e, fs, k)[i].0 == e[i].0
  {
    if k > 0 {
      AddAllKeepsPositions(e, fs, k - 1);
      var f := fs[k - 1];
      if Entry(f).Some? {
        PutKeys(AddAll(e, fs, k - 1), f.key, Entry(f).value);
      }
    }
  }

  /** Every record starts with "timestamp", then "level", whatever fields follow. */
  lemma {:induction false} AssembleHeader(l: string, clock: Int64, fs: seq<FieldData>)
    requires AllCoherent(fs)
    ensures |Assemble(l, clock, fs)| >= 2
    ensures Assemble(l, clock, fs)[0].0 == "timestamp"
    ensures Assemble(l, clock, fs)[1].0 == "level"
  {
    BaseShape(l, clock);
    AddAllKeepsPositions(Base(l, clock), fs, |fs|);
  }

  /** The loop adds exactly the keys of the fields it has a `case` for. */
  lemma {:induction false} AddAllKeys(e: Entries, fs: seq<FieldData>, k: nat)
    requires k <= |fs| && AllCoherent(fs)
    ensures Keys(AddAll(e, fs, k)) == Keys(e) + WrittenKeys(fs, k)
  {
    if k > 0 {
      AddAllKeys(e, fs, k - 1);
      var f := fs[k - 1];
      assert WrittenKeys(fs, k) == WrittenKeys(fs, k - 1) + if KnownTag(f.tag) then {f.key} else {};
      if Entry(f).Some? {
        PutKeys(AddAll(e, fs, k - 1), f.key, Entry(f).value);
      }
    }
  }

  /** The record's keys are "timestamp", "level" and the key of every field
      whose tag has a `case`; a field with any other tag adds nothing. */
  lemma {:induction false} AssembleKeys(l: string, clock: Int64, fs: seq<FieldData>)
    requires AllCoherent(fs)
    ensures Keys(Assemble(l, clock, fs)) == {"timestamp", "level"} + WrittenKeys(fs, |fs|)
  {
    BaseShape(l, clock);
    AddAllKeys(Base(l, clock), fs, |fs|);
    assert Keys(Base(l, clock)) == {"timestamp", "level"} by {
      var b := Base(l, clock);
      assert b[0].0 == "timestamp" && b[1].0 == "level";
    }
  }

  /** The loop keeps the document free of duplicate keys. */
  lemma {:induction false} AddAllUnique(e: Entries, fs: seq<FieldData>, k: nat)
    requires k <= |fs| && AllCoherent(fs) && UniqueKeys(e)
    ensures UniqueKeys(AddAll(e, fs, k))
  {
    if k > 0 {
      AddAllUnique(e, fs, k - 1);
      var f := fs[k - 1];
      if Entry(f).Some? {
        PutUnique(AddAll(e, fs, k - 1), f.key, Entry(f).value);
      }
    }
  }

  /** A record never holds two entries under one key, even when the caller
      passes the same key twice. */
  lemma {:induction false} AssembleUnique(l: string, clock: Int64, fs: seq<FieldData>)
    requires AllCoherent(fs)
    ensures UniqueKeys(Assemble(l, clock, fs))
  {
    BaseShape(l, clock);
    AddAllUnique(Base(l, clock), fs, |fs|);
  }

  /** After the loop, a key holds the entry of the last field written under it. */
  lemma {:induction false} AddAllLast(e: Entries, fs: seq<FieldData>, k: nat, i: nat)
    requires i < k <= |fs| && AllCoherent(fs) && KnownTag(fs[i].tag)
    requires forall j :: i < j < k && fs[j].key == fs[i].key ==> !KnownTag(fs[j].tag)
    ensures Lookup(AddAll(e, fs, k), fs[i].key) == Entry(fs[i])
  {
    var f := fs[k - 1];
    if Entry(f).Some? {
      PutLookup(AddAll(e, fs, k - 1), f.key, Entry(f).value, fs[i].key);
    }
    if i < k - 1 {
      AddAllLast(e, fs, k - 1, i);
    }
  }

  /** A key no field writes keeps the value it had before the loop. */
  lemma {:induction false} AddAllUntouched(e: Entries, fs: seq<FieldData>, k: nat, key: string)
    requires k <= |fs| && AllCoherent(fs)
    requires forall j :: 0 <= j < k && fs[j].key == key ==> !KnownTag(fs[j].tag)
    ensures Lookup(AddAll(e, fs, k), key) == Lookup(e, key)
  {
    if k > 0 {
      var f := fs[k - 1];
      if Entry(f).Some? {
        PutLookup(AddAll(e, fs, k - 1), f.key, Entry(f).value, key);
      }
      AddAllUntouched(e, fs, k - 1, key);
    }
  }

  /** Last write wins: a key of the record holds the entry of the last field
      written under it, and that entry is of the kind the tag names and
      carries exactly the field's payload. */
  lemma {:induction false} LastWriteWins(l: string, clock: Int64, fs: seq<FieldData>, i: nat)
    requires AllCoherent(fs) && i < |fs| && KnownTag(fs[i].tag)
    requires forall j :: i < j < |fs| && fs[j].key == fs[i].key ==> !KnownTag(fs[j].tag)
    ensures Lookup(Assemble(l, clock, fs), fs[i].key).Some?
    ensures PayloadOf(Lookup(Assemble(l, clock, fs), fs[i].key).value) == fs[i].payload
  {
    AddAllLast(Base(l, clock), fs, |fs|, i);
  }

  /** Unless a field overwrites them, "timestamp" holds the clock reading and
      "level" the level token; a key no field writes is absent. */
  lemma {:induction false} HeaderValues(l: string, clock: Int64, fs: seq<FieldData>, key: string)
    requires AllCoherent(fs)
    requires forall j :: 0 <= j < |fs| && fs[j].key == key ==> !KnownTag(fs[j].tag)
    ensures Lookup(Assemble(l, clock, fs), key)
      == if key == "timestamp" then Some(JInt64(clock))
         else if key == "level" then Some(JString(l))
         else None
  {
    AddAllUntouched(Base(l, clock), fs, |fs|, key);
    BaseShape(l, clock);
    var b := Base(l, clock);
    assert b[0].0 == "timestamp" && b[1].0 == "level";
    LookupFound(b, key);
  }

  /** The entries fields with distinct new keys append, in argument order. */
  function Appended(fs: seq<FieldData>, k: nat): Entries
    requires k <= |fs|
    requires forall i :: 0 <= i < k ==> fs[i].Coherent() && KnownTag(fs[i].tag)
  {
    if k == 0 then [] else Appended(fs, k - 1) + [(fs[k - 1].key, Entry(fs[k - 1]).value)]
  }

  predicate FreshDistinctKeys(e: Entries, fs: seq<FieldData>) {
    && (forall i :: 0 <= i < |fs| ==> fs[i].key !in Keys(e))
    && (forall i, j :: 0 <= i < j < |fs| ==> fs[i].key != fs[j].key)
  }

  lemma {:induction false} AddAllAppends(e: Entries, fs: seq<FieldData>, k: nat)
    requires k <= |fs| && AllCoherent(fs)
    requires forall i :: 0 <= i < |fs| ==> KnownTag(fs[i].tag)
    requires FreshDistinctKeys(e, fs)
    ensures AddAll(e, fs, k) == e + Appended(fs, k)
  {
    if k > 0 {
      AddAllAppends(e, fs, k - 1);
      AppendsStep(e, fs, k);
    }
  }

  /** One iteration of the loop appends the next field's entry. */
  lemma {:induction false} AppendsStep(e: Entries, fs: seq<FieldData>, k: nat)
    requires 0 < k <= |fs| && AllCoherent(fs)
    requires forall i :: 0 <= i < |fs| ==> KnownTag(fs[i].tag)
    requires FreshDistinctKeys(e, fs)
    requires AddAll(e, fs, k - 1) == e + Appended(fs, k - 1)
    ensures AddAll(e, fs, k) == e + Appended(fs, k)
  {
    var prev := AddAll(e, fs, k - 1);
    var f := fs[k - 1];
    var x := (f.key, Entry(f).value);
    FreshKeyUnwritten(e, fs, k - 1);
    assert AddAll(e, fs, k) == Put(prev, f.key, Entry(f).value);
    PutKeys(prev, f.key, Entry(f).value);
    assert Appended(fs, k) == Appended(fs, k - 1) + [x];
    assert e + (Appended(fs, k - 1) + [x]) == (e + Appended(fs, k - 1)) + [x];
  }

  /** The key of the next field is not yet in the document. */
  lemma {:induction false} FreshKeyUnwritten(e: Entries, fs: seq<FieldData>, k: nat)
    requires k < |fs| && AllCoherent(fs)
    requires FreshDistinctKeys(e, fs)
    ensures fs[k].key !in Keys(AddAll(e, fs, k))
  {
    AddAllKeys(e, fs, k);
    assert fs[k].key !in WrittenKeys(fs, k);
  }

  /** With distinct keys other than "timestamp" and "level", the record is
      "timestamp", "level" and then one entry per field, in argument order. */
  lemma {:induction false} InsertionOrder(l: string, clock: Int64, fs: seq<FieldData>)
    requires AllCoherent(fs)
    requires forall i :: 0 <= i < |fs| ==> KnownTag(fs[i].tag)
    requires forall i :: 0 <= i < |fs| ==> fs[i].key != "timestamp" && fs[i].key != "level"
    requires forall i, j :: 0 <= i < j < |fs| ==> fs[i].key != fs[j].key
    ensures Assemble(l, clock, fs)
      == [("timestamp", JInt64(clock)), ("level", JString(l))] + Appended(fs, |fs|)
  {
    BaseShape(l, clock);
    var b := Base(l, clock);
    assert Keys(b) == {"timestamp", "level"} by {
      assert b[0].0 == "timestamp" && b[1].0 == "level";
    }
    AddAllAppends(b, fs, |fs|);
  }

  /** A record with no fields holds only "timestamp" and "level". */
  lemma {:induction false} NoFields(l: string, clock: Int64)
    ensures Assemble(l, clock, []) == [("timestamp", JInt64(clock)), ("level", JString(l))]
  {
    BaseShape(l, clock);
  }

  /** Two fields under one key leave one entry holding the second value. */
  lemma {:induction false} DuplicateKey(l: string, clock: Int64, key: string)
    requires key != "timestamp" && key != "level"
    ensures Assemble(l, clock, [FieldData(LOG_INT, key, IntPayload(1)), FieldData(LOG_INT, key, IntPayload(2))])
      == [("timestamp", JInt64(clock)), ("level", JString(l)), (key, JInt(2))]
  {
    var fs := [FieldData(LOG_INT, key, IntPayload(1)), FieldData(LOG_INT, key, IntPayload(2))];
    BaseShape(l, clock);
    var b := Base(l, clock);
    assert Keys(b) == {"timestamp", "level"} by {
      assert b[0].0 == "timestamp" && b[1].0 == "level";
    }
    PutKeys(b, key, JInt(1));
    var once := b + [(key, JInt(1))];
    assert AddAll(b, fs, 1) == once;
    assert UniqueKeys(once);
    PutKeys(once, key, JInt(2));
    PutUnique(once, key, JInt(2));
  }

  /** The keys of a document, in order. */
  function KeyList(e: Entries): seq<string> {
    seq(|e|, i requires 0 <= i < |e| => e[i].0)
  }

  /** The key order the loop produces, stated independently of the document:
      start from `ks` and append the key of each known-tag field the first
      time it appears. */
  function FirstUses(ks: seq<string>, fs: seq<FieldData>, k: nat): seq<string>
    requires k <= |fs|
  {
    if k == 0 then ks
    else
      var p := FirstUses(ks, fs, k - 1);
      if KnownTag(fs[k - 1].tag) && fs[k - 1].key !in p then p + [fs[k - 1].key] else p
  }

  lemma {:induction false} AddAllKeyOrder(e: Entries, fs: seq<FieldData>, k: nat)
    requires k <= |fs| && AllCoherent(fs)
    ensures KeyList(AddAll(e, fs, k)) == FirstUses(KeyList(e), fs, k)
  {
    if k > 0 {
      AddAllKeyOrder(e, fs, k - 1);
      var prev := AddAll(e, fs, k - 1);
      var f := fs[k - 1];
      var p := FirstUses(KeyList(e), fs, k - 1);
      assert KeyList(prev) == p;
      if Entry(f).Some? {
        var next := Put(prev, f.key, Entry(f).value);
        PutKeys(prev, f.key, Entry(f).value);
        if f.key in Keys(prev) {
          var j :| 0 <= j < |prev| && prev[j].0 == f.key;
          assert p[j] == f.key;
          assert KeyList(next) == KeyList(prev);
        } else {
          assert f.key !in p;
          assert KeyList(next) == KeyList(prev) + [f.key];
        }
      }
    }
  }

  /** The record's keys in order: "timestamp", "level", then each key written
      by a known-tag field at its first use, in argument order; a key written
      again keeps its first position. */
  lemma {:induction false} AssembleKeyOrder(l: string, clock: Int64, fs: seq<FieldData>)
    requires AllCoherent(fs)
    ensures KeyList(Assemble(l, clock, fs)) == FirstUses(["timestamp", "level"], fs, |fs|)
  {
    BaseShape(l, clock);
    AddAllKeyOrder(Base(l, clock), fs, |fs|);
    assert KeyList(Base(l, clock)) == ["timestamp", "level"];
  }

  /** An "info" record with a string field "msg" and an int field "count"
      holds exactly those two entries after "timestamp" and "level", in the
      order given. */
  lemma {:induction false} TwoFieldRecord(clock: Int64)
    ensures Assemble(LOG_INFO, clock,
                     [FieldData(LOG_STRING, "msg", StringPayload("records added successfully")),
                      FieldData(LOG_INT, "count", IntPayload(2))])
      == [("timestamp", JInt64(clock)), ("level", JString("info")),
          ("msg", JString("records added successfully")), ("count", JInt(2))]
  {
    var fs := [FieldData(LOG_STRING, "msg", StringPayload("records added successfully")),
               FieldData(LOG_INT, "count", IntPayload(2))];
    assert fs[0].key != fs[1].key;
    InsertionOrder(LOG_INFO, clock, fs);
    assert Appended(fs, 1) == [("msg", JString("records added successfully"))];
    assert Appended(fs, 2) == Appended(fs, 1) + [("count", JInt(2))];
  }

  /** A field of each kind, logged alone, comes back from the record with its
      own payload under its own key. */
  lemma {:induction false} SingleField(l: string, clock: Int64, f: FieldData)
    requires f.Coherent() && KnownTag(f.tag)
    ensures Lookup(Assemble(l, clock, [f]), f.key).Some?
    ensures PayloadOf(Lookup(Assemble(l, clock, [f]), f.key).value) == f.payload
  {
    LastWriteWins(l, clock, [f], 0);
  }

  /** The blocks `reallog` releases: the struct and key of every field before
      the sentinel, the string copy of exactly those whose tag is LOG_STRING,
      and nothing of any other object. */
  lemma {:induction false} OwnedMembers(ps: seq<Field?>, fs: seq<FieldData>, k: nat, f: Field)
    requires k <= |ps| && k <= |fs|
    requires forall i :: 0 <= i < k ==> ps[i] != null
    ensures FieldBlock(f) in Owned(ps, fs, k) <==> exists i :: 0 <= i < k && ps[i] == f
    ensures KeyBlock(f) in Owned(ps, fs, k) <==> exists i :: 0 <= i < k && ps[i] == f
    ensures ValueBlock(f) in Owned(ps, fs, k) <==> exists i :: 0 <= i < k && ps[i] == f && fs[i].tag == LOG_STRING
  {
    if k > 0 {
      OwnedMembers(ps, fs, k - 1, f);
    }
  }
}

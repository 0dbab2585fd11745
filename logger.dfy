/** logger.c: the output handle, the typed field constructors, releasing a
    field, and `reallog`, which assembles one record from a level, the clock
    and a NULL-terminated list of fields and writes it to the output. */
module Logger {
  import opened Header
  import opened Json

  /** An output stream, seen as the sequence of documents written to it
      (serialisation to JSON text is not modelled). */
  class Sink {
    var records: seq<Entries>

    constructor ()
      ensures records == []
    {
      records := [];
    }

    /** `fprintf(out, "%s\n", json_object_to_json_string(doc))`. */
    method Write(doc: Entries)
      modifies this
      ensures records == old(records) + [doc]
    {
      records := records + [doc];
    }
  }

  /** The process-wide state of logger.h: the global `FILE *log_output`,
      which starts out NULL like every static-storage pointer. */
  class Process {
    var logOutput: Sink?

    constructor ()
      ensures logOutput == null
    {
      logOutput := null;
    }
  }

  /** `log_init`: store the output handle in the global. */
  method LogInit(g: Process, out: Sink?)
    modifies g
    ensures g.logOutput == out
  {
    g.logOutput := out;
  }

  /** A heap-allocated `struct log_field_t`. */
  class Field {
    var tag: Uint8
    var key: string
    var payload: Payload

    function Data(): FieldData
      reads this
    {
      FieldData(tag, key, payload)
    }

    /** The zeroing half of `log_field_new`: tag 0 (LOG_INT), union all
        zero, and the key copied in. */
    constructor Zeroed(k: string)
      ensures Data() == FieldData(LOG_INT, k, IntPayload(0))
    {
      tag := LOG_INT;
      payload := IntPayload(0);
      key := k;
    }
  }

  /** A block obtained from `malloc`: a field's struct, its key copy, or the
      copy of its string value. */
  datatype Block = FieldBlock(f: Field) | KeyBlock(f: Field) | ValueBlock(f: Field)

  /** The blocks a field with tag `tag` owns: the struct and the key, plus
      the string copy when the tag says the union holds a string. */
  function Blocks(f: Field, tag: Uint8): set<Block> {
    {FieldBlock(f), KeyBlock(f)} + if tag == LOG_STRING then {ValueBlock(f)} else {}
  }

  function BlocksOf(f: Field): set<Block>
    reads f
  {
    Blocks(f, f.tag)
  }

  /** The blocks owned by the first `k` fields of `ps`, whose contents are `fs`. */
  function Owned(ps: seq<Field?>, fs: seq<FieldData>, k: nat): set<Block>
    requires k <= |ps| && k <= |fs|
    requires forall i :: 0 <= i < k ==> ps[i] != null
  {
    if k == 0 then {} else Owned(ps, fs, k - 1) + Blocks(ps[k - 1], fs[k - 1].tag)
  }

  /** The C allocator, seen as the set of blocks currently allocated. Memory
      is taken to be always available. */
  class Heap {
    var live: set<Block>

    constructor ()
      ensures live == {}
    {
      live := {};
    }
  }

  /** `log_field_new`: allocate a zeroed field and a copy of the key. */
  method LogFieldNew(h: Heap, key: string) returns (field: Field)
    modifies h
    ensures fresh(field)
    ensures field.Data() == FieldData(LOG_INT, key, IntPayload(0))
    ensures h.live == old(h.live) + {FieldBlock(field), KeyBlock(field)}
  {
    field := new Field.Zeroed(key);
    h.live := h.live + {FieldBlock(field), KeyBlock(field)};
  }

  /** `log_int`. */
  method LogInt(h: Heap, key: string, value: Int32) returns (field: Field)
    modifies h
    ensures fresh(field)
    ensures field.Data() == FieldData(LOG_INT, key, IntPayload(value))
    ensures field.Data().Coherent()
    ensures h.live == old(h.live) + BlocksOf(field)
  {
    field := LogFieldNew(h, key);
    field.tag := LOG_INT;
    field.payload := IntPayload(value);
  }

  /** `log_int64`. */
  method LogInt64(h: Heap, key: string, value: Int64) returns (field: Field)
    modifies h
    ensures fresh(field)
    ensures field.Data() == FieldData(LOG_INT64, key, Int64Payload(value))
    ensures field.Data().Coherent()
    ensures h.live == old(h.live) + BlocksOf(field)
  {
    field := LogFieldNew(h, key);
    field.tag := LOG_INT64;
    field.payload := Int64Payload(value);
  }

  /** `log_double`. */
  method LogDouble(h: Heap, key: string, value: Double) returns (field: Field)
    modifies h
    ensures fresh(field)
    ensures field.Data() == FieldData(LOG_DOUBLE, key, DoublePayload(value))
    ensures field.Data().Coherent()
    ensures h.live == old(h.live) + BlocksOf(field)
  {
    field := LogFieldNew(h, key);
    field.tag := LOG_DOUBLE;
    field.payload := DoublePayload(value);
  }

  /** `log_string`: the value is copied into a block of its own. */
  method LogString(h: Heap, key: string, value: string) returns (field: Field)
    modifies h
    ensures fresh(field)
    ensures field.Data() == FieldData(LOG_STRING, key, StringPayload(value))
    ensures field.Data().Coherent()
    ensures h.live == old(h.live) + BlocksOf(field)
  {
    field := LogFieldNew(h, key);
    field.tag := LOG_STRING;
    h.live := h.live + {ValueBlock(field)};
    field.payload := StringPayload(value);
  }

  /** `log_field_free`: release the key, the string copy when the tag is
      LOG_STRING, and the struct; NULL is ignored. Every block released must
      still be allocated, so a second release of the same field is refused. */
  method LogFieldFree(h: Heap, sf: Field?)
    requires sf != null ==> BlocksOf(sf) <= h.live
    modifies h
    ensures sf == null ==> h.live == old(h.live)
    ensures sf != null ==> h.live == old(h.live) - BlocksOf(sf)
  {
    if sf != null {
      h.live := h.live - {KeyBlock(sf)};
      if sf.tag == LOG_STRING {
        h.live := h.live - {ValueBlock(sf)};
      }
      h.live := h.live - {FieldBlock(sf)};
    }
  }


  /** `(unsigned long)time(NULL)`: the clock reading as a 64-bit unsigned value. */
  function Now(clock: Int64): (u: Uint64)
    ensures u as int == if clock < 0 then clock as int + 0x1_0000_0000_0000_0000 else clock as int
  {
    (clock as int % 0x1_0000_0000_0000_0000) as Uint64
  }

  /** The conversion of that value to `int64_t` when it is passed to
      `json_object_new_int64` (two's complement). */
  function AsInt64(u: Uint64): (n: Int64)
    ensures (n as int - u as int) % 0x1_0000_0000_0000_0000 == 0
  {
    if u < 0x8000_0000_0000_0000 then u as int as Int64
    else (u as int - 0x1_0000_0000_0000_0000) as Int64
  }

  /** The "timestamp" value of a record: the round trip through `unsigned long`
      gives back the clock reading unchanged, negative readings included. */
  function Timestamp(clock: Int64): (ts: Int64)
    ensures ts == clock
  {
    AsInt64(Now(clock))
  }

  /** The inverse of the tag dispatch: the payload an entry was made from. */
  function PayloadOf(v: Value): Payload {
    match v
    case JInt(i) => IntPayload(i)
    case JInt64(n) => Int64Payload(n)
    case JDouble(d) => DoublePayload(d)
    case JString(s) => StringPayload(s)
  }

  /** The `switch (arg->type)` of `reallog`: the entry a field adds, if its tag
      has a `case`. Only the payload member the tag selects is read. */
  function Entry(f: FieldData): (r: Option<Value>)
    requires f.Coherent()
    ensures r.Some? <==> KnownTag(f.tag)
    ensures r.Some? ==> PayloadOf(r.value) == f.payload && TagOf(PayloadOf(r.value)) == f.tag
  {
    if f.tag == LOG_INT then Some(JInt(f.payload.int_value))
    else if f.tag == LOG_INT64 then Some(JInt64(f.payload.int64_value))
    else if f.tag == LOG_DOUBLE then Some(JDouble(f.payload.double_value))
    else if f.tag == LOG_STRING then Some(JString(f.payload.char_value))
    else None
  }

  predicate AllCoherent(fs: seq<FieldData>) {
    forall i :: 0 <= i < |fs| ==> fs[i].Coherent()
  }

  /** One iteration of the assembly loop on the document. */
  function AddField(e: Entries, f: FieldData): Entries
    requires f.Coherent()
  {
    match Entry(f)
    case None => e
    case Some(v) => Put(e, f.key, v)
  }

  /** The assembly loop run over the first `k` fields of `fs`, in order. */
  function AddAll(e: Entries, fs: seq<FieldData>, k: nat): Entries
    requires k <= |fs| && AllCoherent(fs)
  {
    if k == 0 then e
    else AddField(AddAll(e, fs, k - 1), fs[k - 1])
  }

  /** The document before the first field: "timestamp", then "level". */
  function Base(l: string, clock: Int64): Entries {
    Put(Put([], "timestamp", JInt64(Timestamp(clock))), "level", JString(l))
  }

  /** The document `reallog` writes for level `l`, clock reading `clock` and
      the fields before the sentinel. */
  function Assemble(l: string, clock: Int64, fs: seq<FieldData>): Entries
    requires AllCoherent(fs)
  {
    AddAll(Base(l, clock), fs, |fs|)
  }

  /** The number of arguments before the first NULL: `va_arg` stops there. */
  function SentinelIndex(args: seq<Field?>): (n: nat)
    ensures n <= |args|
    ensures forall i :: 0 <= i < n ==> args[i] != null
    ensures n < |args| ==> args[n] == null
  {
    if args == [] || args[0] == null then 0
    else 1 + SentinelIndex(args[1..])
  }

  /** The contents of the first `k` fields of `ps`. */
  function Snapshot(ps: seq<Field?>, k: nat): (r: seq<FieldData>)
    requires k <= |ps| && forall i :: 0 <= i < k ==> ps[i] != null
    reads set i | 0 <= i < k :: ps[i]
    ensures |r| == k
    ensures forall i :: 0 <= i < k ==> r[i] == ps[i].Data()
  {
    if k == 0 then [] else Snapshot(ps, k - 1) + [ps[k - 1].Data()]
  }

  /** What `reallog` demands of the `k` fields before the sentinel: distinct
      fields whose blocks are all still allocated and whose unions hold what
      their tags say. */
  predicate Consumable(h: Heap, ps: seq<Field?>, k: nat)
    reads h, set i | 0 <= i < k && i < |ps| :: ps[i]
  {
    && k <= |ps|
    && (forall i :: 0 <= i < k ==> ps[i] != null && BlocksOf(ps[i]) <= h.live && ps[i].Data().Coherent())
    && (forall i, j :: 0 <= i < j < k ==> ps[i] != ps[j])
  }

  /** The body of the `switch (arg->type)`: add the entry the tag selects,
      reading only the payload member that tag names, and only while the
      field is still allocated; an unknown tag adds nothing. */
  method AddEntry(h: Heap, root: Document, arg: Field)
    requires BlocksOf(arg) <= h.live && arg.Data().Coherent()
    modifies root
    ensures root.entries == AddField(old(root.entries), arg.Data())
  {
    if arg.tag == LOG_INT {
      root.Add(arg.key, JInt(arg.payload.int_value));
    } else if arg.tag == LOG_INT64 {
      root.Add(arg.key, JInt64(arg.payload.int64_value));
    } else if arg.tag == LOG_DOUBLE {
      root.Add(arg.key, JDouble(arg.payload.double_value));
    } else if arg.tag == LOG_STRING {
      root.Add(arg.key, JString(arg.payload.char_value));
    }
  }

  /** A field outside a list owns no block the list owns. */
  lemma {:induction false} OwnedExcludes(ps: seq<Field?>, fs: seq<FieldData>, k: nat, f: Field, tag: Uint8)
    requires k <= |ps| && k <= |fs|
    requires forall i :: 0 <= i < k ==> ps[i] != null && ps[i] != f
    ensures Blocks(f, tag) !! Owned(ps, fs, k)
  {
    if k > 0 {
      OwnedExcludes(ps, fs, k - 1, f, tag);
    }
  }

  /** `Snapshot` and `Owned` depend only on the first `k` references. */
  lemma {:induction false} SamePrefix(ps: seq<Field?>, qs: seq<Field?>, fs: seq<FieldData>, k: nat)
    requires k <= |ps| && k <= |qs| && k <= |fs|
    requires forall i :: 0 <= i < k ==> ps[i] != null && ps[i] == qs[i]
    ensures Snapshot(ps, k) == Snapshot(qs, k)
    ensures Owned(ps, fs, k) == Owned(qs, fs, k)
  {
    if k > 0 {
      SamePrefix(ps, qs, fs, k - 1);
    }
  }

  /** The start of `reallog`: read the clock, open a document and add
      "timestamp", then "level". */
  method OpenRecord(l: string, clock: Int64) returns (root: Document)
    ensures fresh(root)
    ensures root.entries == Base(l, clock)
  {
    var now := Now(clock);
    root := new Document();
    root.Add("timestamp", JInt64(AsInt64(now)));
    root.Add("level", JString(l));
  }

  /** `reallog`: build the document ("timestamp", "level", then each field
      before the sentinel, in order), release each field right after its
      entry is added, and write the document to `log_output`. `reported`
      stands for the byte count `fprintf` returns, which is passed through. */
  method Reallog(g: Process, h: Heap, l: string, clock: Int64, args: seq<Field?>, reported: int)
    returns (wc: int)
    requires g.logOutput != null
    requires SentinelIndex(args) < |args|
    requires Consumable(h, args, SentinelIndex(args))
    modifies g.logOutput, h
    ensures wc == reported
    ensures g.logOutput.records
      == old(g.logOutput.records) + [Assemble(l, clock, old(Snapshot(args, SentinelIndex(args))))]
    ensures h.live == old(h.live) - Owned(args, old(Snapshot(args, SentinelIndex(args))), SentinelIndex(args))
  {
    var out := g.logOutput;
    ghost var n := SentinelIndex(args);
    ghost var fs := Snapshot(args, n);
    assert AllCoherent(fs);

    var root := OpenRecord(l, clock);
    ghost var base := root.entries;

    var i := 0;
    while true
      invariant 0 <= i <= n
      invariant fresh(root)
      invariant root.entries == AddAll(base, fs, i)
      invariant h.live == old(h.live) - Owned(args, fs, i)
      invariant out.records == old(out.records)
      decreases n - i
    {
      var arg := args[i];
      if arg == null {
        break;
      }
      OwnedExcludes(args, fs, i, arg, arg.tag);
      AddEntry(h, root, arg);
      LogFieldFree(h, arg);
      i := i + 1;
    }

    out.Write(root.entries);
    wc := reported;
  }

  /** The `log(l, ...)` macro: `reallog` with a NULL appended to the arguments. */
  method Log(g: Process, h: Heap, l: string, clock: Int64, args: seq<Field?>, reported: int)
    returns (wc: int)
    requires g.logOutput != null
    requires Consumable(h, args, SentinelIndex(args))
    modifies g.logOutput, h
    ensures wc == reported
    ensures g.logOutput.records
      == old(g.logOutput.records) + [Assemble(l, clock, old(Snapshot(args, SentinelIndex(args))))]
    ensures h.live == old(h.live) - Owned(args, old(Snapshot(args, SentinelIndex(args))), SentinelIndex(args))
  {
    MacroTerminates(args);
    SamePrefix(args, args + [null], Snapshot(args, SentinelIndex(args)), SentinelIndex(args));
    wc := Reallog(g, h, l, clock, args + [null], reported);
  }

  /** The NULL the macro appends is always found, and the fields before the
      first NULL are the same as in the caller's list. */
  lemma {:induction false} MacroTerminates(args: seq<Field?>)
    ensures SentinelIndex(args + [null]) == SentinelIndex(args) < |args + [null]|
    ensures (args + [null])[..SentinelIndex(args)] == args[..SentinelIndex(args)]
  {
    if args != [] && args[0] != null {
      assert (args + [null])[1..] == args[1..] + [null];
      MacroTerminates(args[1..]);
    }
  }
}

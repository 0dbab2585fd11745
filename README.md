# liblogger in Dafny

liblogger is a small C library that writes structured log records as
single-line JSON objects. A caller first stores an output stream with
`log_init`. It then builds typed fields (`log_int`, `log_int64`,
`log_double`, `log_string`), each a heap-allocated `struct log_field_t`: a
`uint8_t` tag, a copied key and a union holding the value. Finally it calls
`log(level, field, ...)`, a macro that appends a NULL sentinel and calls
`reallog`. `reallog` builds a json-c object: `"timestamp"` (the clock
reading) first, then `"level"`. After those come the fields before the
sentinel. Each new key of a field with a known tag adds one entry, in the
order the keys are first used. A key already in the object, "timestamp" and
"level" included, keeps its position and takes the new value, so every key
holds the value of the last field written under it. It frees each field right after adding its entry,
writes the object to the output and returns `fprintf`'s byte count.

The model has four modules:

- `Header` (header.dfy) covers logger.h. It holds the level tokens, the four
  field tags, the C scalar widths, and the tagged union as a `Payload`
  datatype beside a separate `Uint8` tag. `FieldData.Coherent` says that a
  known tag names the member the union holds.
- `Json` (json.dfy) is the part of json-c the logger uses. An object is a
  sequence of key/value pairs. `Put` is `json_object_object_add`: it replaces
  the value of an existing key in place, or appends a new key at the end.
  `Document` is the mutable `json_object` whose `Add` method applies `Put`.
- `Logger` (logger.dfy) covers logger.c and the `log` macro.
  - `Process` holds the global `log_output`.
  - `Field` is one allocated `struct log_field_t`.
  - `Heap` is the C allocator, seen as the set of live blocks: a field's
    struct, its key copy and its string copy. Freeing a block that is not
    live (a double free) is ruled out by a precondition.
  - `Reallog` is an imperative loop over the argument list. It is proved
    against the specification function `Assemble` and against `Owned`, the
    set of blocks it releases.
- `Record` (record.dfy) proves what the written record looks like:
  - the header comes first;
  - the exact key set;
  - keys are never duplicated;
  - last write wins;
  - insertion order;
  - a few concrete records.

The time source and `fprintf`'s return value come from outside the model.
They are parameters: `clock` is what `time(NULL)` returns, and `reported`
is the byte count `fprintf` returns, which `reallog` passes through.

logger.c:98-99 adds `"timestamp"` first and `"level"` second, so a record
lists them in that order.

The contracts of `Reallog` and `Log` are stated with these specification
functions in logger.dfy:

- `Base(l, clock)` is the document after logger.c:97-99. `Record.BaseShape`
  proves it is exactly `[("timestamp", clock), ("level", l)]`.
- `AddField(e, f)` is one iteration of the loop at logger.c:109-121. It puts
  the field's `Entry` under the field's key, or leaves `e` unchanged if the
  tag has no `case`.
- `AddAll(e, fs, k)` applies `AddField` to the first `k` fields, in order.
- `Assemble(l, clock, fs)` is `AddAll(Base(l, clock), fs, |fs|)`. This is
  the record `reallog` writes. Its meaning is proved by the `Record.*`
  lemmas below.
- `Owned(ps, fs, k)` is the set of blocks the first `k` fields own: each
  field's struct and key, plus its string copy when the tag is LOG_STRING.
  `Record.OwnedMembers` characterises it.
- `Snapshot(ps, k)` is the contents of the first `k` fields.
- `SentinelIndex(args)` is the position of the first NULL.

## Model

| member | source | states |
|---|---|---|
| Header.LevelTokens | logger.h:9-14 | There are six level tokens. They are pairwise distinct and contain only lower-case letters. |
| Header.TagOrder | logger.h:19-24 | The four tags are numbered in the order declared, and 0..3 are exactly the tags the assembler knows. |
| Header.TagOf | logger.h:30-39 | Each union member has exactly one tag, and each known tag selects exactly one member (both directions). |
| Json.IndexOf | logger.c:98-120 | The found position holds the key and no earlier position does; no position is found exactly when the key is absent. |
| Json.LookupFound | logger.c:98-120 | A lookup succeeds exactly when the key is present, and returns a pair of the document; with distinct keys it returns that key's value. |
| Json.PutKeys | logger.c:98-120 | Adding a key makes the key set grow by exactly that key and moves no existing key. The document grows by one only for a new key, and a new key goes at the end. |
| Json.PutLookup | logger.c:98-120 | After adding, looking up the added key gives the new value, and every other key is unchanged. |
| Json.PutUnique | logger.c:98-120 | Adding keeps the keys distinct; it replaces exactly the pair under that key and no other. |
| Json.Document.constructor | logger.c:97 | A new json object is empty. |
| Json.Document.Add | logger.c:98-120 | The object becomes the previous object with that key put. |
| Logger.Sink.Write | logger.c:128 | The stream gains the document as its newest record, and earlier records are unchanged. |
| Logger.Process.constructor | logger.h:73 | The global output handle starts out NULL. |
| Logger.LogInit | logger.c:11-15 | The global output handle becomes the given stream. |
| Logger.Field.Zeroed | logger.c:29-31 | A zeroed field has tag LOG_INT, an integer payload of 0, and the copied key. |
| Logger.LogFieldNew | logger.c:21-33 | Returns a new zeroed field with the key copied in. Exactly two new blocks are allocated: the struct and the key copy. |
| Logger.LogInt | logger.c:53-60 | Returns a new field tagged LOG_INT holding the value, with a coherent tag. Its struct and key become live. |
| Logger.LogInt64 | logger.c:62-69 | Returns a new field tagged LOG_INT64 holding the value, with a coherent tag. Its struct and key become live. |
| Logger.LogDouble | logger.c:71-78 | Returns a new field tagged LOG_DOUBLE holding the value, with a coherent tag. Its struct and key become live. |
| Logger.LogString | logger.c:80-88 | Returns a new field tagged LOG_STRING holding the string, with a coherent tag. Its struct, key and string copy become live. |
| Logger.LogFieldFree | logger.c:39-51 | NULL frees nothing. Otherwise it frees exactly the key, the struct, and the string copy when the tag is LOG_STRING. Every block freed must still be live. |
| Logger.Now | logger.c:95 | The cast to `unsigned long` gives a value congruent to the clock reading modulo 2^64: the reading itself, or the reading plus 2^64 when it is negative. |
| Logger.AsInt64 | logger.c:98 | The conversion to `int64_t` gives the one 64-bit signed value congruent to its argument modulo 2^64 (two's complement). |
| Logger.Timestamp | logger.c:95-98 | Casting the clock reading to `unsigned long` and back to `int64_t` returns it unchanged, negative readings included. |
| Logger.Entry | logger.c:109-121 | A field yields an entry exactly when its tag has a `case`. That entry is of the kind the tag names and carries exactly the field's payload. |
| Logger.SentinelIndex | logger.c:103-107 | The loop stops at the first NULL: every earlier argument is non-NULL, and the argument at the stop position is NULL. |
| Logger.SamePrefix | logger.c:103-107 | The fields read and the blocks freed depend only on the arguments before the sentinel. |
| Logger.AddEntry | logger.c:109-121 | The document becomes the previous one with the field's entry put, or unchanged for an unknown tag. The field must still be allocated. |
| Logger.OpenRecord | logger.c:95-99 | Returns a new object holding "timestamp" and then "level". |
| Logger.Reallog | logger.c:90-132 | Writes exactly one record to the output: the assembled document for the level, the clock and the fields before the sentinel. It frees exactly the blocks those fields own and returns fprintf's count. |
| Logger.Log | logger.h:98 | Adding the NULL sentinel makes `reallog` write the record of every field before the caller's first NULL and free exactly those fields. Fields after a NULL the caller passed are neither written nor freed. |
| Logger.MacroTerminates | logger.h:98 | After the macro appends NULL, a sentinel is always found, and the fields before it are the caller's. |
| Record.BaseShape | logger.c:97-99 | Before any field, the document is exactly ("timestamp", clock) followed by ("level", level token). |
| Record.AssembleHeader | logger.c:97-121 | Every record starts with "timestamp" and then "level", whatever fields follow. |
| Record.AssembleKeys | logger.c:97-121 | The record's keys are "timestamp", "level" and the key of every field whose tag has a `case`, and no others. |
| Record.AssembleUnique | logger.c:98-121 | A record never holds two entries under one key. |
| Record.LastWriteWins | logger.c:109-121 | A key holds the payload of the last known-tag field written under it. |
| Record.HeaderValues | logger.c:98-99 | If no field overwrites them, "timestamp" holds the clock reading and "level" the level token; any other key no field writes is absent. |
| Record.InsertionOrder | logger.c:97-121 | With known tags and distinct new keys, the record is the header followed by one entry per field, in argument order. |
| Record.NoFields | logger.c:97-107 | A call with no fields writes only "timestamp" and "level". |
| Record.DuplicateKey | logger.c:109-112 | Two int fields under one key leave a single entry holding the second value, in the first field's position. |
| Record.AssembleKeyOrder | logger.c:97-121 | The record's keys, in order, are "timestamp", "level", and then each key of a known-tag field at its first use, in argument order. Repeated keys included, no key moves after it is first written. |
| Record.TwoFieldRecord | tests/tests.c:14-20 | An "info" record with "msg" set to "records added successfully" and "count" set to 2 holds exactly those entries after the header, in that order. |
| Record.SingleField | logger.c:109-121 | A lone field of any known kind comes back under its key with its own payload. |
| Record.OwnedMembers | logger.c:122 | `reallog` frees the struct and key of exactly the fields before the sentinel, and the string copy of exactly those tagged LOG_STRING. |

## Left out

- Serialising JSON to text (`json_object_to_json_string`) is not modelled. A written record is the key/value sequence, in the order json-c keeps.
- The reference counting behind `json_object_put` is not modelled: the document is a value the model drops after writing.
- `fprintf`'s byte count is the parameter `reported`, which `Reallog` returns unchanged. Nothing is proved about record lengths, including the byte counts in tests/tests.c.
- `time(NULL)` is the parameter `clock`.
- Floating point: a `double` is an opaque bit pattern, and the model never computes with it.
- Allocation failure (logger.c:25-28) is not modelled. Memory is always available, so the `key != NULL` and `char_value != NULL` checks in `log_field_free` are always true. If `malloc` does fail, the constructors go on to dereference NULL.
- Logger.LogFieldNew: it never returns NULL, because allocation is taken to succeed.
- Logger.Reallog: it requires each field's union to hold the member its tag names (`Coherent`). In C this is a type-level fact that the four constructors establish, and reading another member is not modelled.
- Logger.Reallog: it requires distinct live fields. Passing one field twice is a double free in C; the model rules it out rather than modelling it.
- Logger.Reallog: it requires `log_init` to have stored a non-NULL stream (`g.logOutput != null`). `fprintf` to a NULL stream is undefined behaviour in C, and tests/tests.c calls `log_init` before every `log`.
- Logger.Reallog: it freezes the fields' contents for the duration of the call, as the fields are not shared with other code during `reallog`.
- Logger.Reallog: the postcondition states the document and the freed blocks, not the order of operations within an iteration. `AddEntry`'s precondition (the field is still allocated) stands in for "add before free".
- The field tests in tests/tests.c pass a separate key string before each field. That call shape does not match logger.h; the model follows logger.h.
- logger.c has no debug file/line information, no "fatal" level that exits the process, and no split-argument API, so the model has none either.
- Lines 24, 39 and 75-78 of logger.h are not modelled. Lines 24 and 39 define file-scope objects named `log_field_types` and `log_field_t`, and lines 75-78 declare an enum that nothing uses.
- Calling `log` with no fields leaves an empty `__VA_ARGS__` before the NULL, which standard C does not accept. The model still allows an empty list, which `reallog` itself handles.
- Keys, string values and the level are Dafny strings, which may contain `'\0'`. In C they are NUL-terminated: `strlen` and `strcpy` (logger.c:30-31, 85-86) and json-c's key comparison stop at the first `'\0'`. So the model treats `"a\0b"` and `"a\0c"` as two keys, where the program sees the single key `"a"`. The model describes callers that pass strings without an embedded NUL.
- NULL pointers passed as a key, a string value or the level are not modelled, since a Dafny `string` cannot be NULL. In C they are undefined behaviour: `strlen(NULL)` at logger.c:30 and logger.c:85, and `json_object_new_string(NULL)` at logger.c:99.
- Concurrency is not modelled: the global output handle and the allocator are used by one thread.
- The benchmark programs and example.c are not modelled.

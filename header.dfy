/** The declarations of logger.h: the level tokens, the field-type tags, the
    scalar widths the payloads use, and the value held by a `log_field_t`. */
module Header {

  /** C scalar types at their widths on an LP64 target. */
  newtype Uint8 = x: int | 0 <= x < 0x100
  newtype Int32 = x: int | -0x8000_0000 <= x < 0x8000_0000
  newtype Int64 = x: int | -0x8000_0000_0000_0000 <= x < 0x8000_0000_0000_0000
  newtype Uint64 = x: int | 0 <= x < 0x1_0000_0000_0000_0000

  /** A C `double`, kept as its IEEE-754 bit pattern and never computed with. */
  datatype Double = Double(bits: bv64)

  /** The level tokens, used verbatim as the record's "level" value. */
  const LOG_TRACE: string := "trace"
  const LOG_DEBUG: string := "debug"
  const LOG_INFO: string := "info"
  const LOG_WARN: string := "warn"
  const LOG_ERROR: string := "error"
  const LOG_FATAL: string := "fatal"

  const Levels: seq<string> := [LOG_TRACE, LOG_DEBUG, LOG_INFO, LOG_WARN, LOG_ERROR, LOG_FATAL]

  /** The anonymous field-type enum, stored in the `uint8_t type` member. */
  const LOG_INT: Uint8 := 0
  const LOG_INT64: Uint8 := 1
  const LOG_DOUBLE: Uint8 := 2
  const LOG_STRING: Uint8 := 3

  /** A tag the record assembler has a `case` for. */
  predicate KnownTag(t: Uint8) {
    t == LOG_INT || t == LOG_INT64 || t == LOG_DOUBLE || t == LOG_STRING
  }

  /** The anonymous union of `log_field_t`: exactly one member is present. */
  datatype Payload =
    | IntPayload(int_value: Int32)
    | Int64Payload(int64_value: Int64)
    | DoublePayload(double_value: Double)
    | StringPayload(char_value: string)

  /** The tag that selects a payload member. */
  function TagOf(p: Payload): (t: Uint8)
    ensures KnownTag(t)
    ensures t == LOG_INT <==> p.IntPayload?
    ensures t == LOG_INT64 <==> p.Int64Payload?
    ensures t == LOG_DOUBLE <==> p.DoublePayload?
    ensures t == LOG_STRING <==> p.StringPayload?
  {
    match p
    case IntPayload(_) => LOG_INT
    case Int64Payload(_) => LOG_INT64
    case DoublePayload(_) => LOG_DOUBLE
    case StringPayload(_) => LOG_STRING
  }

  /** The contents of one `struct log_field_t`: its tag, its key and its union. */
  datatype FieldData = FieldData(tag: Uint8, key: string, payload: Payload) {
    /** Reading the member a known tag selects is defined: the union holds that member.
        A tag outside the enum selects no member and constrains nothing. */
    predicate Coherent() {
      KnownTag(tag) ==> tag == TagOf(payload)
    }
  }

  /** The six level tokens are distinct and written in lower case. */
  lemma LevelTokens()
    ensures |Levels| == 6
    ensures forall i, j :: 0 <= i < j < |Levels| ==> Levels[i] != Levels[j]
    ensures forall i, j :: 0 <= i < |Levels| && 0 <= j < |Levels[i]| ==> 'a' <= Levels[i][j] <= 'z'
  {
  }

  /** The four tags are distinct, ordered as declared, and are the only known ones. */
  lemma TagOrder()
    ensures LOG_INT < LOG_INT64 < LOG_DOUBLE < LOG_STRING
    ensures forall t: Uint8 :: KnownTag(t) <==> t < 4
  {
  }
}

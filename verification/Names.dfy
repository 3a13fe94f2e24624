/**
 Enumerations in durable state are written by name. An enumeration is a table of names indexed by
 code; a code outside the table prints as one fixed invalid name.
 */
module Names {
  import opened Types

  datatype RawTable = Table(names: seq<string>, invalid: string)

  /** Names are short and no two codes print alike. */
  predicate Distinct(t: RawTable) {
    && |t.names| < TWO_16
    && (forall i :: 0 <= i < |t.names| ==> |t.names[i]| <= 64)
    && (forall i, j :: 0 <= i < j < |t.names| ==> t.names[i] != t.names[j])
  }

  type Table = t: RawTable | Distinct(t) witness Table([], "")

  const OPERATION_CLASS := Table(
    ["REDUCE", "SUM", "MIN", "MAX", "COUNT", "FILTER", "SCAN", "COMPARE", "CHECKSUM", "HASH", "COMPRESS",
     "DECOMPRESS", "ENCODE", "DECODE", "TRANSFORM", "ELEMENTWISE", "COPY_ELISION_TRANSFORM", "INDEX_LOOKUP",
     "GATHER", "SCATTER", "CUSTOM_REGISTERED"],
    "INVALID_OPERATION_CLASS")
  const TARGET_KIND := Table(
    ["HOST_CPU_LOCAL", "MEMORY_SIDE_PROCESSOR", "PIM_CLASS", "CXL_ADJACENT_COMPUTE", "FABRIC_ATTACHED_COMPUTE",
     "STORAGE_ADJACENT_COMPUTE", "DPU_ADJACENT_MEMORY_SERVICE", "ACCELERATOR_MEMORY_LOCAL", "SOFTWARE_DEFINED",
     "SYNTHETIC", "UNKNOWN"],
    "INVALID_TARGET_KIND")
  const PROVIDER_KIND := Table(["REAL", "SYNTHETIC", "UNKNOWN", "UNSUPPORTED"], "INVALID_PROVIDER_KIND")
  const LIFECYCLE := Table(
    ["PLANNED", "RESERVED", "DISPATCHED", "RUNNING", "VERIFYING", "COMPLETED", "COMMITTED", "FAILED",
     "OUTCOME_UNKNOWN", "CANCELLED", "FENCED", "SUPERSEDED"],
    "INVALID_EXECUTION_LIFECYCLE")
  const PROGRAM_LIFECYCLE := Table(
    ["REGISTERED", "VALIDATED", "READY", "REVALIDATION_REQUIRED", "INVALID", "RETIRED"],
    "INVALID_PROGRAM_LIFECYCLE")
  const DECISION := Table(
    ["NEAR_MEMORY_SELECTED", "ALTERNATE_NEAR_MEMORY_SELECTED", "CONVENTIONAL_CPU_SELECTED",
     "CONVENTIONAL_GPU_SELECTED", "MOVEMENT_REQUIRED", "DEFER", "REJECT", "REVALIDATION_REQUIRED"],
    "INVALID_DECISION")
  const RETRY_CLASS := Table(
    ["REPLAY_SAFE", "IDEMPOTENT", "AT_MOST_ONCE_REQUIRED", "NON_RETRYABLE", "UNKNOWN"], "INVALID_RETRY_CLASS")
  const VERIFY_STATE := Table(["UNVERIFIED", "VERIFIED", "MISMATCH", "CORRUPT", "UNKNOWN"], "INVALID_VERIFY_STATE")
  const DATA_TYPE := Table(
    ["U8", "I8", "U16", "I16", "U32", "I32", "U64", "I64", "F32", "F64", "BF16", "F16"], "INVALID_DATATYPE")
  const LAYOUT := Table(
    ["CONTIGUOUS", "STRIDED", "BLOCKED", "COMPRESSED", "SPARSE", "TILED"], "INVALID_LAYOUT")
  const POLICY_OUTCOME := Table(
    ["NEAR_MEMORY_REQUIRED", "NEAR_MEMORY_PREFERRED", "UNCONSTRAINED"], "INVALID_POLICY_OUTCOME")
  const INTEGRITY_STATE := Table(["UNKNOWN", "INTACT", "SUSPECT", "CORRUPT"], "INVALID_INTEGRITY_STATE")
  const INTEGRITY_REQUIREMENT := Table(["NONE", "CHECKED", "STRICT"], "INVALID_INTEGRITY_REQUIREMENT")
  const ACCESS_SEMANTICS := Table(["COHERENT", "NON_COHERENT", "DIRECT", "STAGED"], "INVALID_ACCESS_SEMANTICS")

  /** All tables the durable format prints from. */
  datatype Enums = Enums(
    operationClass: Table, targetKind: Table, providerKind: Table, lifecycle: Table, programLifecycle: Table,
    decision: Table, retryClass: Table, verifyState: Table, dataType: Table, layout: Table,
    policyOutcome: Table, integrityState: Table, integrityRequirement: Table, accessSemantics: Table)

  predicate ApartFrom(t: RawTable, lo: int, hi: int) {
    forall i, j :: 0 <= lo <= i < hi <= |t.names| && i < j < |t.names| ==> t.names[i] != t.names[j]
  }

  lemma OperationClassApart0()
    ensures ApartFrom(OPERATION_CLASS, 0, 2)
  {
  }

  lemma OperationClassApart1()
    ensures ApartFrom(OPERATION_CLASS, 2, 4)
  {
  }

  lemma OperationClassApart2()
    ensures ApartFrom(OPERATION_CLASS, 4, 7)
  {
  }

  lemma OperationClassApart3()
    ensures ApartFrom(OPERATION_CLASS, 7, 11)
  {
  }

  lemma OperationClassApart4()
    ensures ApartFrom(OPERATION_CLASS, 11, 21)
  {
  }

  predicate ShortNames(t: RawTable) {
    forall i :: 0 <= i < |t.names| ==> |t.names[i]| <= 64
  }

  lemma OperationClassShort()
    ensures |OPERATION_CLASS.names| == 21 && ShortNames(OPERATION_CLASS)
  {
  }

  lemma JoinApart(t: RawTable)
    requires |t.names| == 21 && ShortNames(t) && ApartFrom(t, 0, 2) && ApartFrom(t, 2, 4) && ApartFrom(t, 4, 7)
    requires ApartFrom(t, 7, 11) && ApartFrom(t, 11, 21)
    ensures Distinct(t)
  {
  }

  lemma OperationClassDistinct()
    ensures Distinct(OPERATION_CLASS)
  {
    hide ApartFrom, ShortNames, Distinct;
    OperationClassShort();
    OperationClassApart0();
    OperationClassApart1();
    OperationClassApart2();
    OperationClassApart3();
    OperationClassApart4();
    JoinApart(OPERATION_CLASS);
  }

  lemma LifecycleDistinct()
    ensures Distinct(LIFECYCLE)
  {
  }

  lemma DataTypeDistinct()
    ensures Distinct(DATA_TYPE)
  {
  }

  lemma TargetKindDistinct()
    ensures Distinct(TARGET_KIND)
  {
  }

  lemma DecisionDistinct()
    ensures Distinct(DECISION)
  {
  }

  lemma LayoutsDistinct()
    ensures Distinct(LAYOUT)
    ensures Distinct(PROGRAM_LIFECYCLE)
  {
  }

  lemma RetriesDistinct()
    ensures Distinct(RETRY_CLASS)
    ensures Distinct(VERIFY_STATE)
  {
  }

  lemma SmallTablesDistinct()
    ensures Distinct(PROVIDER_KIND)
    ensures Distinct(POLICY_OUTCOME)
    ensures Distinct(INTEGRITY_STATE)
  {
  }

  lemma RequirementsDistinct()
    ensures Distinct(INTEGRITY_REQUIREMENT)
    ensures Distinct(ACCESS_SEMANTICS)
  {
  }

  /** The tables of the runtime; the durable format is proved for any tables without repeated names. */
  function RuntimeEnums(): Enums {
    OperationClassDistinct(); LifecycleDistinct(); DataTypeDistinct(); TargetKindDistinct(); DecisionDistinct();
    LayoutsDistinct(); RetriesDistinct(); SmallTablesDistinct(); RequirementsDistinct();
    Enums(OPERATION_CLASS, TARGET_KIND, PROVIDER_KIND, LIFECYCLE, PROGRAM_LIFECYCLE,
          DECISION, RETRY_CLASS, VERIFY_STATE, DATA_TYPE, LAYOUT,
          POLICY_OUTCOME, INTEGRITY_STATE, INTEGRITY_REQUIREMENT, ACCESS_SEMANTICS)
  }

  /**
   The bytes of a name. Every name is ASCII, one byte a character; other characters, which no table
   holds, take an escaped form so that the encoding is injective on all strings.
   */
  function CharBytes(c: char): bytes {
    var n := c as int;
    if n < 0x80 then [n] else [0xFF, n / 0x10000, n / 0x100 % 0x100, n % 0x100]
  }

  function Text(s: string): (b: bytes)
    ensures |b| <= 4 * |s|
  {
    if s == "" then [] else CharBytes(s[0]) + Text(s[1..])
  }

  lemma ThreeDigits(n: nat)
    ensures n == n / 0x10000 * 0x10000 + n / 0x100 % 0x100 * 0x100 + n % 0x100
  {
    assert n / 0x10000 == n / 0x100 / 0x100;
  }

  lemma CharBytesInjective(c: char, d: char)
    requires CharBytes(c) == CharBytes(d)
    ensures c == d
  {
    assert CharBytes(c)[0] == CharBytes(d)[0];
    if c as int >= 0x80 {
      assert CharBytes(c)[1] == CharBytes(d)[1] && CharBytes(c)[2] == CharBytes(d)[2];
      assert CharBytes(c)[3] == CharBytes(d)[3];
      ThreeDigits(c as int);
      ThreeDigits(d as int);
    }
  }

  lemma {:induction false} TextInjective(s: string, t: string)
    requires Text(s) == Text(t)
    ensures s == t
  {
    if s != "" && t != "" {
      var a, b := CharBytes(s[0]), CharBytes(t[0]);
      assert Text(s)[0] == a[0] && Text(t)[0] == b[0];
      assert |a| == |b|;
      assert Text(s)[..|a|] == a && Text(t)[..|a|] == b;
      CharBytesInjective(s[0], t[0]);
      assert Text(s)[|a|..] == Text(s[1..]) && Text(t)[|a|..] == Text(t[1..]);
      TextInjective(s[1..], t[1..]);
    }
  }

  function NameOf(t: RawTable, code: Code): bytes {
    Text(if code < |t.names| then t.names[code] else t.invalid)
  }

  /** The first code of the table, from `i` on, that prints as `name`. */
  function ParseFrom(t: Table, name: bytes, i: nat): (r: Option<Code>)
    requires i <= |t.names|
    ensures r.Some? ==> i <= r.value < |t.names| && NameOf(t, r.value) == name
    ensures r.None? ==> forall c: Code :: i <= c < |t.names| ==> NameOf(t, c) != name
    decreases |t.names| - i
  {
    if i == |t.names| then None
    else if NameOf(t, i) == name then Some(i)
    else ParseFrom(t, name, i + 1)
  }

  /** The parser's search loop over the canonical table. */
  method ParseName(t: Table, name: bytes) returns (r: Option<Code>)
    ensures r == ParseFrom(t, name, 0)
  {
    for i := 0 to |t.names|
      invariant ParseFrom(t, name, 0) == ParseFrom(t, name, i)
    {
      if NameOf(t, i) == name {
        return Some(i);
      }
    }
    return None;
  }

  /** Printing then parsing returns the code exactly when the code is in the table. */
  lemma ParseInvertsNameOf(t: Table, c: Code)
    ensures ParseFrom(t, NameOf(t, c), 0) == Some(c) <==> c < |t.names|
  {
    var r := ParseFrom(t, NameOf(t, c), 0);
    if c < |t.names| && r.Some? && r.value != c {
      TextInjective(t.names[r.value], t.names[c]);
    }
  }
}

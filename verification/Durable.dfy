/**
 Durable state: nine sections of records in key order. The main result is exact: the bytes of a state
 decode to the state's durable part, with nothing left over, if and only if the state is `Persistable`.
 */
module Durable {
  import opened Types
  import opened Names
  import opened Ordered
  import opened Codec
  import opened Records
  import opened Engine

  const MAX_COUNT: nat := 4096

  // ---- Sections ----

  function Values<V>(m: map<u64, V>, keys: seq<u64>): (vs: seq<V>)
    requires forall k | k in keys :: k in m
    ensures |vs| == |keys| && forall i :: 0 <= i < |keys| ==> vs[i] == m[keys[i]]
  {
    seq(|keys|, i requires 0 <= i < |keys| => m[keys[i]])
  }

  /** The records of a map in key order. */
  function InOrder<V>(m: map<u64, V>): (vs: seq<V>)
    ensures |vs| == |m|
  {
    Values(m, Ascending(m.Keys))
  }

  /** Storing each record under its own identity; a later record replaces an earlier one. */
  function Collect<V>(key: V -> u64, vs: seq<V>): (m: map<u64, V>)
    ensures |m| <= |vs|
    ensures forall k | k in m :: key(m[k]) == k && m[k] in vs
  {
    if vs == [] then map[]
    else
      var last := vs[|vs| - 1];
      var front := Collect(key, vs[..|vs| - 1]);
      assert front.Keys + {key(last)} == front[key(last) := last].Keys;
      front[key(last) := last]
  }

  /** The count is clamped, but every record is written. */
  function PutSection<V>(f: Format<V>, m: map<u64, V>, rest: bytes): bytes {
    PutU64(if |m| > MAX_COUNT then MAX_COUNT else |m|, PutAll(f, InOrder(m), rest))
  }

  function GetSection<V>(f: Format<V>, key: V -> u64, b: bytes): (r: Option<(map<u64, V>, bytes)>)
    ensures r.Some? ==> |r.value.0| <= MAX_COUNT
  {
    var (n, b) :- GetU64(b);
    if n > MAX_COUNT then None
    else
      var (vs, b) :- GetAll(f, n, b);
      Some((Collect(key, vs), b))
  }

  ghost predicate SectionOk<V(!new)>(f: Format<V>, key: V -> u64, m: map<u64, V>) {
    |m| <= MAX_COUNT && forall k | k in m :: key(m[k]) == k && f.ok(m[k])
  }

  lemma CollectSnoc<V>(key: V -> u64, vs: seq<V>, v: V)
    ensures Collect(key, vs + [v]) == Collect(key, vs)[key(v) := v]
  {
    assert (vs + [v])[..|vs|] == vs;
  }

  lemma ValuesSnoc<V>(m: map<u64, V>, keys: seq<u64>, k: u64)
    requires (forall x | x in keys :: x in m) && k in m
    ensures (forall x | x in keys + [k] :: x in m) && Values(m, keys + [k]) == Values(m, keys) + [m[k]]
  {
    assert forall x :: x in keys + [k] <==> x in keys || x == k;
  }

  /** One key at a time: it is in the rebuilt map if it was written, with the record that was written under it. */
  lemma {:induction false} CollectAt<V>(key: V -> u64, m: map<u64, V>, keys: seq<u64>, k: u64)
    requires (forall x | x in keys :: x in m) && forall x | x in m :: key(m[x]) == x
    ensures k in Collect(key, Values(m, keys)) <==> k in keys
    ensures k in keys ==> Collect(key, Values(m, keys))[k] == m[k]
  {
    hide Collect, Values;
    if keys == [] {
      NothingCollected(key, m);
    } else {
      var front, last := keys[..|keys| - 1], keys[|keys| - 1];
      assert keys == front + [last];
      CollectAt(key, m, front, k);
      ValuesSnoc(m, front, last);
      CollectSnoc(key, Values(m, front), m[last]);
    }
  }

  lemma NothingCollected<V>(key: V -> u64, m: map<u64, V>)
    ensures Collect(key, Values(m, [])) == map[]
  {
  }

  lemma CollectInverts<V>(key: V -> u64, m: map<u64, V>)
    requires forall k | k in m :: key(m[k]) == k
    ensures Collect(key, InOrder(m)) == m
  {
    hide Collect, Values, Ascending;
    var keys := Ascending(m.Keys);
    forall k
      ensures k in Collect(key, Values(m, keys)) <==> k in m
      ensures k in m ==> Collect(key, Values(m, keys))[k] == m[k]
    {
      CollectAt(key, m, keys, k);
    }
  }

  lemma InOrderOk<V(!new)>(f: Format<V>, m: map<u64, V>, v: V)
    requires (forall k | k in m :: f.ok(m[k])) && v in InOrder(m)
    ensures f.ok(v)
  {
    var keys := Ascending(m.Keys);
    var i :| 0 <= i < |keys| && InOrder(m)[i] == v;
    assert keys[i] in m;
  }

  lemma OrderedRecordsReturn<V(!new)>(f: Format<V>, m: map<u64, V>, rest: bytes)
    requires Returns(f) && forall k | k in m :: f.ok(m[k])
    ensures GetAll(f, |m|, PutAll(f, InOrder(m), rest)) == Some((InOrder(m), rest))
  {
    forall v | v in InOrder(m) ensures f.ok(v) {
      InOrderOk(f, m, v);
    }
    AllRoundTrip(f, InOrder(m), rest);
  }

  lemma SectionReturns<V(!new)>(f: Format<V>, key: V -> u64, m: map<u64, V>, rest: bytes)
    requires Returns(f) && SectionOk(f, key, m)
    ensures GetSection(f, key, PutSection(f, m, rest)) == Some((m, rest))
  {
    OrderedRecordsReturn(f, m, rest);
    CollectInverts(key, m);
  }

  /** For a lawful format, a section comes back exactly when it is `SectionOk`. */
  lemma SectionExact<V(!new)>(f: Format<V>, key: V -> u64, m: map<u64, V>, rest: bytes)
    requires Lawful(f)
    ensures var r := GetSection(f, key, PutSection(f, m, rest));
            && (SectionOk(f, key, m) ==> r == Some((m, rest)))
            && (r.Some? && r.value.0 == m ==> SectionOk(f, key, m))
  {
    var b := PutSection(f, m, rest);
    if SectionOk(f, key, m) {
      SectionReturns(f, key, m, rest);
    } else if GetSection(f, key, b).Some? {
      var (n, b1) := GetU64(b).value;
      AllOk(f, n, b1);
    }
  }

  // ---- Sections whose format is not lawful ----

  /**
   What holds of a record that may not come back: its identity survives, and it comes back equal only
   if it is `ok`. Operations have this format.
   */
  ghost predicate Keyed<V(!new)>(f: Format<V>, key: V -> u64) {
    && Returns(f)
    && (forall v, rest | f.get(f.put(v, rest)).Some? ::
          var d := f.get(f.put(v, rest)).value.0; key(d) == key(v) && (d == v ==> f.ok(v)))
  }

  lemma GrownByOne<V>(m: map<u64, V>, k: u64, v: V)
    ensures |m[k := v]| == |m| + if k in m then 0 else 1
  {
    assert m[k := v].Keys == m.Keys + {k};
  }

  lemma {:induction false} CollectKeepsAll<V>(key: V -> u64, vs: seq<V>)
    requires |Collect(key, vs)| == |vs|
    ensures forall i :: 0 <= i < |vs| ==> key(vs[i]) in Collect(key, vs) && Collect(key, vs)[key(vs[i])] == vs[i]
  {
    hide Collect;
    if vs != [] {
      var last, rest := vs[|vs| - 1], vs[..|vs| - 1];
      assert vs == rest + [last];
      CollectSnoc(key, rest, last);
      GrownByOne(Collect(key, rest), key(last), last);
      CollectKeepsAll(key, rest);
    }
  }

  /** If every decoded record that has the right identity is the right record, all records were `ok`. */
  lemma {:induction false} RecordsInStep<V(!new)>(
    f: Format<V>, key: V -> u64, vs: seq<V>, rest: bytes, ds: seq<V>)
    requires Keyed(f, key)
    requires var r := GetAll(f, |vs|, PutAll(f, vs, rest)); r.Some? && r.value.0 == ds
    requires forall i :: 0 <= i < |vs| && key(ds[i]) == key(vs[i]) ==> ds[i] == vs[i]
    ensures forall v | v in vs :: f.ok(v)
  {
    if vs != [] {
      var tail := PutAll(f, vs[1..], rest);
      var (d, b1) := f.get(f.put(vs[0], tail)).value;
      var (ds1, b2) := GetAll(f, |vs| - 1, b1).value;
      assert ds == [d] + ds1;
      assert key(ds[0]) == key(vs[0]);
      assert f.ok(vs[0]);
      assert b1 == tail;
      RecordsInStep(f, key, vs[1..], rest, ds1);
    }
  }

  lemma KeyedForced<V(!new)>(f: Format<V>, key: V -> u64, m: map<u64, V>, rest: bytes)
    requires Keyed(f, key)
    requires var r := GetSection(f, key, PutSection(f, m, rest)); r.Some? && r.value.0 == m
    ensures SectionOk(f, key, m)
  {
    var vs, keys := InOrder(m), Ascending(m.Keys);
    var (ds, b1) := GetAll(f, |m|, PutAll(f, vs, rest)).value;
    assert Collect(key, ds) == m;
    CollectKeepsAll(key, ds);
    forall i | 0 <= i < |vs| && key(ds[i]) == key(vs[i]) ensures ds[i] == vs[i] {
      assert keys[i] in m && vs[i] == m[keys[i]];
      assert key(ds[i]) in m && m[key(ds[i])] == ds[i];
    }
    RecordsInStep(f, key, vs, rest, ds);
    forall k | k in m ensures f.ok(m[k]) {
      var i :| 0 <= i < |keys| && keys[i] == k;
      assert vs[i] in vs;
    }
  }

  lemma KeyedExact<V(!new)>(f: Format<V>, key: V -> u64, m: map<u64, V>, rest: bytes)
    requires Keyed(f, key)
    ensures var r := GetSection(f, key, PutSection(f, m, rest));
            && (SectionOk(f, key, m) ==> r == Some((m, rest)))
            && (r.Some? && r.value.0 == m ==> SectionOk(f, key, m))
  {
    var r := GetSection(f, key, PutSection(f, m, rest));
    if SectionOk(f, key, m) {
      SectionReturns(f, key, m, rest);
    } else if r.Some? && r.value.0 == m {
      KeyedForced(f, key, m, rest);
    }
  }

  // ---- The nine formats ----

  function DomainFormat(): Format<MemoryDomain> {
    Format(PutDomain, GetDomain, DomainOk)
  }

  function DatasetFormat(): Format<Dataset> {
    Format(PutDataset, GetDataset, DatasetOk)
  }

  function RegionFormat(e: Enums): Format<Region> {
    Format((v: Region, r: bytes) => PutRegion(e, v, r), (b: bytes) => GetRegion(e, b), (v: Region) => RegionOk(e, v))
  }

  function ProgramFormat(e: Enums): Format<Program> {
    Format((v: Program, r: bytes) => PutProgram(e, v, r), (b: bytes) => GetProgram(e, b),
           (v: Program) => ProgramOk(e, v))
  }

  function PolicyFormat(e: Enums): Format<Policy> {
    Format((v: Policy, r: bytes) => PutPolicy(e, v, r), (b: bytes) => GetPolicy(e, b), (v: Policy) => PolicyOk(e, v))
  }

  function OperationFormat(e: Enums): Format<Operation> {
    Format((v: Operation, r: bytes) => PutOperation(e, v, r), (b: bytes) => GetOperation(e, b),
           (v: Operation) => OperationOk(e, v))
  }

  function TargetFormat(e: Enums): Format<Target> {
    Format((v: Target, r: bytes) => PutTarget(e, v, r), (b: bytes) => GetTarget(e, b), (v: Target) => TargetOk(e, v))
  }

  function PlanFormat(e: Enums): Format<Plan> {
    Format((v: Plan, r: bytes) => PutPlan(e, v, r), (b: bytes) => GetPlan(e, b), (v: Plan) => PlanOk(e, v))
  }

  function ResultFormat(e: Enums): Format<ExecResult> {
    Format((v: ExecResult, r: bytes) => PutResult(e, v, r), (b: bytes) => GetResult(e, b),
           (v: ExecResult) => ResultOk(e, v))
  }

  function DomainId(v: MemoryDomain): u64 {
    v.id
  }

  function DatasetId(v: Dataset): u64 {
    v.id
  }

  function RegionId(v: Region): u64 {
    v.id
  }

  function ProgramId(v: Program): u64 {
    v.id
  }

  function PolicyId(v: Policy): u64 {
    v.id
  }

  function OperationId(v: Operation): u64 {
    v.id
  }

  function TargetId(v: Target): u64 {
    v.id
  }

  function PlanId(v: Plan): u64 {
    v.id
  }

  function ResultId(v: ExecResult): u64 {
    v.id
  }

  lemma OperationFormatKeyed(e: Enums)
    ensures Keyed(OperationFormat(e), OperationId)
  {
    var f := OperationFormat(e);
    forall v, rest | f.ok(v) ensures f.get(f.put(v, rest)) == Some((v, rest)) {
      OperationReturns(e, v, rest);
    }
    forall v, rest | f.get(f.put(v, rest)).Some?
      ensures var d := f.get(f.put(v, rest)).value.0; d.id == v.id && (d == v ==> f.ok(v))
    {
      OperationForced(e, v, rest);
    }
  }

  // ---- Sequencing parsers ----

  type Parser<!T> = bytes -> Option<(T, bytes)>

  function Then<A, B>(x: Parser<A>, y: Parser<B>): Parser<(A, B)> {
    (b: bytes) =>
      match x(b) {
        case None => None
        case Some((a, b1)) =>
          match y(b1) {
            case None => None
            case Some((c, b2)) => Some(((a, c), b2))
          }
      }
  }

  /** On `b`, the parser gives back exactly `v` and `rest` when `ok`, and never `v` otherwise. */
  ghost predicate ExactOn<T>(x: Parser<T>, b: bytes, v: T, rest: bytes, ok: bool) {
    && (ok ==> x(b) == Some((v, rest)))
    && (x(b).Some? && x(b).value.0 == v ==> ok)
  }

  lemma ThenExact<A, B>(x: Parser<A>, y: Parser<B>, b: bytes, v: A, b1: bytes, w: B, b2: bytes, okV: bool, okW: bool)
    requires ExactOn(x, b, v, b1, okV) && ExactOn(y, b1, w, b2, okW)
    ensures ExactOn(Then(x, y), b, (v, w), b2, okV && okW)
  {
  }

  function Section<V>(f: Format<V>, key: V -> u64): Parser<map<u64, V>> {
    (b: bytes) => GetSection(f, key, b)
  }

  lemma LawfulSection<V(!new)>(f: Format<V>, key: V -> u64, m: map<u64, V>, rest: bytes)
    requires Lawful(f)
    ensures ExactOn(Section(f, key), PutSection(f, m, rest), m, rest,
                    SectionOk(f, key, m))
  {
    SectionExact(f, key, m, rest);
  }

  lemma KeyedSection<V(!new)>(f: Format<V>, key: V -> u64, m: map<u64, V>, rest: bytes)
    requires Keyed(f, key)
    ensures ExactOn(Section(f, key), PutSection(f, m, rest), m, rest,
                    SectionOk(f, key, m))
  {
    KeyedExact(f, key, m, rest);
  }

  // ---- The state ----

  type Catalog = (map<Id, MemoryDomain>, (map<Id, Dataset>, (map<Id, Region>, (map<Id, Program>, map<Id, Policy>))))
  type Work = (map<Id, Operation>, (map<Id, Target>, (map<Id, Plan>, map<Id, ExecResult>)))
  type Header = (Id, Gen)

  function CatalogOf(s: State): Catalog {
    (s.domains, (s.datasets, (s.regions, (s.programs, s.policies))))
  }

  function WorkOf(s: State): Work {
    (s.operations, (s.targets, (s.plans, s.results)))
  }

  function Restored(h: Header, c: Catalog, w: Work): State {
    var (domains, (datasets, (regions, (programs, policies)))) := c;
    var (operations, (targets, (plans, results))) := w;
    State(h.0, h.1, domains, datasets, regions, map[], targets, map[], map[], operations, programs,
          policies, plans, map[], results, map[], map[])
  }

  function PutCatalog(e: Enums, c: Catalog, rest: bytes): bytes {
    PutSection(DomainFormat(), c.0, PutSection(DatasetFormat(), c.1.0,
      PutSection(RegionFormat(e), c.1.1.0, PutSection(ProgramFormat(e), c.1.1.1.0,
      PutSection(PolicyFormat(e), c.1.1.1.1, rest)))))
  }

  function CatalogParser(e: Enums): Parser<Catalog> {
    Then(Section(DomainFormat(), DomainId), Then(Section(DatasetFormat(), DatasetId),
      Then(Section(RegionFormat(e), RegionId), Then(Section(ProgramFormat(e), ProgramId),
      Section(PolicyFormat(e), PolicyId)))))
  }

  function PutWork(e: Enums, w: Work, rest: bytes): bytes {
    PutSection(OperationFormat(e), w.0, PutSection(TargetFormat(e), w.1.0,
      PutSection(PlanFormat(e), w.1.1.0, PutSection(ResultFormat(e), w.1.1.1, rest))))
  }

  function WorkParser(e: Enums): Parser<Work> {
    Then(Section(OperationFormat(e), OperationId), Then(Section(TargetFormat(e), TargetId),
      Then(Section(PlanFormat(e), PlanId), Section(ResultFormat(e), ResultId))))
  }

  ghost predicate CatalogOk(e: Enums, c: Catalog) {
    && SectionOk(DomainFormat(), DomainId, c.0) && SectionOk(DatasetFormat(), DatasetId, c.1.0)
    && SectionOk(RegionFormat(e), RegionId, c.1.1.0) && SectionOk(ProgramFormat(e), ProgramId, c.1.1.1.0)
    && SectionOk(PolicyFormat(e), PolicyId, c.1.1.1.1)
  }

  ghost predicate WorkOk(e: Enums, w: Work) {
    && SectionOk(OperationFormat(e), OperationId, w.0) && SectionOk(TargetFormat(e), TargetId, w.1.0)
    && SectionOk(PlanFormat(e), PlanId, w.1.1.0) && SectionOk(ResultFormat(e), ResultId, w.1.1.1)
  }

  lemma DomainSection(m: map<Id, MemoryDomain>, rest: bytes)
    ensures ExactOn(Section(DomainFormat(), DomainId), PutSection(DomainFormat(), m, rest), m, rest,
                    SectionOk(DomainFormat(), DomainId, m))
  {
    LawfulSection(DomainFormat(), DomainId, m, rest);
  }

  lemma DatasetSection(m: map<Id, Dataset>, rest: bytes)
    ensures ExactOn(Section(DatasetFormat(), DatasetId), PutSection(DatasetFormat(), m, rest), m, rest,
                    SectionOk(DatasetFormat(), DatasetId, m))
  {
    LawfulSection(DatasetFormat(), DatasetId, m, rest);
  }

  lemma RegionSection(e: Enums, m: map<Id, Region>, rest: bytes)
    ensures ExactOn(Section(RegionFormat(e), RegionId), PutSection(RegionFormat(e), m, rest), m, rest,
                    SectionOk(RegionFormat(e), RegionId, m))
  {
    LawfulSection(RegionFormat(e), RegionId, m, rest);
  }

  lemma ProgramSection(e: Enums, m: map<Id, Program>, rest: bytes)
    ensures ExactOn(Section(ProgramFormat(e), ProgramId), PutSection(ProgramFormat(e), m, rest), m, rest,
                    SectionOk(ProgramFormat(e), ProgramId, m))
  {
    LawfulSection(ProgramFormat(e), ProgramId, m, rest);
  }

  lemma PolicySection(e: Enums, m: map<Id, Policy>, rest: bytes)
    ensures ExactOn(Section(PolicyFormat(e), PolicyId), PutSection(PolicyFormat(e), m, rest), m, rest,
                    SectionOk(PolicyFormat(e), PolicyId, m))
  {
    LawfulSection(PolicyFormat(e), PolicyId, m, rest);
  }

  lemma OperationSection(e: Enums, m: map<Id, Operation>, rest: bytes)
    ensures ExactOn(Section(OperationFormat(e), OperationId), PutSection(OperationFormat(e), m, rest), m, rest,
                    SectionOk(OperationFormat(e), OperationId, m))
  {
    OperationFormatKeyed(e);
    KeyedSection(OperationFormat(e), OperationId, m, rest);
  }

  lemma TargetSection(e: Enums, m: map<Id, Target>, rest: bytes)
    ensures ExactOn(Section(TargetFormat(e), TargetId), PutSection(TargetFormat(e), m, rest), m, rest,
                    SectionOk(TargetFormat(e), TargetId, m))
  {
    LawfulSection(TargetFormat(e), TargetId, m, rest);
  }

  lemma PlanSection(e: Enums, m: map<Id, Plan>, rest: bytes)
    ensures ExactOn(Section(PlanFormat(e), PlanId), PutSection(PlanFormat(e), m, rest), m, rest,
                    SectionOk(PlanFormat(e), PlanId, m))
  {
    LawfulSection(PlanFormat(e), PlanId, m, rest);
  }

  lemma ResultSection(e: Enums, m: map<Id, ExecResult>, rest: bytes)
    ensures ExactOn(Section(ResultFormat(e), ResultId), PutSection(ResultFormat(e), m, rest), m, rest,
                    SectionOk(ResultFormat(e), ResultId, m))
  {
    LawfulSection(ResultFormat(e), ResultId, m, rest);
  }

  lemma ThreeExact<A, B, C>(
    xa: Parser<A>, xb: Parser<B>, xc: Parser<C>, b0: bytes, b1: bytes, b2: bytes, b3: bytes,
    a: A, b: B, c: C, ok: (bool, bool, bool))
    requires ExactOn(xa, b0, a, b1, ok.0) && ExactOn(xb, b1, b, b2, ok.1) && ExactOn(xc, b2, c, b3, ok.2)
    ensures ExactOn(Then(xa, Then(xb, xc)), b0, (a, (b, c)), b3, ok.0 && ok.1 && ok.2)
  {
    ThenExact(xb, xc, b1, b, b2, c, b3, ok.1, ok.2);
    ThenExact(xa, Then(xb, xc), b0, a, b1, (b, c), b3, ok.0, ok.1 && ok.2);
  }

  lemma DefinitionsExact(e: Enums, regions: map<Id, Region>, programs: map<Id, Program>, policies: map<Id, Policy>,
                         rest: bytes)
    ensures ExactOn(
      Then(Section(RegionFormat(e), RegionId),
           Then(Section(ProgramFormat(e), ProgramId), Section(PolicyFormat(e), PolicyId))),
      PutSection(RegionFormat(e), regions,
                 PutSection(ProgramFormat(e), programs, PutSection(PolicyFormat(e), policies, rest))),
      (regions, (programs, policies)), rest,
      && SectionOk(RegionFormat(e), RegionId, regions) && SectionOk(ProgramFormat(e), ProgramId, programs)
      && SectionOk(PolicyFormat(e), PolicyId, policies))
  {
    hide ExactOn, Then, Section, PutSection, SectionOk;
    var b2 := PutSection(PolicyFormat(e), policies, rest);
    var b1 := PutSection(ProgramFormat(e), programs, b2);
    RegionSection(e, regions, b1);
    ProgramSection(e, programs, b2);
    PolicySection(e, policies, rest);
    ThreeExact(
      Section(RegionFormat(e), RegionId), Section(ProgramFormat(e), ProgramId), Section(PolicyFormat(e), PolicyId),
      PutSection(RegionFormat(e), regions, b1), b1, b2, rest, regions, programs, policies,
      (SectionOk(RegionFormat(e), RegionId, regions), SectionOk(ProgramFormat(e), ProgramId, programs),
       SectionOk(PolicyFormat(e), PolicyId, policies)));
  }

  lemma CatalogExact(e: Enums, c: Catalog, rest: bytes)
    ensures ExactOn(CatalogParser(e), PutCatalog(e, c, rest), c, rest, CatalogOk(e, c))
  {
    hide ExactOn, Then, Section, PutSection, SectionOk;
    var definitions :=
      Then(Section(RegionFormat(e), RegionId),
           Then(Section(ProgramFormat(e), ProgramId), Section(PolicyFormat(e), PolicyId)));
    var b2 := PutSection(RegionFormat(e), c.1.1.0,
      PutSection(ProgramFormat(e), c.1.1.1.0, PutSection(PolicyFormat(e), c.1.1.1.1, rest)));
    var b1 := PutSection(DatasetFormat(), c.1.0, b2);
    DomainSection(c.0, b1);
    DatasetSection(c.1.0, b2);
    DefinitionsExact(e, c.1.1.0, c.1.1.1.0, c.1.1.1.1, rest);
    ThreeExact(
      Section(DomainFormat(), DomainId), Section(DatasetFormat(), DatasetId), definitions,
      PutSection(DomainFormat(), c.0, b1), b1, b2, rest, c.0, c.1.0, c.1.1,
      (SectionOk(DomainFormat(), DomainId, c.0), SectionOk(DatasetFormat(), DatasetId, c.1.0),
       && SectionOk(RegionFormat(e), RegionId, c.1.1.0) && SectionOk(ProgramFormat(e), ProgramId, c.1.1.1.0)
       && SectionOk(PolicyFormat(e), PolicyId, c.1.1.1.1)));
  }

  lemma HistoryExact(e: Enums, targets: map<Id, Target>, plans: map<Id, Plan>, results: map<Id, ExecResult>,
                     rest: bytes)
    ensures ExactOn(
      Then(Section(TargetFormat(e), TargetId),
           Then(Section(PlanFormat(e), PlanId), Section(ResultFormat(e), ResultId))),
      PutSection(TargetFormat(e), targets,
                 PutSection(PlanFormat(e), plans, PutSection(ResultFormat(e), results, rest))),
      (targets, (plans, results)), rest,
      && SectionOk(TargetFormat(e), TargetId, targets) && SectionOk(PlanFormat(e), PlanId, plans)
      && SectionOk(ResultFormat(e), ResultId, results))
  {
    hide ExactOn, Then, Section, PutSection, SectionOk;
    var b2 := PutSection(ResultFormat(e), results, rest);
    var b1 := PutSection(PlanFormat(e), plans, b2);
    TargetSection(e, targets, b1);
    PlanSection(e, plans, b2);
    ResultSection(e, results, rest);
    ThreeExact(
      Section(TargetFormat(e), TargetId), Section(PlanFormat(e), PlanId), Section(ResultFormat(e), ResultId),
      PutSection(TargetFormat(e), targets, b1), b1, b2, rest, targets, plans, results,
      (SectionOk(TargetFormat(e), TargetId, targets), SectionOk(PlanFormat(e), PlanId, plans),
       SectionOk(ResultFormat(e), ResultId, results)));
  }

  lemma WorkExact(e: Enums, w: Work, rest: bytes)
    ensures ExactOn(WorkParser(e), PutWork(e, w, rest), w, rest, WorkOk(e, w))
  {
    hide ExactOn, Then, Section, PutSection, SectionOk;
    var history :=
      Then(Section(TargetFormat(e), TargetId),
           Then(Section(PlanFormat(e), PlanId), Section(ResultFormat(e), ResultId)));
    var b1 := PutSection(TargetFormat(e), w.1.0,
      PutSection(PlanFormat(e), w.1.1.0, PutSection(ResultFormat(e), w.1.1.1, rest)));
    OperationSection(e, w.0, b1);
    HistoryExact(e, w.1.0, w.1.1.0, w.1.1.1, rest);
    ThenExact(
      Section(OperationFormat(e), OperationId), history, PutSection(OperationFormat(e), w.0, b1), w.0, b1, w.1, rest,
      SectionOk(OperationFormat(e), OperationId, w.0),
      && SectionOk(TargetFormat(e), TargetId, w.1.0) && SectionOk(PlanFormat(e), PlanId, w.1.1.0)
      && SectionOk(ResultFormat(e), ResultId, w.1.1.1));
  }

  function GetEpoch(b: bytes): Option<(Gen, bytes)> {
    var (epoch, b) :- GetU64(b);
    if epoch == 0 then None else Some((epoch, b))
  }

  function StateParser(e: Enums): Parser<(Header, (Catalog, Work))> {
    Then(Then(GetU64, GetEpoch), Then(CatalogParser(e), WorkParser(e)))
  }

  function Encode(e: Enums, s: State): bytes {
    PutU64(s.coordinatorId, PutU64(s.epoch, PutCatalog(e, CatalogOf(s), PutWork(e, WorkOf(s), []))))
  }

  function Restore(x: Parser<(Header, (Catalog, Work))>, b: bytes): Option<(State, bytes)> {
    match x(b)
    case None => None
    case Some(((header, (catalog, work)), rest)) => Some((Restored(header, catalog, work), rest))
  }

  function Decode(e: Enums, b: bytes): Option<(State, bytes)> {
    Restore(StateParser(e), b)
  }

  /**
   The states that survive a save and a load: every record is within the format's limits and stored under
   its own identity, every section has at most 4096 records, and the epoch is not null.
   */
  ghost predicate Persistable(e: Enums, s: State) {
    s.epoch != 0 && CatalogOk(e, CatalogOf(s)) && WorkOk(e, WorkOf(Project(s)))
  }

  lemma HeaderExact(id: Id, epoch: Gen, rest: bytes)
    ensures ExactOn(Then(GetU64, GetEpoch), PutU64(id, PutU64(epoch, rest)), (id, epoch), rest, epoch != 0)
  {
    assert ExactOn(GetU64, PutU64(id, PutU64(epoch, rest)), id, PutU64(epoch, rest), true);
    assert ExactOn(GetEpoch, PutU64(epoch, rest), epoch, rest, epoch != 0);
    ThenExact(GetU64, GetEpoch, PutU64(id, PutU64(epoch, rest)), id, PutU64(epoch, rest), epoch, rest, true,
              epoch != 0);
  }

  lemma PartsExact(e: Enums, h: Header, c: Catalog, w: Work)
    ensures ExactOn(StateParser(e), PutU64(h.0, PutU64(h.1, PutCatalog(e, c, PutWork(e, w, [])))), (h, (c, w)), [],
                    h.1 != 0 && CatalogOk(e, c) && WorkOk(e, w))
  {
    hide ExactOn, Then, PutCatalog, PutWork, CatalogParser, WorkParser, CatalogOk, WorkOk;
    var b2 := PutWork(e, w, []);
    var b1 := PutCatalog(e, c, b2);
    HeaderExact(h.0, h.1, b1);
    CatalogExact(e, c, b2);
    WorkExact(e, w, []);
    ThreeExact(Then(GetU64, GetEpoch), CatalogParser(e), WorkParser(e), PutU64(h.0, PutU64(h.1, b1)), b1, b2, [],
               h, c, w, (h.1 != 0, CatalogOk(e, c), WorkOk(e, w)));
  }

  // ---- Only what a save keeps is printed ----

  lemma DurableFormsPrintAlike(e: Enums, v: Operation, p: Plan, rest: bytes)
    ensures PutOperation(e, DurableOperation(v), rest) == PutOperation(e, v, rest)
    ensures PutPlan(e, DurablePlan(p), rest) == PutPlan(e, p, rest)
  {
    assert HeadOf(DurableOperation(v)) == HeadOf(v) && MiddleOf(DurableOperation(v)) == MiddleOf(v);
    assert PutTail(TailOf(DurableOperation(v)), rest) == PutTail(TailOf(v), rest);
    assert PlanFrontOf(DurablePlan(p)) == PlanFrontOf(p) && PlanBackOf(DurablePlan(p)) == PlanBackOf(p);
  }

  ghost predicate PrintAlike<V>(f: Format<V>, m: map<u64, V>, n: map<u64, V>) {
    m.Keys == n.Keys && forall k, r | k in m :: f.put(m[k], r) == f.put(n[k], r)
  }

  lemma {:induction false} SamePrinting<V>(f: Format<V>, m: map<u64, V>, n: map<u64, V>, keys: seq<u64>, rest: bytes)
    requires PrintAlike(f, m, n) && forall k | k in keys :: k in m
    ensures PutAll(f, Values(m, keys), rest) == PutAll(f, Values(n, keys), rest)
  {
    if keys != [] {
      SamePrinting(f, m, n, keys[1..], rest);
      assert Values(m, keys)[1..] == Values(m, keys[1..]) && Values(n, keys)[1..] == Values(n, keys[1..]);
    }
  }

  lemma SameSection<V>(f: Format<V>, m: map<u64, V>, n: map<u64, V>, rest: bytes)
    requires PrintAlike(f, m, n)
    ensures PutSection(f, m, rest) == PutSection(f, n, rest)
  {
    assert |m| == |m.Keys| == |n|;
    SamePrinting(f, m, n, Ascending(m.Keys), rest);
  }

  lemma ProjectionPrintsAlike(e: Enums, s: State)
    ensures PrintAlike(OperationFormat(e), s.operations, Project(s).operations)
    ensures PrintAlike(PlanFormat(e), s.plans, Project(s).plans)
  {
    forall k, r: bytes | k in s.operations
      ensures PutOperation(e, DurableOperation(s.operations[k]), r) == PutOperation(e, s.operations[k], r)
    {
      var p: Plan :| true;
      DurableFormsPrintAlike(e, s.operations[k], p, r);
    }
    forall k, r: bytes | k in s.plans
      ensures PutPlan(e, DurablePlan(s.plans[k]), r) == PutPlan(e, s.plans[k], r)
    {
      var v: Operation :| true;
      DurableFormsPrintAlike(e, v, s.plans[k], r);
    }
  }

  lemma EncodeProjects(e: Enums, s: State)
    ensures PutWork(e, WorkOf(Project(s)), []) == PutWork(e, WorkOf(s), [])
  {
    hide PutSection, PrintAlike;
    var p := Project(s);
    ProjectionPrintsAlike(e, s);
    var results := PutSection(ResultFormat(e), s.results, []);
    SameSection(PlanFormat(e), s.plans, p.plans, results);
    SameSection(OperationFormat(e), s.operations, p.operations,
                PutSection(TargetFormat(e), s.targets, PutSection(PlanFormat(e), s.plans, results)));
  }

  lemma PartsOfRestored(h: Header, c: Catalog, w: Work)
    ensures var s := Restored(h, c, w); h == (s.coordinatorId, s.epoch) && c == CatalogOf(s) && w == WorkOf(s)
  {
    var (id, epoch) := h;
    var (domains, (datasets, (regions, (programs, policies)))) := c;
    var (operations, (targets, (plans, results))) := w;
  }

  lemma RestoredInjective(h: Header, c: Catalog, w: Work, h1: Header, c1: Catalog, w1: Work)
    requires Restored(h, c, w) == Restored(h1, c1, w1)
    ensures h == h1 && c == c1 && w == w1
  {
    PartsOfRestored(h, c, w);
    PartsOfRestored(h1, c1, w1);
  }

  lemma RestoreExact(x: Parser<(Header, (Catalog, Work))>, b: bytes, h: Header, c: Catalog, w: Work, ok: bool)
    requires ExactOn(x, b, (h, (c, w)), [], ok)
    ensures Restore(x, b) == Some((Restored(h, c, w), [])) <==> ok
  {
    if x(b).Some? {
      var ((h1, (c1, w1)), rest) := x(b).value;
      if Restored(h1, c1, w1) == Restored(h, c, w) {
        RestoredInjective(h1, c1, w1, h, c, w);
      }
    }
  }

  lemma ProjectionIsRestored(s: State)
    ensures Project(s) == Restored((s.coordinatorId, s.epoch), CatalogOf(s), WorkOf(Project(s)))
  {
  }

  lemma ProjectionExact(e: Enums, s: State, c: Catalog, w: Work)
    requires c == CatalogOf(s) && w == WorkOf(Project(s))
    ensures ExactOn(StateParser(e), Encode(e, s), ((s.coordinatorId, s.epoch), (c, w)), [],
                    s.epoch != 0 && CatalogOk(e, c) && WorkOk(e, w))
  {
    hide ExactOn, PutCatalog, PutWork, CatalogOk, WorkOk, StateParser, Project;
    EncodeProjects(e, s);
    PartsExact(e, (s.coordinatorId, s.epoch), c, w);
  }

  /** The exact round trip of durable state. */
  lemma StateRoundTrip(e: Enums, s: State)
    ensures Decode(e, Encode(e, s)) == Some((Project(s), [])) <==> Persistable(e, s)
  {
    hide ExactOn, Encode, CatalogOk, WorkOk, StateParser, Restore, Restored, Project;
    var h, c, w := (s.coordinatorId, s.epoch), CatalogOf(s), WorkOf(Project(s));
    ProjectionExact(e, s, c, w);
    RestoreExact(StateParser(e), Encode(e, s), h, c, w, h.1 != 0 && CatalogOk(e, c) && WorkOk(e, w));
    ProjectionIsRestored(s);
  }

  lemma BoundProgramNotPersistable(e: Enums, s: State, o: Id)
    requires o in s.operations && s.operations[o].program.Some?
    requires s.operations[o].program.value != |s.operations[o].description|
    ensures !Persistable(e, s)
  {
    var v := DurableOperation(s.operations[o]);
    assert Project(s).operations[o] == v;
    assert !TailOk(TailOf(v));
    assert !OperationFormat(e).ok(v);
  }

  /** A bound program whose id is not the length of the description is always lost. */
  lemma BoundProgramIsLost(e: Enums, s: State, o: Id)
    requires o in s.operations && s.operations[o].program.Some?
    requires s.operations[o].program.value != |s.operations[o].description|
    ensures Decode(e, Encode(e, s)) != Some((Project(s), []))
  {
    hide Encode, Decode, Persistable;
    BoundProgramNotPersistable(e, s, o);
    StateRoundTrip(e, s);
  }
}

/**
 Resource demand: normalising a resource spec, counting the Pods of a topology, and scaling the spec by
 that count. Quantities are parsed and printed by the Kubernetes library, of which only the laws of its
 codec are assumed.
 */
module Demand {
  import opened Text

  const MAX_INT32 := 0x7fff_ffff
  const MAX_INT64 := 0x7fff_ffff_ffff_ffff

  // ---- Pod counts ----

  datatype Mode = Default | Deployment | LeaderWorkerSet | OtherMode(name: string)

  predicate Int32(x: int) {
    -MAX_INT32 - 1 <= x <= MAX_INT32
  }

  /** The GPU-bearing Pods of a topology. */
  function TotalPods(replicas: int, mode: Mode, workers: int): Option<int> {
    if replicas < 1 then None
    else
      match mode
      case OtherMode(_) => None
      case LeaderWorkerSet =>
        if workers < 1 || replicas * (workers + 1) > MAX_INT32 then None else Some(replicas * (workers + 1))
      case _ => if workers > 1 || workers < 0 then None else Some(replicas)
  }

  /** The unit count of the aggregate, in 64-bit arithmetic. */
  function Units(replicas: int, mode: Mode, workers: int): Option<int> {
    if replicas < 1 then None
    else
      match mode
      case OtherMode(_) => None
      case LeaderWorkerSet => if workers < 1 then None else Some(replicas * (workers + 1))
      case _ => if workers > 1 || workers < 0 then None else Some(replicas)
  }

  /** The two counts agree and never overflow; only a count beyond 32 bits is refused by one and not the other. */
  lemma UnitsArePods(replicas: int, mode: Mode, workers: int)
    requires Int32(replicas) && Int32(workers)
    ensures Units(replicas, mode, workers).Some? ==> 1 <= Units(replicas, mode, workers).value <= 0x7fff_ffff_ffff_ffff
    ensures var units := Units(replicas, mode, workers);
            TotalPods(replicas, mode, workers) == if units.Some? && units.value <= 0x7fff_ffff then units else None
  {
    if mode.LeaderWorkerSet? && replicas >= 1 && workers >= 1 {
      assert replicas * (workers + 1) <= MAX_INT32 * (MAX_INT32 + 1) by {
        MulUpTo(replicas, workers + 1, MAX_INT32, MAX_INT32 + 1);
      }
    }
  }

  lemma MulUpTo(a: nat, b: nat, x: nat, y: nat)
    requires a <= x && b <= y
    ensures a * b <= x * y
  {
    assert a * b <= a * y <= x * y;
  }

  // ---- Quantities ----

  /** An amount, and the suffix family it was written in. */
  datatype Quantity = Quantity(amount: int, format: nat)

  /** The library: parsing, canonical printing, and which products are exact. */
  datatype Codec = Codec(parse: string -> Option<Quantity>, render: Quantity -> string, exact: (Quantity, int) -> bool, known: Quantity -> bool)

  function Times(q: Quantity, n: int): Quantity {
    q.(amount := q.amount * n)
  }

  /**
   What is parsed or multiplied exactly can be printed, and a printed quantity is read back with the same
   amount and prints the same; the suffix family may change where the print shows none.
   */
  ghost predicate Lawful(c: Codec) {
    && (forall s :: c.parse(s).Some? ==> c.known(c.parse(s).value))
    && (forall q, n :: c.known(q) && c.exact(q, n) ==> c.known(Times(q, n)))
    && (forall q :: c.known(q) ==> ReadsBack(c, q))
  }

  ghost predicate ReadsBack(c: Codec, q: Quantity) {
    var s := c.render(q);
    && s != "" && Trim(s) == s
    && c.parse(s).Some? && c.parse(s).value.amount == q.amount && c.render(c.parse(s).value) == s
  }

  /** Writes a natural number as one stroke more than its value. */
  function Strokes(n: nat): (s: string)
    ensures |s| == n + 1 && forall i :: 0 <= i < |s| ==> s[i] == 'i'
  {
    seq(n + 1, _ => 'i')
  }

  predicate AreStrokes(s: string) {
    s != "" && s == Strokes(|s| - 1)
  }

  function Tally(): Codec {
    Codec((s: string) => if AreStrokes(s) then Some(Quantity(|s| - 1, 0)) else None,
          (q: Quantity) => if q.amount >= 0 then Strokes(q.amount) else "",
          (q: Quantity, n: int) => n >= 0,
          (q: Quantity) => q.amount >= 0 && q.format == 0)
  }

  /** The laws are consistent: counting strokes obeys them. */
  lemma TallyIsLawful()
    ensures Lawful(Tally())
  {
    var c := Tally();
    forall q, n | c.known(q) && c.exact(q, n) ensures c.known(Times(q, n)) {
      assert q.amount * n >= 0;
    }
    forall q | c.known(q) ensures ReadsBack(c, q) {
      var s := Strokes(q.amount);
      assert c.render(q) == s && !IsSpace(s[0]) && !IsSpace(s[|s| - 1]);
      assert AreStrokes(s);
    }
  }

  function ParseQuantity(c: Codec, raw: string): Option<Quantity> {
    var s := Trim(raw);
    if s == "" then None
    else
      match c.parse(s)
      case None => None
      case Some(q) => if q.amount < 0 then None else Some(q)
  }

  /** A value in canonical form, as a quantity. */
  ghost predicate Prints(c: Codec, value: string, q: Quantity) {
    c.known(q) && q.amount >= 0 && value == c.render(q)
  }

  lemma PrintedParses(c: Codec, value: string, q: Quantity)
    requires Lawful(c) && Prints(c, value, q)
    ensures c.parse(value).Some? && ParseQuantity(c, value) == c.parse(value)
    ensures c.parse(value).value.amount == q.amount && Prints(c, value, c.parse(value).value)
  {
    assert ReadsBack(c, q);
  }

  // ---- Normalising ----

  /** A resource spec; `gpu` says whether there is a GPU request and whether that is valid. */
  datatype Spec = Spec(requests: map<string, string>, limits: map<string, string>, gpu: Option<bool>)

  const KUBERNETES := "kubernetes.io/"

  predicate IsExtended(name: string) {
    '/' in name && !(KUBERNETES <= name)
  }

  /** The effective request: an extended resource that is only limited requests its limit. */
  function Request(c: Codec, spec: Spec, name: string): Option<Quantity> {
    if name in spec.requests then ParseQuantity(c, spec.requests[name])
    else if IsExtended(name) then Limit(c, spec, name) else None
  }

  function Limit(c: Codec, spec: Spec, name: string): Option<Quantity> {
    if name in spec.limits then ParseQuantity(c, spec.limits[name]) else None
  }

  /** A missing request defaults to the limit exactly for names with a slash that are not Kubernetes' own. */
  lemma DefaultsWhenExtended(c: Codec, spec: Spec, name: string)
    requires name !in spec.requests && name in spec.limits
    ensures Request(c, spec, name) == if '/' in name && !("kubernetes.io/" <= name) then ParseQuantity(c, spec.limits[name]) else None
  {
  }

  function Names(spec: Spec): set<string> {
    spec.requests.Keys + spec.limits.Keys
  }

  predicate NameAccepted(c: Codec, qualified: string -> bool, spec: Spec, name: string) {
    var request, limit := Request(c, spec, name), Limit(c, spec, name);
    && qualified(name)
    && (name in spec.requests ==> request.Some?) && (name in spec.limits ==> limit.Some?)
    && (request.Some? && limit.Some? ==> request.value.amount <= limit.value.amount)
    && (IsExtended(name) && name in spec.requests && name in spec.limits ==> request.value.amount == limit.value.amount)
  }

  predicate GpuAccepted(spec: Spec) {
    spec.gpu.Some? ==> spec.gpu.value && forall name :: name in Names(spec) ==> '/' !in name
  }

  predicate Accepted(c: Codec, qualified: string -> bool, spec: Spec) {
    GpuAccepted(spec) && forall name :: name in Names(spec) ==> NameAccepted(c, qualified, spec, name)
  }

  function RequestsOn(c: Codec, spec: Spec, names: set<string>): map<string, string> {
    map name | name in names && Request(c, spec, name).Some? :: c.render(Request(c, spec, name).value)
  }

  function LimitsOn(c: Codec, spec: Spec, names: set<string>): map<string, string> {
    map name | name in names && Limit(c, spec, name).Some? :: c.render(Limit(c, spec, name).value)
  }

  /** The normalised spec: canonical values, with the defaulted requests written out. */
  function Normal(c: Codec, spec: Spec): Spec {
    Spec(RequestsOn(c, spec, Names(spec)), LimitsOn(c, spec, Names(spec)), spec.gpu)
  }

  lemma RequestsOneMore(c: Codec, spec: Spec, names: set<string>, name: string)
    ensures RequestsOn(c, spec, names + {name}) ==
            var q := Request(c, spec, name); if q.Some? then RequestsOn(c, spec, names)[name := c.render(q.value)] else RequestsOn(c, spec, names)
  {
  }

  lemma LimitsOneMore(c: Codec, spec: Spec, names: set<string>, name: string)
    ensures LimitsOn(c, spec, names + {name}) ==
            var q := Limit(c, spec, name); if q.Some? then LimitsOn(c, spec, names)[name := c.render(q.value)] else LimitsOn(c, spec, names)
  {
  }

  /** A canonical spec: normalising finds nothing to change or refuse. */
  ghost predicate Canonical(c: Codec, qualified: string -> bool, spec: Spec) {
    && GpuAccepted(spec)
    && (forall name :: name in Names(spec) ==> qualified(name) && CanonicalAt(c, spec, name))
  }

  /** Values are canonical; a request is within its limit; an extended resource requests exactly its limit. */
  ghost predicate CanonicalAt(c: Codec, spec: Spec, name: string) {
    && (name in spec.requests ==> IsPrinted(c, spec.requests[name]))
    && (name in spec.limits ==> IsPrinted(c, spec.limits[name]))
    && (name in spec.requests && name in spec.limits ==> AmountOf(c, spec.requests[name]) <= AmountOf(c, spec.limits[name]))
    && (IsExtended(name) && name in spec.limits ==>
          name in spec.requests && AmountOf(c, spec.requests[name]) == AmountOf(c, spec.limits[name]))
  }

  ghost predicate IsPrinted(c: Codec, value: string) {
    c.parse(value).Some? && Prints(c, value, c.parse(value).value)
  }

  ghost function AmountOf(c: Codec, value: string): int {
    if c.parse(value).Some? then c.parse(value).value.amount else 0
  }

  lemma PrintedIsCanonical(c: Codec, q: Quantity)
    requires Lawful(c) && c.known(q) && q.amount >= 0
    ensures IsPrinted(c, c.render(q)) && AmountOf(c, c.render(q)) == q.amount
  {
    PrintedParses(c, c.render(q), q);
  }

  lemma ParsedIsKnown(c: Codec, raw: string)
    requires Lawful(c) && ParseQuantity(c, raw).Some?
    ensures c.known(ParseQuantity(c, raw).value) && ParseQuantity(c, raw).value.amount >= 0
  {
    assert c.parse(Trim(raw)).Some?;
  }

  lemma NormalIsCanonicalAt(c: Codec, qualified: string -> bool, spec: Spec, name: string)
    requires Lawful(c) && NameAccepted(c, qualified, spec, name) && name in Names(spec)
    ensures CanonicalAt(c, Normal(c, spec), name)
  {
    var request, limit := Request(c, spec, name), Limit(c, spec, name);
    if name in spec.requests {
      ParsedIsKnown(c, spec.requests[name]);
    }
    if name in spec.limits {
      ParsedIsKnown(c, spec.limits[name]);
      PrintedIsCanonical(c, limit.value);
    }
    if request.Some? {
      PrintedIsCanonical(c, request.value);
    }
  }

  lemma NormalIsCanonical(c: Codec, qualified: string -> bool, spec: Spec)
    requires Lawful(c) && Accepted(c, qualified, spec)
    ensures Canonical(c, qualified, Normal(c, spec)) && Names(Normal(c, spec)) == Names(spec)
  {
    forall name | name in Names(spec) ensures qualified(name) && CanonicalAt(c, Normal(c, spec), name) && name in Names(Normal(c, spec)) {
      assert NameAccepted(c, qualified, spec, name);
      NormalIsCanonicalAt(c, qualified, spec, name);
    }
  }

  lemma PrintedReads(c: Codec, value: string)
    requires Lawful(c) && IsPrinted(c, value)
    ensures ParseQuantity(c, value).Some? && ParseQuantity(c, value).value.amount == AmountOf(c, value)
    ensures c.render(ParseQuantity(c, value).value) == value
  {
    PrintedParses(c, value, c.parse(value).value);
  }

  lemma CanonicalNameStays(c: Codec, qualified: string -> bool, spec: Spec, name: string)
    requires Lawful(c) && name in Names(spec) && qualified(name) && CanonicalAt(c, spec, name)
    ensures NameAccepted(c, qualified, spec, name) && StaysAt(c, spec, name)
  {
    if name in spec.requests {
      PrintedReads(c, spec.requests[name]);
    }
    if name in spec.limits {
      PrintedReads(c, spec.limits[name]);
    }
  }

  lemma RequestsStay(c: Codec, spec: Spec)
    requires forall name :: name in Names(spec) ==> StaysAt(c, spec, name)
    ensures RequestsOn(c, spec, Names(spec)) == spec.requests
  {
    var values := RequestsOn(c, spec, Names(spec));
    forall name ensures name in values <==> name in spec.requests {
      assert name in Names(spec) ==> StaysAt(c, spec, name);
    }
    forall name | name in values ensures values[name] == spec.requests[name] {
      assert StaysAt(c, spec, name);
    }
  }

  lemma LimitsStay(c: Codec, spec: Spec)
    requires forall name :: name in Names(spec) ==> StaysAt(c, spec, name)
    ensures LimitsOn(c, spec, Names(spec)) == spec.limits
  {
    var values := LimitsOn(c, spec, Names(spec));
    forall name ensures name in values <==> name in spec.limits {
      assert name in Names(spec) ==> StaysAt(c, spec, name);
    }
    forall name | name in values ensures values[name] == spec.limits[name] {
      assert StaysAt(c, spec, name);
    }
  }

  /** Normalising gives this name the values it has. */
  ghost predicate StaysAt(c: Codec, spec: Spec, name: string) {
    && (Request(c, spec, name).Some? <==> name in spec.requests)
    && (name in spec.requests ==> c.render(Request(c, spec, name).value) == spec.requests[name])
    && (Limit(c, spec, name).Some? <==> name in spec.limits)
    && (name in spec.limits ==> c.render(Limit(c, spec, name).value) == spec.limits[name])
  }

  /** A canonical spec is a fixed point of normalising. */
  lemma CanonicalIsFixed(c: Codec, qualified: string -> bool, spec: Spec)
    requires Lawful(c) && Canonical(c, qualified, spec)
    ensures Accepted(c, qualified, spec) && Normal(c, spec) == spec
  {
    forall name | name in Names(spec) ensures NameAccepted(c, qualified, spec, name) && StaysAt(c, spec, name) {
      CanonicalNameStays(c, qualified, spec, name);
    }
    RequestsStay(c, spec);
    LimitsStay(c, spec);
  }

  // ---- Scaling ----

  predicate Exact(c: Codec, values: map<string, string>, n: int) {
    forall name :: name in values ==> c.parse(values[name]).Some? && c.exact(c.parse(values[name]).value, n)
  }

  function ScaledValue(c: Codec, value: string, n: int): string {
    if c.parse(value).Some? then c.render(Times(c.parse(value).value, n)) else value
  }

  function ScaledValues(c: Codec, values: map<string, string>, n: int): map<string, string> {
    map name | name in values :: ScaledValue(c, values[name], n)
  }

  function Scaled(c: Codec, spec: Spec, n: int): Spec {
    Spec(ScaledValues(c, spec.requests, n), ScaledValues(c, spec.limits, n), spec.gpu)
  }

  lemma ScaledValueIsCanonical(c: Codec, value: string, n: int)
    requires Lawful(c) && n >= 1 && IsPrinted(c, value) && c.exact(c.parse(value).value, n)
    ensures IsPrinted(c, ScaledValue(c, value, n)) && AmountOf(c, ScaledValue(c, value, n)) == n * AmountOf(c, value)
  {
    var q := c.parse(value).value;
    assert c.known(Times(q, n)) && Times(q, n).amount >= 0;
    PrintedIsCanonical(c, Times(q, n));
  }

  lemma ScaledIsCanonicalAt(c: Codec, spec: Spec, n: int, name: string)
    requires Lawful(c) && n >= 1 && CanonicalAt(c, spec, name) && Exact(c, spec.requests, n) && Exact(c, spec.limits, n)
    ensures CanonicalAt(c, Scaled(c, spec, n), name)
    ensures name in spec.requests ==> AmountOf(c, Scaled(c, spec, n).requests[name]) == n * AmountOf(c, spec.requests[name])
    ensures name in spec.limits ==> AmountOf(c, Scaled(c, spec, n).limits[name]) == n * AmountOf(c, spec.limits[name])
  {
    if name in spec.requests {
      ScaledValueIsCanonical(c, spec.requests[name], n);
    }
    if name in spec.limits {
      ScaledValueIsCanonical(c, spec.limits[name], n);
    }
    if name in spec.requests && name in spec.limits {
      MulKeepsOrder(n, AmountOf(c, spec.requests[name]), AmountOf(c, spec.limits[name]));
    }
  }

  lemma MulKeepsOrder(n: int, a: int, b: int)
    requires n >= 1 && a <= b
    ensures n * a <= n * b
  {
  }

  lemma ScaledIsCanonical(c: Codec, qualified: string -> bool, spec: Spec, n: int)
    requires Lawful(c) && n >= 1 && Canonical(c, qualified, spec) && Exact(c, spec.requests, n) && Exact(c, spec.limits, n)
    ensures Canonical(c, qualified, Scaled(c, spec, n))
  {
    assert Names(Scaled(c, spec, n)) == Names(spec);
    forall name | name in Names(spec) ensures qualified(name) && CanonicalAt(c, Scaled(c, spec, n), name) {
      ScaledIsCanonicalAt(c, spec, n, name);
    }
  }

  // ---- The operations ----

  datatype Total = Total(resources: Spec, units: int)

  method NormalizeName(c: Codec, qualified: string -> bool, spec: Spec, name: string) returns (ok: bool, request: Option<Quantity>, limit: Option<Quantity>)
    requires name in Names(spec)
    ensures ok <==> NameAccepted(c, qualified, spec, name)
    ensures ok ==> request == Request(c, spec, name) && limit == Limit(c, spec, name)
  {
    request, limit := None, None;
    if !qualified(name) {
      return false, None, None;
    }
    if name in spec.requests {
      request := ParseQuantity(c, spec.requests[name]);
      if request.None? {
        return false, None, None;
      }
    }
    if name in spec.limits {
      limit := ParseQuantity(c, spec.limits[name]);
      if limit.None? {
        return false, None, None;
      }
    }
    if IsExtended(name) && request.None? {
      request := limit;
    }
    if request.Some? && limit.Some? && request.value.amount > limit.value.amount {
      return false, None, None;
    }
    if IsExtended(name) && name in spec.requests && name in spec.limits && request.value.amount != limit.value.amount {
      return false, None, None;
    }
    ok := true;
  }

  /** Normalises one more name. */
  method AddName(c: Codec, qualified: string -> bool, spec: Spec, name: string, requests0: map<string, string>, limits0: map<string, string>,
                 ghost done: set<string>) returns (ok: bool, requests: map<string, string>, limits: map<string, string>)
    requires name in Names(spec) && requests0 == RequestsOn(c, spec, done) && limits0 == LimitsOn(c, spec, done)
    ensures ok <==> NameAccepted(c, qualified, spec, name)
    ensures ok ==> requests == RequestsOn(c, spec, done + {name}) && limits == LimitsOn(c, spec, done + {name})
  {
    requests, limits := requests0, limits0;
    var request, limit;
    ok, request, limit := NormalizeName(c, qualified, spec, name);
    RequestsOneMore(c, spec, done, name);
    LimitsOneMore(c, spec, done, name);
    if ok && request.Some? {
      requests := requests[name := c.render(request.value)];
    }
    if ok && limit.Some? {
      limits := limits[name := c.render(limit.value)];
    }
  }

  ghost predicate AllAccepted(c: Codec, qualified: string -> bool, spec: Spec, names: set<string>) {
    forall name :: name in names ==> NameAccepted(c, qualified, spec, name)
  }

  method Normalize(c: Codec, qualified: string -> bool, spec: Spec) returns (normal: Option<Spec>)
    ensures normal == if Accepted(c, qualified, spec) then Some(Normal(c, spec)) else None
  {
    if spec.gpu.Some? && (!spec.gpu.value || exists name :: name in Names(spec) && '/' in name) {
      return None;
    }
    var todo, requests, limits := Names(spec), map[], map[];
    ghost var done: set<string> := {};
    while todo != {}
      invariant done + todo == Names(spec) && AllAccepted(c, qualified, spec, done)
      invariant requests == RequestsOn(c, spec, done) && limits == LimitsOn(c, spec, done)
      decreases todo
    {
      var name :| name in todo;
      var ok;
      ok, requests, limits := AddName(c, qualified, spec, name, requests, limits, done);
      if !ok {
        assert name in Names(spec);
        return None;
      }
      todo, done := todo - {name}, done + {name};
    }
    assert done == Names(spec);
    normal := Some(Spec(requests, limits, spec.gpu));
  }

  /** Multiplies every value in place; `None` when a product is not exact. */
  method ScaleValues(c: Codec, values: map<string, string>, n: int) returns (scaled: Option<map<string, string>>)
    ensures scaled == if Exact(c, values, n) then Some(ScaledValues(c, values, n)) else None
  {
    var todo, result := values.Keys, values;
    while todo != {}
      invariant todo <= values.Keys == result.Keys
      invariant forall name :: name in todo ==> result[name] == values[name]
      invariant forall name :: name in values.Keys - todo ==> result[name] == ScaledValue(c, values[name], n)
      invariant forall name :: name in values.Keys - todo ==> c.parse(values[name]).Some? && c.exact(c.parse(values[name]).value, n)
      decreases |todo|
    {
      var name :| name in todo;
      var q := c.parse(result[name]);
      if q.None? || !c.exact(q.value, n) {
        return None;
      }
      result := result[name := c.render(Times(q.value, n))];
      todo := todo - {name};
    }
    assert result == ScaledValues(c, values, n);
    scaled := Some(result);
  }

  /** Normalises the spec and multiplies it by the number of Pods. */
  method Aggregate(c: Codec, qualified: string -> bool, spec: Spec, replicas: int, mode: Mode, workers: int) returns (total: Option<Total>)
    ensures total == AggregateOf(c, qualified, spec, replicas, mode, workers)
  {
    var units := Units(replicas, mode, workers);
    if units.None? {
      return None;
    }
    var normal := Normalize(c, qualified, spec);
    if normal.None? {
      return None;
    }
    var requests := ScaleValues(c, normal.value.requests, units.value);
    if requests.None? {
      return None;
    }
    var limits := ScaleValues(c, normal.value.limits, units.value);
    if limits.None? {
      return None;
    }
    total := Some(Total(Spec(requests.value, limits.value, normal.value.gpu), units.value));
  }

  function AggregateOf(c: Codec, qualified: string -> bool, spec: Spec, replicas: int, mode: Mode, workers: int): Option<Total> {
    var units, normal := Units(replicas, mode, workers), Normal(c, spec);
    if units.None? || !Accepted(c, qualified, spec) || !Exact(c, normal.requests, units.value) || !Exact(c, normal.limits, units.value) then None
    else Some(Total(Scaled(c, normal, units.value), units.value))
  }

  ghost predicate ScaledAt(c: Codec, spec: Spec, scaled: Spec, n: int, name: string) {
    && (name in spec.requests ==> name in scaled.requests && AmountOf(c, scaled.requests[name]) == n * AmountOf(c, spec.requests[name]))
    && (name in spec.limits ==> name in scaled.limits && AmountOf(c, scaled.limits[name]) == n * AmountOf(c, spec.limits[name]))
  }

  /** The same names, with every amount n-fold. */
  ghost predicate ScaledBy(c: Codec, spec: Spec, scaled: Spec, n: int) {
    && scaled.requests.Keys == spec.requests.Keys && scaled.limits.Keys == spec.limits.Keys && scaled.gpu == spec.gpu
    && forall name :: name in Names(spec) ==> ScaledAt(c, spec, scaled, n, name)
  }

  lemma ScaledIsScaled(c: Codec, qualified: string -> bool, spec: Spec, n: int)
    requires Lawful(c) && n >= 1 && Canonical(c, qualified, spec) && Exact(c, spec.requests, n) && Exact(c, spec.limits, n)
    ensures ScaledBy(c, spec, Scaled(c, spec, n), n)
  {
    forall name | name in Names(spec) ensures ScaledAt(c, spec, Scaled(c, spec, n), n, name) {
      ScaledIsCanonicalAt(c, spec, n, name);
    }
  }

  /**
   A successful aggregate is the normalised spec scaled by the unit count, name by name; it keeps every
   request within its limit and extended resources equal, and normalising it again changes nothing.
   */
  lemma AggregateIsScaled(c: Codec, qualified: string -> bool, spec: Spec, replicas: int, mode: Mode, workers: int)
    requires Lawful(c) && Int32(replicas) && Int32(workers)
    requires AggregateOf(c, qualified, spec, replicas, mode, workers).Some?
    ensures var total := AggregateOf(c, qualified, spec, replicas, mode, workers).value;
            ScaledBy(c, Normal(c, spec), total.resources, total.units) && Canonical(c, qualified, total.resources)
  {
    var units, normal := Units(replicas, mode, workers).value, Normal(c, spec);
    UnitsArePods(replicas, mode, workers);
    NormalIsCanonical(c, qualified, spec);
    ScaledIsCanonical(c, qualified, normal, units);
    ScaledIsScaled(c, qualified, normal, units);
  }

  lemma AggregateIsFixed(c: Codec, qualified: string -> bool, spec: Spec, replicas: int, mode: Mode, workers: int)
    requires Lawful(c) && Int32(replicas) && Int32(workers)
    requires AggregateOf(c, qualified, spec, replicas, mode, workers).Some?
    ensures var resources := AggregateOf(c, qualified, spec, replicas, mode, workers).value.resources;
            Accepted(c, qualified, resources) && Normal(c, resources) == resources
  {
    var units := Units(replicas, mode, workers).value;
    UnitsArePods(replicas, mode, workers);
    NormalIsCanonical(c, qualified, spec);
    ScaledIsCanonical(c, qualified, Normal(c, spec), units);
    CanonicalIsFixed(c, qualified, Scaled(c, Normal(c, spec), units));
  }

  /** Normalising twice is normalising once. */
  lemma NormalIsFixed(c: Codec, qualified: string -> bool, spec: Spec)
    requires Lawful(c) && Accepted(c, qualified, spec)
    ensures Accepted(c, qualified, Normal(c, spec)) && Normal(c, Normal(c, spec)) == Normal(c, spec)
  {
    NormalIsCanonical(c, qualified, spec);
    CanonicalIsFixed(c, qualified, Normal(c, spec));
  }

  // ---- The GPU request of a topology ----

  datatype GpuRequest = GpuRequest(wellFormed: bool, replicas: int, devices: int, container: string)

  const MAX_GPU_REPLICAS := 16

  predicate ValidRequest(r: GpuRequest) {
    r.wellFormed && 1 <= r.replicas <= MAX_GPU_REPLICAS && r.devices >= 1
  }

  /** The request must name the topology's Pod count and the container that carries the GPU. */
  predicate ValidTopology(r: GpuRequest, replicas: int, mode: Mode, workers: int) {
    var pods := TotalPods(replicas, mode, workers);
    && ValidRequest(r) && replicas >= 1 && pods.Some? && r.replicas == pods.value
    && r.container == if mode.LeaderWorkerSet? then "main" else "kserve-container"
  }

  /**
   A request passes exactly when it is well formed, asks for one to sixteen Pods with a device each, names
   the container of its mode, and its Pod count is the unit count of the aggregate.
   */
  lemma TopologyFixesUnits(r: GpuRequest, replicas: int, mode: Mode, workers: int)
    requires Int32(replicas) && Int32(workers)
    ensures ValidTopology(r, replicas, mode, workers) <==>
              && r.wellFormed && 1 <= r.devices && 1 <= r.replicas <= 16 && Units(replicas, mode, workers) == Some(r.replicas)
              && (mode.LeaderWorkerSet? ==> r.container == "main") && (!mode.LeaderWorkerSet? ==> r.container == "kserve-container")
  {
    UnitsArePods(replicas, mode, workers);
  }
}

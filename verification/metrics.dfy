/** pkg/metrics/system.go: node CPU usage from Prometheus, and the retries around a query. */
module Metrics {
  import opened Config
  import opened Results

  datatype Series = Series(mode: string, values: seq<Float>)

  /** A query result; None in a matrix is a nil pointer. */
  datatype QueryValue = Matrix(series: seq<Option<Series>>) | OtherType

  datatype NodeCPU = NodeCPU(
    idle: Float,
    steal: Float,
    system: Float,
    user: Float,
    nice: Float,
    irq: Float,
    softirq: Float,
    iowait: Float)

  const NO_USAGE := NodeCPU(ZERO, ZERO, ZERO, ZERO, ZERO, ZERO, ZERO, ZERO)

  datatype CpuError = UnexpectedType | NoSeries | NoUsableSamples

  datatype Mode = Idle | Steal | System | User | Nice | Irq | Softirq | Iowait

  function ModeOf(name: string): Option<Mode> {
    if name == "idle" then Some(Idle)
    else if name == "steal" then Some(Steal)
    else if name == "system" then Some(System)
    else if name == "user" then Some(User)
    else if name == "nice" then Some(Nice)
    else if name == "irq" then Some(Irq)
    else if name == "softirq" then Some(Softirq)
    else if name == "iowait" then Some(Iowait)
    else None
  }

  function Usage(cpu: NodeCPU, m: Mode): Float {
    match m
    case Idle => cpu.idle
    case Steal => cpu.steal
    case System => cpu.system
    case User => cpu.user
    case Nice => cpu.nice
    case Irq => cpu.irq
    case Softirq => cpu.softirq
    case Iowait => cpu.iowait
  }

  /** avg */
  method Avg(data: seq<Float>) returns (mean: Float)
    ensures mean == Average(data)
  {
    var sum := ZERO;
    for s := 0 to |data|
      invariant sum == Sum(data[..s])
    {
      assert data[..s + 1][..s] == data[..s];
      sum := Add(sum, data[s]);
    }
    assert data[..|data|] == data;
    if |data| == 0 {
      return NaN;
    }
    mean := if sum.Num? then Num(sum.r / |data| as real) else sum;
  }

  /** A series that counts for a mode. */
  predicate Usable(s: Option<Series>, m: Mode) {
    s.Some? && s.value.values != [] && ModeOf(s.value.mode) == Some(m)
  }

  /** The values of the last usable series of a mode. */
  function LastOf(v: seq<Option<Series>>, m: Mode): Option<seq<Float>> {
    if v == [] then None
    else if Usable(v[|v| - 1], m) then Some(v[|v| - 1].value.values)
    else LastOf(v[..|v| - 1], m)
  }

  function MeanOf(data: Option<seq<Float>>): Float {
    if data.None? then ZERO else Average(data.value)
  }

  /** Every mode shows the mean of its last usable series. */
  predicate Shows(cpu: NodeCPU, v: seq<Option<Series>>) {
    forall m: Mode :: Usage(cpu, m) == MeanOf(LastOf(v, m))
  }

  /** One more series changes the usage of its mode only. */
  predicate Absorbed(before: NodeCPU, after: NodeCPU, s: Option<Series>) {
    forall m: Mode :: Usage(after, m) == if Usable(s, m) then Average(s.value.values) else Usage(before, m)
  }

  predicate AnyUsable(v: seq<Option<Series>>) {
    exists i, m :: 0 <= i < |v| && Usable(v[i], m)
  }

  /** extractNodeCPU */
  method ExtractNodeCPU(val: QueryValue) returns (r: Result<NodeCPU, CpuError>)
    ensures r.Ok? <==> val.Matrix? && AnyUsable(val.series)
    ensures r.Ok? ==> Shows(r.value, val.series) && r.value == UsageOf(val.series) && Reports(r.value, val.series)
    ensures r.Err? ==> r.error == if val.OtherType? then UnexpectedType
                                  else if val.series == [] then NoSeries else NoUsableSamples
  {
    var cpu := NO_USAGE;
    if val.OtherType? {
      return Err(UnexpectedType);
    }
    var v := val.series;
    if |v| == 0 {
      return Err(NoSeries);
    }
    var collected := false;
    for i := 0 to |v|
      invariant Shows(cpu, v[..i])
      invariant collected <==> AnyUsable(v[..i])
    {
      assert v[..i + 1] == v[..i] + [v[i]];
      ghost var before := cpu;
      if v[i].Some? && |v[i].value.values| != 0 {
        var mean := Avg(v[i].value.values);
        var mode := ModeOf(v[i].value.mode);
        match mode {
          case Some(Idle) => cpu := cpu.(idle := mean);
          case Some(Steal) => cpu := cpu.(steal := mean);
          case Some(System) => cpu := cpu.(system := mean);
          case Some(User) => cpu := cpu.(user := mean);
          case Some(Nice) => cpu := cpu.(nice := mean);
          case Some(Irq) => cpu := cpu.(irq := mean);
          case Some(Softirq) => cpu := cpu.(softirq := mean);
          case Some(Iowait) => cpu := cpu.(iowait := mean);
          case None =>
        }
        collected := collected || mode.Some?;
        assert mode.Some? ==> Usable(v[i], mode.value);
      }
      Appended(v[..i], v[i], before, cpu);
    }
    assert v[..|v|] == v;
    if !collected {
      return Err(NoUsableSamples);
    }
    ShowsExactly(cpu, v);
    ShowsByName(cpu, v);
    r := Ok(cpu);
  }

  // ---- By name ----

  /** A nonempty series of this name. */
  predicate Named(s: Option<Series>, name: string) {
    s.Some? && s.value.values != [] && s.value.mode == name
  }

  predicate LastNamed(v: seq<Option<Series>>, i: nat, name: string) {
    i < |v| && Named(v[i], name) && forall k :: i < k < |v| ==> !Named(v[k], name)
  }

  /** The mean of the last nonempty series of this name, zero without one. */
  predicate LastMean(v: seq<Option<Series>>, name: string, x: Float) {
    || (x == ZERO && forall i :: 0 <= i < |v| ==> !Named(v[i], name))
    || exists i :: 0 <= i < |v| && LastNamed(v, i, name) && x == Average(v[i].value.values)
  }

  predicate Reports(cpu: NodeCPU, v: seq<Option<Series>>) {
    && LastMean(v, "idle", cpu.idle) && LastMean(v, "steal", cpu.steal) && LastMean(v, "system", cpu.system)
    && LastMean(v, "user", cpu.user) && LastMean(v, "nice", cpu.nice) && LastMean(v, "irq", cpu.irq)
    && LastMean(v, "softirq", cpu.softirq) && LastMean(v, "iowait", cpu.iowait)
  }

  lemma NameOfMode(name: string)
    ensures ModeOf(name) == Some(Idle) <==> name == "idle"
    ensures ModeOf(name) == Some(Steal) <==> name == "steal"
    ensures ModeOf(name) == Some(System) <==> name == "system"
    ensures ModeOf(name) == Some(User) <==> name == "user"
    ensures ModeOf(name) == Some(Nice) <==> name == "nice"
    ensures ModeOf(name) == Some(Irq) <==> name == "irq"
    ensures ModeOf(name) == Some(Softirq) <==> name == "softirq"
    ensures ModeOf(name) == Some(Iowait) <==> name == "iowait"
  {
    assert "idle"[0] != "user"[0] && "idle"[0] != "nice"[0] && "user"[0] != "nice"[0];
    assert "system"[1] != "iowait"[1];
  }

  lemma LastMeanStep(v: seq<Option<Series>>, s: Option<Series>, name: string, x: Float)
    requires if Named(s, name) then x == Average(s.value.values) else LastMean(v, name, x)
    ensures LastMean(v + [s], name, x)
  {
    var w := v + [s];
    if Named(s, name) {
      assert LastNamed(w, |v|, name);
    } else if i :| 0 <= i < |v| && LastNamed(v, i, name) && x == Average(v[i].value.values) {
      assert LastNamed(w, i, name);
    }
  }

  lemma {:induction false} LastMeanOf(v: seq<Option<Series>>, m: Mode, name: string)
    requires forall s :: s in v ==> (Usable(s, m) <==> Named(s, name))
    ensures LastMean(v, name, MeanOf(LastOf(v, m)))
  {
    if v != [] {
      var init, last := v[..|v| - 1], v[|v| - 1];
      assert v == init + [last] && last in v;
      LastMeanOf(init, m, name);
      LastMeanStep(init, last, name, MeanOf(LastOf(v, m)));
    }
  }

  /** m is the mode of this name. */
  ghost predicate Names(name: string, m: Mode) {
    forall text {:trigger ModeOf(text)} :: ModeOf(text) == Some(m) <==> text == name
  }

  lemma ModeShown(cpu: NodeCPU, v: seq<Option<Series>>, m: Mode, name: string)
    requires Shows(cpu, v) && Names(name, m)
    ensures LastMean(v, name, Usage(cpu, m))
  {
    LastMeanOf(v, m, name);
  }

  lemma ShowsByName(cpu: NodeCPU, v: seq<Option<Series>>)
    requires Shows(cpu, v)
    ensures Reports(cpu, v)
  {
    forall text { NameOfMode(text); }
    ModeShown(cpu, v, Idle, "idle");
    ModeShown(cpu, v, Steal, "steal");
    ModeShown(cpu, v, System, "system");
    ModeShown(cpu, v, User, "user");
    ModeShown(cpu, v, Nice, "nice");
    ModeShown(cpu, v, Irq, "irq");
    ModeShown(cpu, v, Softirq, "softirq");
    ModeShown(cpu, v, Iowait, "iowait");
  }

  lemma LastAppended(v: seq<Option<Series>>, s: Option<Series>, m: Mode)
    ensures LastOf(v + [s], m) == if Usable(s, m) then Some(s.value.values) else LastOf(v, m)
  {
    assert (v + [s])[..|v|] == v;
  }

  lemma Appended(v: seq<Option<Series>>, s: Option<Series>, before: NodeCPU, after: NodeCPU)
    requires Shows(before, v) && Absorbed(before, after, s)
    ensures Shows(after, v + [s])
    ensures AnyUsable(v + [s]) <==> AnyUsable(v) || exists m :: Usable(s, m)
  {
    forall m: Mode ensures Usage(after, m) == MeanOf(LastOf(v + [s], m)) {
      LastAppended(v, s, m);
    }
    var w := v + [s];
    if AnyUsable(w) {
      var i, m :| 0 <= i < |w| && Usable(w[i], m);
      assert i < |v| ==> Usable(v[i], m);
    }
    if AnyUsable(v) {
      var i, m :| 0 <= i < |v| && Usable(v[i], m);
      assert Usable(w[i], m);
    }
    if m :| Usable(s, m) {
      assert Usable(w[|v|], m);
    }
  }

  // ---- Order of the series ----

  function Assembled(f: Mode -> Float): NodeCPU {
    NodeCPU(f(Idle), f(Steal), f(System), f(User), f(Nice), f(Irq), f(Softirq), f(Iowait))
  }

  lemma AssembledExactly(cpu: NodeCPU, f: Mode -> Float)
    ensures (forall m: Mode :: Usage(cpu, m) == f(m)) <==> cpu == Assembled(f)
  {
    assert cpu == NodeCPU(Usage(cpu, Idle), Usage(cpu, Steal), Usage(cpu, System), Usage(cpu, User),
                          Usage(cpu, Nice), Usage(cpu, Irq), Usage(cpu, Softirq), Usage(cpu, Iowait));
  }

  /** The usage ExtractNodeCPU reports. */
  function UsageOf(v: seq<Option<Series>>): NodeCPU {
    Assembled(m => MeanOf(LastOf(v, m)))
  }

  lemma ShowsExactly(cpu: NodeCPU, v: seq<Option<Series>>)
    ensures Shows(cpu, v) <==> cpu == UsageOf(v)
  {
    var f := (m: Mode) => MeanOf(LastOf(v, m));
    AssembledExactly(cpu, f);
    assert Shows(cpu, v) <==> forall m: Mode :: Usage(cpu, m) == f(m);
  }

  lemma {:induction false} LastIsMember(v: seq<Option<Series>>, m: Mode)
    ensures LastOf(v, m).Some? ==> exists s :: s in v && Usable(s, m) && s.value.values == LastOf(v, m).value
    ensures LastOf(v, m).None? ==> forall s :: s in v ==> !Usable(s, m)
  {
    if v != [] && !Usable(v[|v| - 1], m) {
      LastIsMember(v[..|v| - 1], m);
    }
  }

  /** All usable series of a mode have the same mean. */
  predicate MeansAgree(v: seq<Option<Series>>) {
    forall i, j, m :: 0 <= i < |v| && 0 <= j < |v| && Usable(v[i], m) && Usable(v[j], m)
                      ==> Average(v[i].value.values) == Average(v[j].value.values)
  }

  /** When the means agree, neither order nor repetition matters. */
  lemma SameMean(v: seq<Option<Series>>, w: seq<Option<Series>>, m: Mode)
    requires MeansAgree(v) && (forall s :: s in v <==> s in w)
    ensures MeanOf(LastOf(v, m)) == MeanOf(LastOf(w, m))
  {
    LastIsMember(v, m);
    LastIsMember(w, m);
    if LastOf(v, m).Some? {
      var s :| s in v && Usable(s, m) && s.value.values == LastOf(v, m).value;
      assert s in w;
      var t :| t in w && Usable(t, m) && t.value.values == LastOf(w, m).value;
      assert t in v;
    }
  }

  /** The same series with the one at i moved to the end. */
  function MovedToEnd(v: seq<Option<Series>>, i: nat): seq<Option<Series>>
    requires i < |v|
  {
    v[..i] + v[i + 1..] + [v[i]]
  }

  lemma MovedIsLast(v: seq<Option<Series>>, i: nat, m: Mode)
    requires i < |v| && Usable(v[i], m)
    ensures multiset(MovedToEnd(v, i)) == multiset(v)
    ensures MeanOf(LastOf(MovedToEnd(v, i), m)) == Average(v[i].value.values)
  {
    assert v == v[..i] + [v[i]] + v[i + 1..];
    LastAppended(v[..i] + v[i + 1..], v[i], m);
  }

  /** The reported usage does not depend on the order of the series exactly when all usable series of a mode have the
      same mean; it does not depend on their repetition either then. */
  lemma OrderExactly(v: seq<Option<Series>>)
    ensures (forall w: seq<Option<Series>> :: multiset(w) == multiset(v) ==> UsageOf(w) == UsageOf(v))
            <==> MeansAgree(v)
    ensures (forall w: seq<Option<Series>> :: (forall s :: s in v <==> s in w) ==> UsageOf(w) == UsageOf(v))
            <==> MeansAgree(v)
  {
    if MeansAgree(v) {
      forall w: seq<Option<Series>> | forall s :: s in v <==> s in w ensures UsageOf(w) == UsageOf(v) {
        UsageFromSet(v, w);
      }
      forall w: seq<Option<Series>> | multiset(w) == multiset(v) ensures UsageOf(w) == UsageOf(v) {
        SameMembers(v, w);
      }
    } else {
      var w := OrderDecides(v);
      SameMembers(v, w);
    }
  }

  lemma UsageFromSet(v: seq<Option<Series>>, w: seq<Option<Series>>)
    requires MeansAgree(v) && (forall s :: s in v <==> s in w)
    ensures UsageOf(w) == UsageOf(v)
  {
    ShowsExactly(UsageOf(v), v);
    forall m: Mode ensures Usage(UsageOf(v), m) == MeanOf(LastOf(w, m)) {
      SameMean(v, w, m);
    }
    ShowsExactly(UsageOf(v), w);
  }

  lemma SameMembers(v: seq<Option<Series>>, w: seq<Option<Series>>)
    requires multiset(w) == multiset(v)
    ensures forall s :: s in v <==> s in w
  {
    forall s ensures s in v <==> s in w {
      assert s in v <==> s in multiset(v);
      assert s in w <==> s in multiset(w);
    }
  }

  /** Otherwise moving one of two disagreeing series to the end changes the usage. */
  lemma OrderDecides(v: seq<Option<Series>>) returns (w: seq<Option<Series>>)
    requires !MeansAgree(v)
    ensures multiset(w) == multiset(v) && UsageOf(w) != UsageOf(v)
  {
    var i, j, m :| 0 <= i < |v| && 0 <= j < |v| && Usable(v[i], m) && Usable(v[j], m)
                   && Average(v[i].value.values) != Average(v[j].value.values);
    MovedIsLast(v, i, m);
    MovedIsLast(v, j, m);
    w := if MeanOf(LastOf(v, m)) == Average(v[i].value.values) then MovedToEnd(v, j) else MovedToEnd(v, i);
    ShowsExactly(UsageOf(w), w);
    ShowsExactly(UsageOf(v), v);
    assert Usage(UsageOf(w), m) == MeanOf(LastOf(w, m)) && Usage(UsageOf(v), m) == MeanOf(LastOf(v, m));
  }

  /** x added up n times. */
  function Times(x: real, n: nat): real
    decreases n
  {
    if n == 0 then 0.0 else Times(x, n - 1) + x
  }

  lemma {:induction false} TimesIsProduct(x: real, n: nat)
    ensures Times(x, n) == x * n as real
    decreases n
  {
    if n > 0 {
      TimesIsProduct(x, n - 1);
      var before := (n - 1) as real;
      assert n as real == before + 1.0;
      assert x * (before + 1.0) == x * before + x;
    }
  }

  lemma {:induction false} SumBetween(data: seq<Float>, lo: real, hi: real)
    requires forall i :: 0 <= i < |data| ==> data[i].Num? && lo <= data[i].r <= hi
    ensures Sum(data).Num? && Times(lo, |data|) <= Sum(data).r <= Times(hi, |data|)
  {
    if data != [] {
      SumBetween(data[..|data| - 1], lo, hi);
    }
  }

  /** A mean lies between any bounds on the values. */
  lemma MeanBetween(data: seq<Float>, lo: real, hi: real)
    requires data != [] && forall i :: 0 <= i < |data| ==> data[i].Num? && lo <= data[i].r <= hi
    ensures Average(data).Num? && lo <= Average(data).r <= hi
  {
    SumBetween(data, lo, hi);
    TimesIsProduct(lo, |data|);
    TimesIsProduct(hi, |data|);
    Quotient(Sum(data).r, |data| as real, lo, hi);
  }

  lemma Quotient(x: real, n: real, lo: real, hi: real)
    requires n > 0.0 && lo * n <= x <= hi * n
    ensures lo <= x / n <= hi
  {
    var q := x / n;
    assert q * n == x;
    Unscaled(lo, q, n);
    Unscaled(q, hi, n);
  }

  // ---- Retries ----

  function Pow2(n: nat): nat {
    if n == 0 then 1 else 2 * Pow2(n - 1)
  }

  /** queryPrometheusWithRetry. The query answers by the number of calls before; the result counts the calls and adds
      up the sleeps. */
  method QueryWithRetry<T, E>(attempts: int, initialBackoff: int, query: nat -> Result<T, E>)
    returns (r: Result<T, E>, calls: nat, slept: int)
    ensures 1 <= calls <= if attempts < 1 then 1 else attempts
    ensures forall k :: 0 <= k < calls - 1 ==> query(k).Err?
    ensures r == query(calls - 1)
    ensures r.Err? ==> calls == if attempts < 1 then 1 else attempts
    ensures slept == if initialBackoff > 0 then initialBackoff * (Pow2(calls - 1) - 1) else 0
  {
    var backoff := initialBackoff;
    var tries := attempts;
    if tries < 1 {
      tries := 1;
    }
    calls, slept := 0, 0;
    var err: Option<E> := None;
    for attempt := 1 to tries + 1
      invariant calls == attempt - 1
      invariant forall k :: 0 <= k < calls ==> query(k).Err?
      invariant calls > 0 ==> err.Some? && query(calls - 1) == Err(err.value)
      invariant var waits := if calls < tries then calls else tries - 1;
                && backoff == initialBackoff * Pow2(waits)
                && slept == if initialBackoff > 0 then initialBackoff * (Pow2(waits) - 1) else 0
    {
      var answer := query(calls);
      calls := calls + 1;
      if answer.Ok? {
        return answer, calls, slept;
      }
      err := Some(answer.error);
      if attempt < tries {
        Doubling(initialBackoff, attempt - 1);
        if backoff > 0 {
          slept := slept + backoff;
        }
        backoff := backoff * 2;
      }
    }
    r := Err(err.value);
  }

  lemma Doubling(initial: int, n: nat)
    ensures initial * Pow2(n + 1) == initial * Pow2(n) * 2
    ensures initial > 0 ==> initial * Pow2(n) > 0
    ensures initial <= 0 ==> initial * Pow2(n) <= 0
    ensures initial * (Pow2(n) - 1) + initial * Pow2(n) == initial * (Pow2(n + 1) - 1)
  {
    var p := Pow2(n);
    Positive(n);
    assert Pow2(n + 1) == 2 * p;
    assert initial * (2 * p) == initial * p * 2;
    assert initial * (p - 1) == initial * p - initial && initial * (2 * p - 1) == initial * (2 * p) - initial;
  }

  lemma {:induction false} Positive(n: nat)
    ensures Pow2(n) > 0
  {
    if n > 0 {
      Positive(n - 1);
    }
  }
}

/** pkg/drivers/uperf.go: from cumulative counters to per-interval samples. */
module UperfSamples {
  import opened Results

  /** One Txn2 record of uperf: cumulative bytes and operations at a time in milliseconds. */
  datatype Txn = Txn(ts: real, bytes: real, ops: real)

  const START := Txn(0.0, 0.0, 0.0)

  function Last(rs: seq<Txn>): Txn {
    if rs == [] then START else rs[|rs| - 1]
  }

  /** Two operations make one transaction of a RR profile. */
  function Normalized(ops: real, rr: bool): real {
    if rr then ops / 2.0 else ops
  }

  function Operations(normOps: real, rr: bool): real {
    if rr then normOps * 2.0 else normOps
  }

  /** The interval between two records gives a sample. */
  predicate Counted(p: Txn, r: Txn) {
    r.ops != p.ops && p.ts != 0.0
  }

  datatype Summary = Summary(bytes: seq<real>, lat: seq<real>, ops: seq<real>)

  function Summarize(rs: seq<Txn>, rr: bool): Summary {
    if rs == [] then Summary([], [], [])
    else
      var before, p, r := Summarize(rs[..|rs| - 1], rr), Last(rs[..|rs| - 1]), rs[|rs| - 1];
      if Counted(p, r) then
        var ops := Normalized(r.ops - p.ops, rr);
        Summary(before.bytes + [r.bytes - p.bytes], before.lat + [(r.ts - p.ts) / ops * 1000.0], before.ops + [ops])
      else before
  }

  /** The accumulation loop of ParseResults. */
  method Accumulate(rs: seq<Txn>, rr: bool) returns (s: Summary)
    ensures s == Summarize(rs, rr)
  {
    var prevTimestamp, prevBytes, prevOps := 0.0, 0.0, 0.0;
    var byteSummary, latSummary, opSummary: seq<real> := [], [], [];
    for i := 0 to |rs|
      invariant Txn(prevTimestamp, prevBytes, prevOps) == Last(rs[..i])
      invariant Summary(byteSummary, latSummary, opSummary) == Summarize(rs[..i], rr)
    {
      assert rs[..i + 1][..i] == rs[..i];
      var r := rs[i];
      var normOps := r.ops - prevOps;
      if rr {
        normOps := normOps / 2.0;
      }
      if normOps != 0.0 && prevTimestamp != 0.0 {
        var normLtcy := (r.ts - prevTimestamp) / normOps * 1000.0;
        byteSummary := byteSummary + [r.bytes - prevBytes];
        latSummary := latSummary + [normLtcy];
        opSummary := opSummary + [normOps];
      }
      prevTimestamp, prevBytes, prevOps := r.ts, r.bytes, r.ops;
    }
    assert rs[..|rs|] == rs;
    s := Summary(byteSummary, latSummary, opSummary);
  }

  // ---- Which intervals give samples ----

  /** Interval i leads from record i - 1 to record i. */
  function CountedAt(rs: seq<Txn>): nat -> bool {
    (i: nat) => 0 < i < |rs| && rs[i].ops != rs[i - 1].ops && rs[i - 1].ts != 0.0
  }

  function BytesOf(rs: seq<Txn>): nat -> real {
    (i: nat) => if 0 < i < |rs| then rs[i].bytes - rs[i - 1].bytes else 0.0
  }

  function OpsOf(rs: seq<Txn>, rr: bool): nat -> real {
    (i: nat) => if 0 < i < |rs| then (rs[i].ops - rs[i - 1].ops) / (if rr then 2.0 else 1.0) else 0.0
  }

  function LatencyOf(rs: seq<Txn>, rr: bool): nat -> real {
    (i: nat) => if CountedAt(rs)(i) then (rs[i].ts - rs[i - 1].ts) / OpsOf(rs, rr)(i) * 1000.0 else 0.0
  }

  lemma OneInterval(rs: seq<Txn>, rr: bool, n: nat)
    requires n < |rs|
    ensures var s := Summarize(rs[..n], rr);
            Summarize(rs[..n + 1], rr)
            == if CountedAt(rs)(n) then
                 Summary(s.bytes + [BytesOf(rs)(n)], s.lat + [LatencyOf(rs, rr)(n)], s.ops + [OpsOf(rs, rr)(n)])
               else s
  {
    assert rs[..n + 1][..n] == rs[..n];
  }

  /** The lists of a summary pick the values of f, g and h where p holds. */
  ghost predicate Sampled(s: Summary, n: nat, p: nat -> bool, f: nat -> real, g: nat -> real, h: nat -> real) {
    Selected(s.bytes, n, p, f) && Selected(s.lat, n, p, g) && Selected(s.ops, n, p, h)
  }

  lemma SampledStep(s: Summary, n: nat, p: nat -> bool, f: nat -> real, g: nat -> real, h: nat -> real)
    requires Sampled(s, n, p, f, g, h)
    ensures Sampled(if p(n) then Summary(s.bytes + [f(n)], s.lat + [g(n)], s.ops + [h(n)]) else s, n + 1, p, f, g, h)
  {
    SelectedStep(s.bytes, n, p, f);
    SelectedStep(s.lat, n, p, g);
    SelectedStep(s.ops, n, p, h);
  }

  lemma {:induction false} SamplesUpTo(rs: seq<Txn>, rr: bool, n: nat)
    requires n <= |rs|
    ensures Sampled(Summarize(rs[..n], rr), n, CountedAt(rs), BytesOf(rs), LatencyOf(rs, rr), OpsOf(rs, rr))
  {
    if n == 0 {
      SelectedNone(CountedAt(rs), BytesOf(rs));
      SelectedNone(CountedAt(rs), LatencyOf(rs, rr));
      SelectedNone(CountedAt(rs), OpsOf(rs, rr));
    } else {
      SamplesUpTo(rs, rr, n - 1);
      OneInterval(rs, rr, n - 1);
      SampledStep(Summarize(rs[..n - 1], rr), n - 1, CountedAt(rs), BytesOf(rs), LatencyOf(rs, rr), OpsOf(rs, rr));
    }
  }

  /** The samples are those of the intervals in which operations were done and whose start has a nonzero timestamp, in
      order and no others. */
  lemma SamplesExactly(rs: seq<Txn>, rr: bool)
    ensures Sampled(Summarize(rs, rr), |rs|, CountedAt(rs), BytesOf(rs), LatencyOf(rs, rr), OpsOf(rs, rr))
  {
    SamplesUpTo(rs, rr, |rs|);
    assert rs[..|rs|] == rs;
  }

  // ---- Conservation ----

  function Total(xs: seq<real>): real {
    if xs == [] then 0.0 else Total(xs[..|xs| - 1]) + xs[|xs| - 1]
  }

  function Weighted(ops: seq<real>, lat: seq<real>): real
    requires |ops| == |lat|
  {
    if ops == [] then 0.0
    else Weighted(ops[..|ops| - 1], lat[..|lat| - 1]) + Product(ops[|ops| - 1], lat[|lat| - 1])
  }

  /** What the intervals after the first record that give no sample carried. */
  function Skipped(rs: seq<Txn>): Txn {
    if |rs| <= 1 then START
    else
      var before, p, r := Skipped(rs[..|rs| - 1]), Last(rs[..|rs| - 1]), rs[|rs| - 1];
      if Counted(p, r) then before
      else Txn(before.ts + r.ts - p.ts, before.bytes + r.bytes - p.bytes, before.ops + r.ops - p.ops)
  }

  lemma {:induction false} SameLength(rs: seq<Txn>, rr: bool)
    ensures var s := Summarize(rs, rr); |s.bytes| == |s.lat| == |s.ops|
    ensures rs != [] ==> |Summarize(rs, rr).ops| <= |rs| - 1
    ensures rs == [] ==> |Summarize(rs, rr).ops| == 0
  {
    if rs != [] {
      SameLength(rs[..|rs| - 1], rr);
    }
  }

  lemma TotalAppended(xs: seq<real>, x: real)
    ensures Total(xs + [x]) == Total(xs) + x
  {
    assert (xs + [x])[..|xs|] == xs;
  }

  lemma {:induction false} BytesConserved(rs: seq<Txn>, rr: bool)
    requires rs != []
    ensures Total(Summarize(rs, rr).bytes) == Last(rs).bytes - rs[0].bytes - Skipped(rs).bytes
  {
    var before := rs[..|rs| - 1];
    if before != [] {
      BytesConserved(before, rr);
      TotalAppended(Summarize(before, rr).bytes, Last(rs).bytes - Last(before).bytes);
    }
  }

  lemma {:induction false} OpsConserved(rs: seq<Txn>, rr: bool)
    requires rs != []
    ensures Operations(Total(Summarize(rs, rr).ops), rr) == Last(rs).ops - rs[0].ops - Skipped(rs).ops
  {
    var before := rs[..|rs| - 1];
    if before != [] {
      OpsConserved(before, rr);
      TotalAppended(Summarize(before, rr).ops, Normalized(Last(rs).ops - Last(before).ops, rr));
    }
  }

  /** The durations of the intervals that give a sample. */
  function Times(rs: seq<Txn>): seq<real> {
    if rs == [] then []
    else
      var before, p, r := Times(rs[..|rs| - 1]), Last(rs[..|rs| - 1]), rs[|rs| - 1];
      if Counted(p, r) then before + [r.ts - p.ts] else before
  }

  lemma {:induction false} TimesConserved(rs: seq<Txn>)
    requires rs != []
    ensures Total(Times(rs)) == Last(rs).ts - rs[0].ts - Skipped(rs).ts
  {
    var before := rs[..|rs| - 1];
    if before != [] {
      TimesConserved(before);
      TotalAppended(Times(before), Last(rs).ts - Last(before).ts);
    }
  }

  /** A latency is the duration of its interval divided by its operations. */
  lemma {:induction false} LatencyOfInterval(rs: seq<Txn>, rr: bool)
    ensures var s := Summarize(rs, rr);
            && |s.ops| == |s.lat| == |Times(rs)|
            && forall i :: 0 <= i < |s.ops| ==> Product(s.ops[i], s.lat[i]) == 1000.0 * Times(rs)[i]
  {
    if rs != [] {
      var before := rs[..|rs| - 1];
      LatencyOfInterval(before, rr);
      var p, r := Last(before), Last(rs);
      if Counted(p, r) {
        TimePerOperation(r.ts - p.ts, Normalized(r.ops - p.ops, rr));
      }
    }
  }

  lemma {:induction false} WeightedByTime(ops: seq<real>, lat: seq<real>, times: seq<real>)
    requires |ops| == |lat| == |times|
    requires forall i :: 0 <= i < |ops| ==> Product(ops[i], lat[i]) == 1000.0 * times[i]
    ensures Weighted(ops, lat) == 1000.0 * Total(times)
  {
    if ops != [] {
      WeightedByTime(ops[..|ops| - 1], lat[..|ops| - 1], times[..|ops| - 1]);
    }
  }

  /** Nothing is lost or invented: samples plus skipped intervals make up the difference between the last and
      the first record, for bytes, operations and time; latency is time per operation. */
  lemma Conservation(rs: seq<Txn>, rr: bool)
    requires rs != []
    ensures |Summarize(rs, rr).ops| == |Summarize(rs, rr).lat|
    ensures var s, skip, first, last := Summarize(rs, rr), Skipped(rs), rs[0], Last(rs);
            && Operations(Total(s.ops), rr) == last.ops - first.ops - skip.ops
            && Total(s.bytes) == last.bytes - first.bytes - skip.bytes
            && Weighted(s.ops, s.lat) == 1000.0 * (last.ts - first.ts - skip.ts)
  {
    BytesConserved(rs, rr);
    OpsConserved(rs, rr);
    TimesConserved(rs);
    LatencyOfInterval(rs, rr);
    WeightedByTime(Summarize(rs, rr).ops, Summarize(rs, rr).lat, Times(rs));
  }

  lemma TimePerOperation(time: real, ops: real)
    requires ops != 0.0
    ensures Product(ops, time / ops * 1000.0) == 1000.0 * time
  {
    var q := time / ops;
    assert q * ops == time;
  }

  lemma {:induction false} IdleSkipsNoOps(rs: seq<Txn>)
    requires forall i :: 0 <= i < |rs| ==> rs[i].ts != 0.0
    ensures Skipped(rs).ops == 0.0
  {
    if |rs| > 1 {
      IdleSkipsNoOps(rs[..|rs| - 1]);
    }
  }

  /** With nonzero timestamps the samples account for every operation, idle intervals or not. */
  lemma {:induction false} AllOperationsCounted(rs: seq<Txn>, rr: bool)
    requires rs != [] && forall i :: 0 <= i < |rs| ==> rs[i].ts != 0.0
    ensures Operations(Total(Summarize(rs, rr).ops), rr) == Last(rs).ops - rs[0].ops
  {
    Conservation(rs, rr);
    IdleSkipsNoOps(rs);
  }

  // ---- Translation invariance ----

  function Moved(rs: seq<Txn>, d: Txn): seq<Txn> {
    seq(|rs|, i requires 0 <= i < |rs| => Txn(rs[i].ts + d.ts, rs[i].bytes + d.bytes, rs[i].ops + d.ops))
  }

  /** Only differences of counters matter: moving the origin of any counter changes no sample, as long as the
      same timestamps are zero. */
  lemma {:induction false} OriginDoesNotMatter(rs: seq<Txn>, d: Txn, rr: bool)
    requires forall i :: 0 <= i < |rs| ==> (rs[i].ts + d.ts == 0.0 <==> rs[i].ts == 0.0)
    ensures Summarize(Moved(rs, d), rr) == Summarize(rs, rr)
  {
    if rs != [] {
      var before := rs[..|rs| - 1];
      assert Moved(rs, d)[..|rs| - 1] == Moved(before, d);
      OriginDoesNotMatter(before, d, rr);
    }
  }

  // ---- The reported throughput ----

  function Floats(xs: seq<real>): seq<Float> {
    seq(|xs|, i requires 0 <= i < |xs| => Num(xs[i]))
  }

  lemma {:induction false} SumOfFloats(xs: seq<real>)
    ensures Sum(Floats(xs)) == Num(Total(xs))
  {
    if xs != [] {
      assert Floats(xs)[..|xs| - 1] == Floats(xs[..|xs| - 1]);
      SumOfFloats(xs[..|xs| - 1]);
    }
  }

  /** sample.Throughput */
  function Throughput(s: Summary, rr: bool): Float {
    if rr then Average(Floats(s.ops))
    else match Average(Floats(s.bytes))
      case Num(x) => Num(x * 8.0 / 1000000.0)
      case special => special
  }

  /** A run without samples reports NaN; otherwise a RR run reports its transactions, and a STREAM run its
      megabits outside the skipped intervals, divided by the number of samples. */
  lemma ThroughputIsAverageRate(rs: seq<Txn>, rr: bool)
    requires rs != []
    ensures var s, n := Summarize(rs, rr), |Summarize(rs, rr).ops|;
            var f := Throughput(s, rr);
            var ops := Last(rs).ops - rs[0].ops - Skipped(rs).ops;
            var bytes := Last(rs).bytes - rs[0].bytes - Skipped(rs).bytes;
            && (n == 0 <==> f == NaN)
            && (n > 0 && rr ==> f == Num(ops / 2.0 / n as real))
            && (n > 0 && !rr ==> f == Num(bytes / n as real * 8.0 / 1000000.0))
  {
    Conservation(rs, rr);
    SameLength(rs, rr);
    SumOfFloats(Summarize(rs, rr).ops);
    SumOfFloats(Summarize(rs, rr).bytes);
  }
}

/** pkg/results/result.go: recorded results and the pass/fail comparison, with the exit code of
    cmd/k8s-netperf/k8s-netperf.go. */
module Results {
  import opened Config

  /** A float64 without rounding: the finite reals and the special values. */
  datatype Float = NaN | PosInf | NegInf | Num(r: real)

  function Add(a: Float, b: Float): Float {
    match (a, b)
    case (Num(x), Num(y)) => Num(x + y)
    case (NaN, _) => NaN
    case (_, NaN) => NaN
    case (PosInf, NegInf) => NaN
    case (NegInf, PosInf) => NaN
    case (Num(_), _) => b
    case (_, _) => a
  }

  predicate Less(a: Float, b: Float) {
    match (a, b)
    case (Num(x), Num(y)) => x < y
    case (NaN, _) => false
    case (_, NaN) => false
    case (PosInf, _) => false
    case (_, NegInf) => false
    case (_, _) => true
  }

  const ZERO := Num(0.0)

  /** IEEE comparison: NaN compares with nothing, the infinities lie at the two ends. */
  lemma LessExactly(a: Float, b: Float)
    ensures Less(a, b) <==>
            a != NaN && b != NaN && a != b && (a == NegInf || b == PosInf || (a.Num? && b.Num? && a.r < b.r))
  {
  }

  /** The sorts of values a sum can have. */
  lemma {:induction false} SumExactly(vals: seq<Float>)
    ensures Sum(vals) == NaN <==> NaN in vals || (PosInf in vals && NegInf in vals)
    ensures Sum(vals).Num? <==> forall i :: 0 <= i < |vals| ==> vals[i].Num?
    ensures Sum(vals) == PosInf ==> PosInf in vals
    ensures Sum(vals) == NegInf ==> NegInf in vals
  {
    if vals != [] {
      var init, last := vals[..|vals| - 1], vals[|vals| - 1];
      SumExactly(init);
      assert forall x :: x in vals <==> x in init || x == last;
    }
  }

  /** The positions below n at which p holds, in order. */
  ghost predicate Picks(idx: seq<nat>, n: nat, p: nat -> bool) {
    && (forall k, l :: 0 <= k < l < |idx| ==> idx[k] < idx[l])
    && (forall i: nat :: i in idx <==> i < n && p(i))
  }

  ghost predicate Lists<T>(out: seq<T>, idx: seq<nat>, f: nat -> T) {
    |out| == |idx| && forall k :: 0 <= k < |idx| ==> out[k] == f(idx[k])
  }

  /** The values of f at these positions, in order and nothing else. */
  ghost predicate Selected<T>(out: seq<T>, n: nat, p: nat -> bool, f: nat -> T) {
    exists idx :: Picks(idx, n, p) && Lists(out, idx, f)
  }

  lemma PicksStep(idx: seq<nat>, n: nat, p: nat -> bool)
    requires Picks(idx, n, p)
    ensures Picks(if p(n) then idx + [n] else idx, n + 1, p)
  {
    forall k | 0 <= k < |idx| ensures idx[k] < n {
      assert idx[k] in idx;
    }
  }

  lemma SelectedNone<T>(p: nat -> bool, f: nat -> T)
    ensures Selected([], 0, p, f)
  {
    var idx: seq<nat> := [];
    assert Picks(idx, 0, p) && Lists([], idx, f);
  }

  lemma SelectedStep<T>(out: seq<T>, n: nat, p: nat -> bool, f: nat -> T)
    requires Selected(out, n, p, f)
    ensures Selected(if p(n) then out + [f(n)] else out, n + 1, p, f)
  {
    var idx :| Picks(idx, n, p) && Lists(out, idx, f);
    PicksStep(idx, n, p);
    if p(n) {
      assert Lists(out + [f(n)], idx + [n], f);
    }
  }

  function Product(x: real, y: real): real {
    x * y
  }

  lemma Unscaled(a: real, b: real, s: real)
    requires Product(a, s) <= Product(b, s) && s > 0.0
    ensures a <= b
  {
  }

  function Sum(vals: seq<Float>): Float {
    if vals == [] then ZERO else Add(Sum(vals[..|vals| - 1]), vals[|vals| - 1])
  }

  /** stats.Mean, which reports NaN for an empty list. */
  function Average(vals: seq<Float>): Float {
    if vals == [] then NaN
    else match Sum(vals)
      case Num(x) => Num(x / |vals| as real)
      case special => special
  }

  /** result.Data. The node infos are the node indices of the archived NodeInfo records. */
  datatype Data = Data(
    config: Config,
    driver: Driver,
    metric: string,
    sameNode: bool,
    hostNetwork: bool,
    service: bool,
    acrossAZ: bool,
    virt: bool,
    externalServer: bool,
    clientNode: int,
    serverNode: int,
    throughput: seq<Float>,
    latencyAvg: seq<Float>,
    latency50: seq<Float>,
    latency99: seq<Float>,
    loss: seq<Float>,
    retransmit: seq<Float>)

  method CheckHostResults(rs: seq<Data>) returns (found: bool)
    ensures found <==> exists i :: 0 <= i < |rs| && rs[i].hostNetwork
  {
    for t := 0 to |rs|
      invariant forall i :: 0 <= i < t ==> !rs[i].hostNetwork
    {
      if rs[t].hostNetwork {
        return true;
      }
    }
    return false;
  }

  datatype DiffData = DiffData(messageSize: int, streams: int, hostPerf: Float, podPerf: Float)

  datatype Diff = Diff(messageSize: int, result: Float, streams: int)

  /** calDiff. With an infinite or NaN operand the quotient is NaN; a zero sum divides by zero. */
  function CalDiff(a: Float, b: Float): Float {
    if !a.Num? || !b.Num? then NaN
    else if a.r + b.r != 0.0 then Num((a.r - b.r) / ((a.r + b.r) / 2.0) * 100.0)
    else if a.r == b.r then NaN
    else if a.r > b.r then PosInf
    else NegInf
  }

  // ---- The one-pass meaning of the comparison ----

  /** A recorded result the comparison averages over. */
  predicate Compared(d: Data, host: bool, size: int, streams: int) {
    && d.config.profile == "TCP_STREAM" && !d.service && !d.virt
    && d.hostNetwork == host && d.config.messageSize == size && d.config.parallelism == streams
  }

  /** The mean of the last compared result whose mean is positive; zero when there is none. */
  function LastPositive(rs: seq<Data>, host: bool, size: int, streams: int): Float {
    if rs == [] then ZERO
    else
      var d := rs[|rs| - 1];
      if Compared(d, host, size, streams) && Less(ZERO, Average(d.throughput)) then Average(d.throughput)
      else LastPositive(rs[..|rs| - 1], host, size, streams)
  }

  /** A host result that gets a Diff of its own. */
  predicate Judged(d: Data) {
    !d.service && d.config.parallelism == 1 && d.hostNetwork && d.config.profile == "TCP_STREAM"
  }

  function DiffOf(rs: seq<Data>, size: int): Diff {
    Diff(size, CalDiff(LastPositive(rs, true, size, 1), LastPositive(rs, false, size, 1)), 1)
  }

  function Diffs(all: seq<Data>, rs: seq<Data>): seq<Diff> {
    if rs == [] then []
    else
      var d := rs[|rs| - 1];
      Diffs(all, rs[..|rs| - 1]) + if Judged(d) then [DiffOf(all, d.config.messageSize)] else []
  }

  // ---- The two-pass code ----

  function LastHost(ds: seq<DiffData>, size: int, streams: int): Float {
    if ds == [] then ZERO
    else
      var d := ds[|ds| - 1];
      if d.messageSize == size && d.streams == streams && Less(ZERO, d.hostPerf) then d.hostPerf
      else LastHost(ds[..|ds| - 1], size, streams)
  }

  function LastPod(ds: seq<DiffData>, size: int, streams: int): Float {
    if ds == [] then ZERO
    else
      var d := ds[|ds| - 1];
      if d.messageSize == size && d.streams == streams && Less(ZERO, d.podPerf) then d.podPerf
      else LastPod(ds[..|ds| - 1], size, streams)
  }

  /** The collected pairs give the same last positive means as the results. */
  ghost predicate FirstPass(ds: seq<DiffData>, rs: seq<Data>) {
    forall size, streams ::
      && LastHost(ds, size, streams) == LastPositive(rs, true, size, streams)
      && LastPod(ds, size, streams) == LastPositive(rs, false, size, streams)
  }

  /** What the first pass appends for a result. */
  function PairsOf(t: Data): seq<DiffData> {
    if t.config.profile == "TCP_STREAM" && !t.service && !t.virt then
      [DiffData(t.config.messageSize, t.config.parallelism,
                if t.hostNetwork then Average(t.throughput) else ZERO,
                if t.hostNetwork then ZERO else Average(t.throughput))]
    else []
  }

  lemma PairAppended(ds: seq<DiffData>, d: DiffData, size: int, streams: int)
    ensures LastHost(ds + [d], size, streams)
         == if d.messageSize == size && d.streams == streams && Less(ZERO, d.hostPerf) then d.hostPerf
            else LastHost(ds, size, streams)
    ensures LastPod(ds + [d], size, streams)
         == if d.messageSize == size && d.streams == streams && Less(ZERO, d.podPerf) then d.podPerf
            else LastPod(ds, size, streams)
  {
    assert (ds + [d])[..|ds|] == ds;
  }

  lemma ResultAppended(rs: seq<Data>, t: Data, host: bool, size: int, streams: int)
    ensures LastPositive(rs + [t], host, size, streams)
         == if Compared(t, host, size, streams) && Less(ZERO, Average(t.throughput)) then Average(t.throughput)
            else LastPositive(rs, host, size, streams)
  {
    assert (rs + [t])[..|rs|] == rs;
  }

  lemma FirstPassStep(ds: seq<DiffData>, rs: seq<Data>, t: Data)
    requires FirstPass(ds, rs)
    ensures FirstPass(ds + PairsOf(t), rs + [t])
  {
    forall size, streams
      ensures LastHost(ds + PairsOf(t), size, streams) == LastPositive(rs + [t], true, size, streams)
      ensures LastPod(ds + PairsOf(t), size, streams) == LastPositive(rs + [t], false, size, streams)
    {
      ResultAppended(rs, t, true, size, streams);
      ResultAppended(rs, t, false, size, streams);
      if PairsOf(t) == [] {
        assert ds + PairsOf(t) == ds;
      } else {
        PairAppended(ds, PairsOf(t)[0], size, streams);
      }
    }
  }

  method DoPerfDiff(ds: seq<DiffData>, msg: int, streams: int) returns (r: Float)
    ensures r == CalDiff(LastHost(ds, msg, streams), LastPod(ds, msg, streams))
  {
    var host, pod := ZERO, ZERO;
    for i := 0 to |ds|
      invariant host == LastHost(ds[..i], msg, streams)
      invariant pod == LastPod(ds[..i], msg, streams)
    {
      assert ds[..i + 1][..i] == ds[..i];
      var d := ds[i];
      if d.messageSize == msg && d.streams == streams {
        if Less(ZERO, d.hostPerf) {
          host := d.hostPerf;
        }
        if Less(ZERO, d.podPerf) {
          pod := d.podPerf;
        }
      }
    }
    assert ds[..|ds|] == ds;
    r := CalDiff(host, pod);
  }

  /** The percentage of a host mean h and a pod mean p: their difference by their average; NaN without a finite
      positive sum. */
  predicate Percentage(x: Float, h: Float, p: Float) {
    if h.Num? && p.Num? && h.r + p.r > 0.0 then x == Num((h.r - p.r) / ((h.r + p.r) / 2.0) * 100.0) else x == NaN
  }

  /** The host results of a single TCP stream without a service. */
  function JudgedAt(rs: seq<Data>): nat -> bool {
    (i: nat) =>
      && i < |rs| && rs[i].hostNetwork && !rs[i].service
      && rs[i].config.parallelism == 1 && rs[i].config.profile == "TCP_STREAM"
  }

  /** The message size of a result. */
  function SizeAt(rs: seq<Data>): nat -> int {
    (i: nat) => if i < |rs| then rs[i].config.messageSize else 0
  }

  /** d compares the last positive means of its message size over all results. */
  predicate ComparesAll(rs: seq<Data>, d: Diff) {
    && d.streams == 1
    && Percentage(d.result, LastPositive(rs, true, d.messageSize, 1), LastPositive(rs, false, d.messageSize, 1))
  }

  /** The message sizes of the Diffs. */
  function Sizes(res: seq<Diff>): seq<int> {
    seq(|res|, k requires 0 <= k < |res| => res[k].messageSize)
  }

  /** One Diff for each of these results among the first n, in order, with its size and the percentage of that size. */
  ghost predicate OneDiffUpTo(rs: seq<Data>, res: seq<Diff>, n: nat) {
    && Selected(Sizes(res), n, JudgedAt(rs), SizeAt(rs))
    && forall k :: 0 <= k < |res| ==> ComparesAll(rs, res[k])
  }

  ghost predicate OneDiffEach(rs: seq<Data>, res: seq<Diff>) {
    OneDiffUpTo(rs, res, |rs|)
  }

  /** A compared result with a positive mean. */
  predicate Hits(d: Data, host: bool, size: int, streams: int) {
    Compared(d, host, size, streams) && Less(ZERO, Average(d.throughput))
  }

  predicate LastHit(rs: seq<Data>, i: nat, host: bool, size: int, streams: int) {
    i < |rs| && Hits(rs[i], host, size, streams) && forall k :: i < k < |rs| ==> !Hits(rs[k], host, size, streams)
  }

  /** The last compared result with a positive mean decides; without one the value is zero. */
  lemma {:induction false} LastPositiveDecides(rs: seq<Data>, host: bool, size: int, streams: int) returns (i: int)
    ensures i == -1 ==> LastPositive(rs, host, size, streams) == ZERO
    ensures i == -1 ==> forall k :: 0 <= k < |rs| ==> !Hits(rs[k], host, size, streams)
    ensures i != -1 ==> i >= 0 && LastHit(rs, i, host, size, streams)
                        && LastPositive(rs, host, size, streams) == Average(rs[i].throughput)
  {
    if rs == [] {
      i := -1;
    } else if Hits(rs[|rs| - 1], host, size, streams) {
      i := |rs| - 1;
    } else {
      i := LastPositiveDecides(rs[..|rs| - 1], host, size, streams);
    }
  }

  lemma DiffCompares(rs: seq<Data>, size: int)
    ensures ComparesAll(rs, DiffOf(rs, size))
  {
    LastPositiveSign(rs, true, size, 1);
    LastPositiveSign(rs, false, size, 1);
  }

  lemma SizesAppended(res: seq<Diff>, d: Diff)
    ensures Sizes(res + [d]) == Sizes(res) + [d.messageSize]
  {
  }

  lemma OneDiffStep(rs: seq<Data>, res: seq<Diff>, n: nat, d: Diff)
    requires OneDiffUpTo(rs, res, n) && d.messageSize == SizeAt(rs)(n) && ComparesAll(rs, d)
    ensures OneDiffUpTo(rs, if JudgedAt(rs)(n) then res + [d] else res, n + 1)
  {
    SelectedStep(Sizes(res), n, JudgedAt(rs), SizeAt(rs));
    SizesAppended(res, d);
  }

  lemma DiffAppended(rs: seq<Data>, n: nat)
    requires n < |rs|
    ensures var res := Diffs(rs, rs[..n]);
            Diffs(rs, rs[..n + 1]) == if JudgedAt(rs)(n) then res + [DiffOf(rs, SizeAt(rs)(n))] else res
  {
    assert rs[..n + 1][..n] == rs[..n];
  }

  lemma {:induction false} DiffsListed(rs: seq<Data>, n: nat)
    requires n <= |rs|
    ensures OneDiffUpTo(rs, Diffs(rs, rs[..n]), n)
  {
    if n == 0 {
      SelectedNone(JudgedAt(rs), SizeAt(rs));
    } else {
      DiffsListed(rs, n - 1);
      DiffAppended(rs, n - 1);
      DiffCompares(rs, SizeAt(rs)(n - 1));
      OneDiffStep(rs, Diffs(rs, rs[..n - 1]), n - 1, DiffOf(rs, SizeAt(rs)(n - 1)));
    }
  }

  /** The two-pass TCPThroughputDiff computes the one-pass list of Diffs. */
  method TCPThroughputDiff(rs: seq<Data>) returns (res: seq<Diff>)
    ensures res == Diffs(rs, rs)
    ensures OneDiffEach(rs, res)
  {
    var diffRes: seq<DiffData> := [];
    for i := 0 to |rs|
      invariant FirstPass(diffRes, rs[..i])
    {
      assert rs[..i + 1] == rs[..i] + [rs[i]];
      ghost var before := diffRes;
      var t := rs[i];
      if t.config.profile == "TCP_STREAM" {
        if !t.service && !t.virt {
          var diff;
          if t.hostNetwork {
            diff := DiffData(t.config.messageSize, t.config.parallelism, Average(t.throughput), ZERO);
          } else {
            diff := DiffData(t.config.messageSize, t.config.parallelism, ZERO, Average(t.throughput));
          }
          diffRes := diffRes + [diff];
        }
      }
      assert diffRes == before + PairsOf(t);
      FirstPassStep(before, rs[..i], t);
    }
    assert rs[..|rs|] == rs;
    res := [];
    for i := 0 to |rs|
      invariant res == Diffs(rs, rs[..i])
    {
      assert rs[..i + 1][..i] == rs[..i];
      var msg := rs[i];
      if !msg.service && msg.config.parallelism == 1 && msg.hostNetwork && msg.config.profile == "TCP_STREAM" {
        var r := DoPerfDiff(diffRes, msg.config.messageSize, 1);
        res := res + [Diff(msg.config.messageSize, r, msg.config.parallelism)];
      }
    }
    assert rs[..|rs|] == rs;
    DiffsListed(rs, |rs|);
  }

  /** The last block of the Run function: the process exit code. */
  method ExitCode(rs: seq<Data>, hostNetOnly: bool, tcpt: real) returns (retCode: int)
    ensures retCode == if Fails(rs, hostNetOnly, tcpt) then 1 else 0
  {
    retCode := 0;
    var hosts := CheckHostResults(rs);
    if !hostNetOnly && hosts {
      var diffs := TCPThroughputDiff(rs);
      for i := 0 to |diffs|
        invariant retCode == if exists j :: 0 <= j < i && Less(Num(tcpt), diffs[j].result) then 1 else 0
      {
        if Less(Num(tcpt), diffs[i].result) {
          retCode := 1;
        }
      }
      DiffsCover(rs, rs, tcpt);
    }
    forall i | 0 <= i < |rs|
      ensures Exceeds(rs, rs[i].config.messageSize, tcpt)
          <==> Less(Num(tcpt), DiffOf(rs, rs[i].config.messageSize).result)
    {
      DiffExceedsTolerance(rs, rs[i].config.messageSize, tcpt);
    }
  }

  /** With the mean host throughput h and pod throughput p of a message size: p is too far below h. */
  predicate Exceeds(rs: seq<Data>, size: int, tcpt: real) {
    var h := LastPositive(rs, true, size, 1);
    var p := LastPositive(rs, false, size, 1);
    h.Num? && p.Num? && p.r * (200.0 + tcpt) < h.r * (200.0 - tcpt)
  }

  /** The verdict in one line. */
  predicate Fails(rs: seq<Data>, hostNetOnly: bool, tcpt: real) {
    !hostNetOnly && exists i :: 0 <= i < |rs| && Judged(rs[i]) && Exceeds(rs, rs[i].config.messageSize, tcpt)
  }

  lemma {:induction false} LastPositiveSign(rs: seq<Data>, host: bool, size: int, streams: int)
    ensures var f := LastPositive(rs, host, size, streams); f == ZERO || Less(ZERO, f)
  {
    if rs != [] {
      LastPositiveSign(rs[..|rs| - 1], host, size, streams);
    }
  }

  /** The percentage compared with the tolerance, without its division. */
  lemma DiffExceedsTolerance(rs: seq<Data>, size: int, tcpt: real)
    ensures Less(Num(tcpt), DiffOf(rs, size).result) <==> Exceeds(rs, size, tcpt)
  {
    LastPositiveSign(rs, true, size, 1);
    LastPositiveSign(rs, false, size, 1);
    var h := LastPositive(rs, true, size, 1);
    var p := LastPositive(rs, false, size, 1);
    if h.Num? && p.Num? && h.r + p.r != 0.0 {
      QuotientAbove(h.r, p.r, tcpt);
    }
  }

  lemma QuotientAbove(h: real, p: real, t: real)
    requires h + p > 0.0
    ensures t < (h - p) / ((h + p) / 2.0) * 100.0 <==> p * (200.0 + t) < h * (200.0 - t)
  {
    var half := (h + p) / 2.0;
    var q := (h - p) / half;
    assert q * half == h - p;
    if t < q * 100.0 {
      assert (q * 100.0 - t) * half > 0.0;
    } else {
      assert (t - q * 100.0) * half >= 0.0;
    }
    assert (q * 100.0 - t) * half == (h - p) * 100.0 - t * half;
  }

  lemma {:induction false} DiffsCover(all: seq<Data>, rs: seq<Data>, tcpt: real)
    ensures (exists j :: 0 <= j < |Diffs(all, rs)| && Less(Num(tcpt), Diffs(all, rs)[j].result))
       <==> (exists i :: 0 <= i < |rs| && Judged(rs[i])
                      && Less(Num(tcpt), DiffOf(all, rs[i].config.messageSize).result))
  {
    if rs != [] {
      var before := rs[..|rs| - 1];
      DiffsCover(all, before, tcpt);
      var short, long := Diffs(all, before), Diffs(all, rs);
      assert forall j :: 0 <= j < |short| ==> long[j] == short[j];
      assert forall i :: 0 <= i < |before| ==> rs[i] == before[i];
      if Judged(rs[|rs| - 1]) {
        assert long[|short|] == DiffOf(all, rs[|rs| - 1].config.messageSize);
      }
    }
  }
}

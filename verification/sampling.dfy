/** cmd/k8s-netperf/k8s-netperf.go: the sample loop of executeWorkload. What driver.Run and
    driver.ParseResults answer is an oracle, given as the list of their answers in call order. */
module Sampling {
  import opened Results

  /** sample.Sample */
  datatype Sample = Sample(
    latency: Float,
    latency50: Float,
    latency99: Float,
    throughput: Float,
    lossPercent: Float,
    retransmits: Float)

  /** One call of Run, followed by ParseResults when Run succeeds. */
  datatype Attempt = RunError | ParseError | Parsed(sample: Sample)

  /** A sample, log.Fatal, or still waiting for an answer the script does not hold. */
  datatype Fetch = Got(sample: Sample, rest: seq<Attempt>) | Fatal | Waiting

  const RETRY := 3

  function RetryLoop(script: seq<Attempt>, try: nat): Fetch {
    if try >= RETRY then Fatal
    else if script == [] then Waiting
    else match script[0]
      case RunError => RetryLoop(script[1..], try)
      case ParseError => RetryLoop(script[1..], try + 1)
      case Parsed(s) => Got(s, script[1..])
  }

  function FetchOne(script: seq<Attempt>): Fetch {
    if script == [] then Waiting
    else match script[0]
      case RunError => Fatal
      case ParseError => RetryLoop(script[1..], 0)
      case Parsed(s) => Got(s, script[1..])
  }

  datatype Collected = Collected(samples: seq<Sample>, rest: seq<Attempt>) | Aborted | Pending

  /** n samples in a row. */
  function Collect(script: seq<Attempt>, n: nat): (r: Collected)
    ensures r.Collected? ==> |r.samples| == n
  {
    if n == 0 then Collected([], script)
    else match Collect(script, n - 1)
      case Collected(samples, rest) =>
        (match FetchOne(rest)
         case Got(s, after) => Collected(samples + [s], after)
         case Fatal => Aborted
         case Waiting => Pending)
      case stopped => stopped
  }

  /** The retry loop: a failed Run does not advance `try`. */
  method Retry(script: seq<Attempt>, start: nat) returns (r: Fetch, next: nat)
    requires start <= |script|
    ensures r == RetryLoop(script[start..], 0)
    ensures start <= next <= |script| && (r.Got? ==> r.rest == script[next..])
  {
    var try := 0;
    next := start;
    while try < RETRY
      invariant start <= next <= |script| && try <= RETRY
      invariant RetryLoop(script[start..], 0) == RetryLoop(script[next..], try)
      decreases |script| - next
    {
      if next == |script| {
        return Waiting, next;
      }
      assert script[next..][1..] == script[next + 1..];
      var answer := script[next];
      next := next + 1;
      match answer {
        case RunError =>
        case ParseError => try := try + 1;
        case Parsed(s) => return Got(s, script[next..]), next;
      }
    }
    r := Fatal;
  }

  /** One turn of the sample loop. */
  method OneSample(script: seq<Attempt>, start: nat) returns (r: Fetch, next: nat)
    requires start <= |script|
    ensures r == FetchOne(script[start..])
    ensures start <= next <= |script| && (r.Got? ==> r.rest == script[next..])
  {
    if start == |script| {
      return Waiting, start;
    }
    assert script[start..][1..] == script[start + 1..];
    match script[start] {
      case RunError => r, next := Fatal, start + 1;
      case Parsed(s) => r, next := Got(s, script[start + 1..]), start + 1;
      case ParseError => r, next := Retry(script, start + 1);
    }
  }

  // ---- What the loop accepts ----

  lemma FirstCounted(b: seq<Attempt>, a: Attempt)
    requires b != []
    ensures multiset(b)[a] == multiset(b[1..])[a] + if b[0] == a then 1 else 0
  {
    assert b == [b[0]] + b[1..];
  }

  /** b holds no successful parse. */
  predicate AllFailed(b: seq<Attempt>) {
    forall i :: 0 <= i < |b| ==> !b[i].Parsed?
  }

  /** The answers that lead to a sample: none failed, or first a failed parse (not a failed Run), then any
      number of failed Runs and at most two more failed parses. */
  predicate Tolerated(b: seq<Attempt>) {
    AllFailed(b) && (b != [] ==> b[0] == ParseError) && multiset(b)[ParseError] <= 3
  }

  /** The answers that end the process: a failed Run first, or four failed parses, the last of them last. */
  predicate Hopeless(b: seq<Attempt>) {
    && b != [] && AllFailed(b)
    && (b == [RunError] || (b[0] == ParseError && multiset(b)[ParseError] == 4 && b[|b| - 1] == ParseError))
  }

  /** Prefix of length n. */
  predicate Starts(b: seq<Attempt>, script: seq<Attempt>) {
    |b| <= |script| && script[..|b|] == b
  }

  lemma {:induction false} RetryGot(script: seq<Attempt>, try: nat, b: seq<Attempt>, s: Sample, rest: seq<Attempt>)
    requires AllFailed(b) && script == b + [Parsed(s)] + rest && try <= RETRY
    ensures RetryLoop(script, try) == if multiset(b)[ParseError] + try < RETRY then Got(s, rest) else Fatal
  {
    if b == [] {
      assert script[0] == Parsed(s) && script[1..] == rest;
    } else {
      assert script[0] == b[0] && script[1..] == b[1..] + [Parsed(s)] + rest;
      FirstCounted(b, ParseError);
      if try < RETRY {
        RetryGot(script[1..], if b[0] == ParseError then try + 1 else try, b[1..], s, rest);
      }
    }
  }

  lemma {:induction false} RetryNever(script: seq<Attempt>, try: nat)
    requires AllFailed(script) && try <= RETRY
    ensures RetryLoop(script, try) == if multiset(script)[ParseError] + try < RETRY then Waiting else Fatal
  {
    if script != [] {
      FirstCounted(script, ParseError);
    }
    if script != [] && try < RETRY {
      RetryNever(script[1..], if script[0] == ParseError then try + 1 else try);
    }
  }

  /** Every script is all failures, or failures up to a first successful parse. */
  lemma {:induction false} FirstParse(script: seq<Attempt>) returns (b: seq<Attempt>, rest: seq<Attempt>)
    ensures AllFailed(b)
    ensures (script == b && rest == [])
         || (|b| < |script| && script[|b|].Parsed? && script == b + [script[|b|]] + rest)
  {
    if script == [] {
      b, rest := [], [];
    } else if script[0].Parsed? {
      b, rest := [], script[1..];
    } else {
      b, rest := FirstParse(script[1..]);
      b := [script[0]] + b;
    }
  }

  lemma FetchParsed(script: seq<Attempt>, b: seq<Attempt>, s: Sample, rest: seq<Attempt>)
    requires AllFailed(b) && script == b + [Parsed(s)] + rest
    ensures FetchOne(script) == if Tolerated(b) then Got(s, rest) else Fatal
  {
    if b == [] {
      assert script[0] == Parsed(s) && script[1..] == rest;
    } else {
      FirstCounted(b, ParseError);
      assert script[0] == b[0] && script[1..] == b[1..] + [Parsed(s)] + rest;
      RetryGot(script[1..], 0, b[1..], s, rest);
    }
  }

  lemma FetchFailed(script: seq<Attempt>)
    requires AllFailed(script)
    ensures FetchOne(script) == if Tolerated(script) then Waiting else Fatal
  {
    if script != [] {
      FirstCounted(script, ParseError);
      RetryNever(script[1..], 0);
    }
  }

  /** A sample comes from the first successful parse after tolerated failures and from nothing else, and the
      loop goes on right behind it; it waits for more answers exactly while all answers are tolerated. */
  lemma SampleComesFromParse(script: seq<Attempt>, s: Sample, rest: seq<Attempt>)
    ensures FetchOne(script) == Got(s, rest)
       <==> exists b :: Tolerated(b) && script == b + [Parsed(s)] + rest
    ensures FetchOne(script) == Waiting <==> Tolerated(script)
  {
    var b0, rest0 := FirstParse(script);
    if script == b0 {
      FetchFailed(script);
    } else {
      FetchParsed(script, b0, script[|b0|].sample, rest0);
    }
    forall b | Tolerated(b) && script == b + [Parsed(s)] + rest ensures FetchOne(script) == Got(s, rest) {
      FetchParsed(script, b, s, rest);
    }
  }

  lemma StartsBefore(script: seq<Attempt>, more: seq<Attempt>)
    requires script != [] && !script[0].Parsed? && Starts(more, script[1..]) && AllFailed(more)
    ensures var b := [script[0]] + more;
            && Starts(b, script) && AllFailed(b)
            && multiset(b)[ParseError] == multiset(more)[ParseError] + if script[0] == ParseError then 1 else 0
  {
    var b := [script[0]] + more;
    assert b[1..] == more;
    FirstCounted(b, ParseError);
    assert script[..|b|] == [script[0]] + script[1..][..|more|];
  }

  lemma {:induction false} FatalWitness(script: seq<Attempt>, try: nat) returns (b: seq<Attempt>)
    requires try <= RETRY && RetryLoop(script, try) == Fatal
    ensures Starts(b, script) && AllFailed(b) && multiset(b)[ParseError] == RETRY - try
    ensures b != [] ==> b[|b| - 1] == ParseError
  {
    if try == RETRY {
      b := [];
    } else {
      var more := FatalWitness(script[1..], if script[0] == ParseError then try + 1 else try);
      StartsBefore(script, more);
      b := [script[0]] + more;
      assert more == [] ==> script[0] == ParseError;
    }
  }

  lemma {:induction false} FatalEnough(b: seq<Attempt>, script: seq<Attempt>, try: nat)
    requires try <= RETRY && Starts(b, script) && AllFailed(b) && multiset(b)[ParseError] == RETRY - try
    ensures RetryLoop(script, try) == Fatal
  {
    if try < RETRY {
      FirstCounted(b, ParseError);
      assert b[0] == script[0] && script[1..][..|b[1..]|] == b[1..];
      FatalEnough(b[1..], script[1..], if b[0] == ParseError then try + 1 else try);
    }
  }

  lemma HopelessIsFatal(b: seq<Attempt>, script: seq<Attempt>)
    requires Hopeless(b) && Starts(b, script)
    ensures FetchOne(script) == Fatal
  {
    assert b[0] == script[0];
    FirstCounted(b, ParseError);
    if b[0] == ParseError {
      assert script[1..][..|b[1..]|] == b[1..];
      FatalEnough(b[1..], script[1..], 0);
    }
  }

  lemma FatalIsHopeless(script: seq<Attempt>) returns (b: seq<Attempt>)
    requires FetchOne(script) == Fatal
    ensures Hopeless(b) && Starts(b, script)
  {
    b := [script[0]];
    if script[0] == ParseError {
      var more := FatalWitness(script[1..], 0);
      StartsBefore(script, more);
      b := [script[0]] + more;
      assert more != [] && b[|b| - 1] == more[|more| - 1];
    }
  }

  /** The process ends in the sample loop exactly when the answers begin hopelessly. */
  lemma FatalExactly(script: seq<Attempt>)
    ensures FetchOne(script) == Fatal <==> exists b :: Hopeless(b) && Starts(b, script)
  {
    if FetchOne(script) == Fatal {
      var b := FatalIsHopeless(script);
    }
    forall b | Hopeless(b) && Starts(b, script) ensures FetchOne(script) == Fatal {
      HopelessIsFatal(b, script);
    }
  }

  /** The answers consumed by n samples: for each one, tolerated failures and the parse it comes from. */
  function Consumed(blocks: seq<seq<Attempt>>, samples: seq<Sample>): seq<Attempt>
    requires |blocks| == |samples|
  {
    if blocks == [] then []
    else
      var n := |blocks| - 1;
      Consumed(blocks[..n], samples[..n]) + blocks[n] + [Parsed(samples[n])]
  }

  predicate Explains(blocks: seq<seq<Attempt>>, samples: seq<Sample>) {
    |blocks| == |samples| && forall i :: 0 <= i < |blocks| ==> Tolerated(blocks[i])
  }

  lemma {:induction false} CollectedForth(script: seq<Attempt>, n: nat, samples: seq<Sample>, rest: seq<Attempt>)
    returns (blocks: seq<seq<Attempt>>)
    requires Collect(script, n) == Collected(samples, rest)
    ensures Explains(blocks, samples) && script == Consumed(blocks, samples) + rest
  {
    if n == 0 {
      blocks := [];
    } else {
      var before := Collect(script, n - 1);
      var last := samples[n - 1];
      blocks := CollectedForth(script, n - 1, before.samples, before.rest);
      SampleComesFromParse(before.rest, last, rest);
      var b :| Tolerated(b) && before.rest == b + [Parsed(last)] + rest;
      assert samples == before.samples + [last];
      ConsumedStep(blocks, before.samples, b, last, rest);
      blocks := blocks + [b];
    }
  }

  lemma ConsumedStep(blocks: seq<seq<Attempt>>, samples: seq<Sample>, b: seq<Attempt>, s: Sample, rest: seq<Attempt>)
    requires Explains(blocks, samples) && Tolerated(b)
    ensures Explains(blocks + [b], samples + [s])
    ensures Consumed(blocks + [b], samples + [s]) + rest == Consumed(blocks, samples) + (b + [Parsed(s)] + rest)
  {
    assert (blocks + [b])[..|blocks|] == blocks && (samples + [s])[..|blocks|] == samples;
  }

  lemma ConsumedLast(blocks: seq<seq<Attempt>>, samples: seq<Sample>, rest: seq<Attempt>)
    requires |blocks| == |samples| > 0
    ensures var n := |blocks| - 1;
            Consumed(blocks, samples) + rest ==
            Consumed(blocks[..n], samples[..n]) + (blocks[n] + [Parsed(samples[n])] + rest)
  {
  }

  lemma CollectStep(script: seq<Attempt>, n: nat, samples: seq<Sample>, mid: seq<Attempt>, s: Sample,
                    rest: seq<Attempt>)
    requires Collect(script, n) == Collected(samples, mid) && FetchOne(mid) == Got(s, rest)
    ensures Collect(script, n + 1) == Collected(samples + [s], rest)
  {
  }

  lemma LastBlock(blocks: seq<seq<Attempt>>, samples: seq<Sample>, rest: seq<Attempt>)
    requires Explains(blocks, samples) && samples != []
    ensures var n := |samples| - 1;
            && Explains(blocks[..n], samples[..n]) && samples == samples[..n] + [samples[n]]
            && FetchOne(blocks[n] + [Parsed(samples[n])] + rest) == Got(samples[n], rest)
  {
    var n := |samples| - 1;
    FetchParsed(blocks[n] + [Parsed(samples[n])] + rest, blocks[n], samples[n], rest);
  }

  lemma {:induction false} CollectedBack(script: seq<Attempt>, n: nat, samples: seq<Sample>, rest: seq<Attempt>,
                                         blocks: seq<seq<Attempt>>)
    requires |samples| == n && Explains(blocks, samples) && script == Consumed(blocks, samples) + rest
    ensures Collect(script, n) == Collected(samples, rest)
  {
    if n > 0 {
      var mid := blocks[n - 1] + [Parsed(samples[n - 1])] + rest;
      LastBlock(blocks, samples, rest);
      ConsumedLast(blocks, samples, rest);
      CollectedBack(script, n - 1, samples[..n - 1], mid, blocks[..n - 1]);
      CollectStep(script, n - 1, samples[..n - 1], mid, samples[n - 1], rest);
    }
  }

  /** A run of the loop that ends normally has exactly one sample per iteration, each from its own
      successful parse and in call order; and every such script ends normally with those samples. */
  lemma CollectedExactly(script: seq<Attempt>, n: nat, samples: seq<Sample>, rest: seq<Attempt>)
    ensures Collect(script, n) == Collected(samples, rest)
       <==> |samples| == n && exists blocks :: Explains(blocks, samples) && script == Consumed(blocks, samples) + rest
  {
    if Collect(script, n) == Collected(samples, rest) {
      var blocks := CollectedForth(script, n, samples, rest);
    }
    forall blocks | |samples| == n && Explains(blocks, samples) && script == Consumed(blocks, samples) + rest
      ensures Collect(script, n) == Collected(samples, rest)
    {
      CollectedBack(script, n, samples, rest, blocks);
    }
  }

  /** The answers begin with those of k samples. */
  ghost predicate Begins(script: seq<Attempt>, k: nat, samples: seq<Sample>, rest: seq<Attempt>) {
    |samples| == k && exists blocks :: Explains(blocks, samples) && script == Consumed(blocks, samples) + rest
  }

  ghost predicate EndsHopelessly(rest: seq<Attempt>) {
    exists b :: Hopeless(b) && Starts(b, rest)
  }

  lemma StopsBehind(script: seq<Attempt>, n: nat, k: nat, samples: seq<Sample>, rest: seq<Attempt>)
    requires k < n && Begins(script, k, samples, rest)
    ensures EndsHopelessly(rest) ==> Collect(script, n) == Aborted
    ensures Tolerated(rest) ==> Collect(script, n) == Pending
  {
    CollectedExactly(script, k, samples, rest);
    FatalExactly(rest);
    SampleComesFromParse(rest, Sample(ZERO, ZERO, ZERO, ZERO, ZERO, ZERO), []);
    if !FetchOne(rest).Got? {
      Stuck(script, k, n);
    }
  }

  lemma StopFound(script: seq<Attempt>, n: nat) returns (k: nat, samples: seq<Sample>, rest: seq<Attempt>)
    requires !Collect(script, n).Collected?
    ensures k < n && Begins(script, k, samples, rest)
    ensures if Collect(script, n) == Aborted then EndsHopelessly(rest) else Tolerated(rest)
  {
    var before;
    k, before := LastCollected(script, n);
    samples, rest := before.samples, before.rest;
    CollectedExactly(script, k, samples, rest);
    FatalExactly(rest);
    SampleComesFromParse(rest, Sample(ZERO, ZERO, ZERO, ZERO, ZERO, ZERO), []);
  }

  /** The loop ends the process exactly when fewer than n samples are followed by hopeless answers, and waits exactly
      when they are followed by tolerated ones alone. */
  lemma StopsExactly(script: seq<Attempt>, n: nat)
    ensures Collect(script, n) == Aborted <==>
            exists k: nat, samples, rest :: k < n && Begins(script, k, samples, rest) && EndsHopelessly(rest)
    ensures Collect(script, n) == Pending <==>
            exists k: nat, samples, rest :: k < n && Begins(script, k, samples, rest) && Tolerated(rest)
  {
    if !Collect(script, n).Collected? {
      var k, samples, rest := StopFound(script, n);
    }
    forall k: nat, samples, rest | k < n && Begins(script, k, samples, rest)
      ensures EndsHopelessly(rest) ==> Collect(script, n) == Aborted
      ensures Tolerated(rest) ==> Collect(script, n) == Pending
    {
      StopsBehind(script, n, k, samples, rest);
    }
  }

  /** Where the loop stops. */
  lemma {:induction false} LastCollected(script: seq<Attempt>, n: nat) returns (k: nat, before: Collected)
    requires !Collect(script, n).Collected?
    ensures k < n && before == Collect(script, k) && before.Collected?
    ensures FetchOne(before.rest) == if Collect(script, n) == Aborted then Fatal else Waiting
  {
    if Collect(script, n - 1).Collected? {
      k, before := n - 1, Collect(script, n - 1);
    } else {
      k, before := LastCollected(script, n - 1);
    }
  }

  lemma {:induction false} Stuck(script: seq<Attempt>, k: nat, n: nat)
    requires k < n && Collect(script, k).Collected? && !FetchOne(Collect(script, k).rest).Got?
    ensures Collect(script, n) == if FetchOne(Collect(script, k).rest).Fatal? then Aborted else Pending
  {
    if k < n - 1 {
      Stuck(script, k, n - 1);
    }
  }

  /** The answers other than failed Runs. */
  function Answers(b: seq<Attempt>): int {
    |b| - multiset(b)[RunError]
  }

  lemma {:induction false} AnswersSplit(a: seq<Attempt>, b: seq<Attempt>)
    ensures Answers(a + b) == Answers(a) + Answers(b)
    ensures AllFailed(a) ==> Answers(a) == multiset(a)[ParseError]
  {
    if a != [] {
      FirstCounted(a, RunError);
      FirstCounted(a, ParseError);
      AnswersSplit(a[1..], b);
    }
  }

  /** Failed Runs alone can keep the loop waiting: four other answers per sample always end it. */
  lemma {:induction false} FourAnswersPerSample(script: seq<Attempt>, n: nat)
    ensures Collect(script, n).Pending? ==> Answers(script) < 4 * n
    ensures Collect(script, n).Collected? ==> Answers(Collect(script, n).rest) + 4 * n >= Answers(script)
  {
    if n > 0 {
      FourAnswersPerSample(script, n - 1);
      var before := Collect(script, n - 1);
      if before.Collected? {
        match FetchOne(before.rest) {
          case Got(s, rest) =>
            SampleComesFromParse(before.rest, s, rest);
            var b :| Tolerated(b) && before.rest == b + [Parsed(s)] + rest;
            AnswersSplit(b + [Parsed(s)], rest);
            AnswersSplit(b, [Parsed(s)]);
          case Waiting =>
            SampleComesFromParse(before.rest, Sample(ZERO, ZERO, ZERO, ZERO, ZERO, ZERO), []);
            AnswersSplit(before.rest, []);
          case Fatal =>
        }
      }
    }
  }
}

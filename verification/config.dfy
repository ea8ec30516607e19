/** pkg/config/config.go: the test configurations and their validation. */
module Config {
  import opened Text

  datatype Result<+T, +E> = Ok(value: T) | Err(error: E)

  datatype Option<+T> = None | Some(value: T)

  /** The load drivers, in the order the Run function collects them. */
  datatype Driver = Netperf | Uperf | Iperf3 | IbWriteBw

  datatype Config = Config(
    parallelism: int,
    duration: int,
    profile: string,
    samples: int,
    messageSize: int,
    service: bool,
    metric: string,
    acrossAZ: bool)

  /** A single stream of one sample. */
  const ONE_STREAM := Config(1, 10, "TCP_STREAM", 1, 1024, false, "", false)

  datatype ConfigError = UnknownProfile | BadDuration | BadSamples | BadMessageSize | BadParallelism

  /** The names the source joins with `|`, matched anywhere in the profile, case ignored. */
  const VALID_TESTS := ["TCP_STREAM_LAT", "TCP_STREAM", "UDP_STREAM", "TCP_RR", "UDP_RR",
                        "TCP_CRR", "UDP_CRR", "SCTP_STREAM", "SCTP_RR", "SCTP_CRR"]

  predicate KnownProfile(profile: string) {
    exists k :: 0 <= k < |VALID_TESTS| && Contains(ToUpper(profile), VALID_TESTS[k])
  }

  function ValidConfig(cfg: Config): Result<(), ConfigError> {
    if !KnownProfile(cfg.profile) then Err(UnknownProfile)
    else if cfg.duration < 1 then Err(BadDuration)
    else if cfg.samples < 1 then Err(BadSamples)
    else if cfg.messageSize < 1 then Err(BadMessageSize)
    else if cfg.parallelism < 1 then Err(BadParallelism)
    else Ok(())
  }

  /** What a configuration must satisfy. */
  predicate Acceptable(cfg: Config) {
    && KnownProfile(cfg.profile)
    && cfg.duration >= 1 && cfg.samples >= 1 && cfg.messageSize >= 1 && cfg.parallelism >= 1
  }

  /** The first requirement that fails, in the order of the checks. */
  predicate FailsAt(cfg: Config, e: ConfigError) {
    match e
    case UnknownProfile => !KnownProfile(cfg.profile)
    case BadDuration => KnownProfile(cfg.profile) && cfg.duration < 1
    case BadSamples => KnownProfile(cfg.profile) && cfg.duration >= 1 && cfg.samples < 1
    case BadMessageSize =>
      KnownProfile(cfg.profile) && cfg.duration >= 1 && cfg.samples >= 1 && cfg.messageSize < 1
    case BadParallelism =>
      && KnownProfile(cfg.profile) && cfg.duration >= 1 && cfg.samples >= 1 && cfg.messageSize >= 1
      && cfg.parallelism < 1
  }

  lemma ValidExactly(cfg: Config)
    ensures ValidConfig(cfg).Ok? <==> Acceptable(cfg)
    ensures forall e :: ValidConfig(cfg) == Err(e) <==> FailsAt(cfg, e)
  {
  }

  lemma LatencyIsStream(u: string)
    requires Contains(u, "TCP_STREAM_LAT")
    ensures Contains(u, "TCP_STREAM")
  {
    var i :| 0 <= i <= |u| - 14 && At(u, "TCP_STREAM_LAT", i);
    assert u[i..i + 10] == u[i..i + 14][..10] == "TCP_STREAM";
    assert At(u, "TCP_STREAM", i);
  }

  /** The accepted profiles contain, in any case, one of these names; TCP_STREAM_LAT contains TCP_STREAM. */
  lemma KnownExactly(profile: string)
    ensures var u := ToUpper(profile);
            KnownProfile(profile) <==>
            || Contains(u, "TCP_STREAM") || Contains(u, "UDP_STREAM") || Contains(u, "SCTP_STREAM")
            || Contains(u, "TCP_RR") || Contains(u, "UDP_RR") || Contains(u, "SCTP_RR")
            || Contains(u, "TCP_CRR") || Contains(u, "UDP_CRR") || Contains(u, "SCTP_CRR")
  {
    var u := ToUpper(profile);
    var named := (t: string) => Contains(u, t);
    if named("TCP_STREAM_LAT") {
      LatencyIsStream(u);
    }
    AnyName(named);
    assert KnownProfile(profile) <==> exists k :: 0 <= k < |VALID_TESTS| && named(VALID_TESTS[k]);
  }

  lemma AnyName(named: string -> bool)
    ensures (exists k :: 0 <= k < |VALID_TESTS| && named(VALID_TESTS[k])) <==>
            || named("TCP_STREAM_LAT") || named("TCP_STREAM") || named("UDP_STREAM") || named("SCTP_STREAM")
            || named("TCP_RR") || named("UDP_RR") || named("SCTP_RR")
            || named("TCP_CRR") || named("UDP_CRR") || named("SCTP_CRR")
  {
    assert VALID_TESTS[0] == "TCP_STREAM_LAT";
    assert VALID_TESTS[1] == "TCP_STREAM" && VALID_TESTS[2] == "UDP_STREAM" && VALID_TESTS[3] == "TCP_RR";
    assert VALID_TESTS[4] == "UDP_RR" && VALID_TESTS[5] == "TCP_CRR" && VALID_TESTS[6] == "UDP_CRR";
    assert VALID_TESTS[7] == "SCTP_STREAM" && VALID_TESTS[8] == "SCTP_RR" && VALID_TESTS[9] == "SCTP_CRR";
  }

  /** Either all values, every one of them acceptable, or the error of the first one that is not. */
  ghost predicate AllOrNothing(values: seq<Config>, r: Result<seq<Config>, ConfigError>) {
    match r
    case Ok(tests) => tests == values && forall i :: 0 <= i < |values| ==> Acceptable(values[i])
    case Err(e) => exists k :: 0 <= k < |values| && FailsAt(values[k], e)
                               && forall i :: 0 <= i < k ==> Acceptable(values[i])
  }

  /** The collection loop of ParseConf on the decoded values, in the order the map yields them. */
  method ParseConf(values: seq<Config>) returns (r: Result<seq<Config>, ConfigError>)
    ensures AllOrNothing(values, r)
  {
    var tests: seq<Config> := [];
    for i := 0 to |values|
      invariant tests == values[..i]
      invariant forall k :: 0 <= k < i ==> Acceptable(values[k])
    {
      ValidExactly(values[i]);
      var ok := ValidConfig(values[i]);
      if ok.Err? {
        return Err(ok.error);
      }
      tests := tests + [values[i]];
    }
    r := Ok(tests);
  }

  function Flat(groups: seq<seq<Config>>): seq<Config> {
    if groups == [] then [] else Flat(groups[..|groups| - 1]) + groups[|groups| - 1]
  }

  lemma {:induction false} FlatPrefix(groups: seq<seq<Config>>, i: nat, j: nat)
    requires i < |groups| && j <= |groups[i]|
    ensures Flat(groups[..i]) + groups[i][..j] <= Flat(groups)
  {
    var init := groups[..|groups| - 1];
    if i < |init| {
      assert init[..i] == groups[..i];
      FlatPrefix(init, i, j);
    } else {
      assert groups[..i] == init && groups[i][..j] <= groups[i];
    }
  }

  /** The nested collection loops of ParseV2Conf. */
  method ParseV2Conf(groups: seq<seq<Config>>) returns (r: Result<seq<Config>, ConfigError>)
    ensures AllOrNothing(Flat(groups), r)
  {
    var tests: seq<Config> := [];
    for i := 0 to |groups|
      invariant tests == Flat(groups[..i])
      invariant forall k :: 0 <= k < |tests| ==> Acceptable(tests[k])
    {
      assert groups[..i + 1][..i] == groups[..i];
      for j := 0 to |groups[i]|
        invariant tests == Flat(groups[..i]) + groups[i][..j]
        invariant forall k :: 0 <= k < |tests| ==> Acceptable(tests[k])
      {
        var ok := ValidConfig(groups[i][j]);
        if ok.Err? {
          FlatPrefix(groups, i, j + 1);
          assert Flat(groups)[|tests|] == groups[i][j] && tests <= Flat(groups);
          return Err(ok.error);
        }
        tests := tests + [groups[i][j]];
      }
    }
    assert groups[..|groups|] == groups;
    r := Ok(tests);
  }
}

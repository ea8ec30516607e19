# Verification of k8s-netperf

A Dafny model of the measurement core of k8s-netperf, with proofs. It follows the tool from its flags to its exit
code: which pods and services are deployed, which runs are planned, who talks to whom in each run, what is recorded
about it, how samples are collected, how the text of the load generators becomes numbers, and when the process fails.

`dafny verify dfyconfig.toml` checks everything.

## How the model is built

- **Cluster and scheduler.** A node has role labels and a zone. `BuildSUT` is a class (`Sut.PerfScenarios`) whose fields
  are the fields of `PerfScenarios`; every deployment is a step that may fail or place its pod on any node that meets the
  *required* affinities against the pods that already run. Nothing is known about the choice beyond that.
- **Runs.** `Runner.Session` holds the result list and the loops of `Run` and `executeWorkload`. What the load
  generators answer is an oracle: a list of attempts, each a failed run, a failed parse or a parsed sample. Panics
  (an index into an empty pod list, a nil service) and `log.Fatal` are modelled as faults.
- **Numbers.** A float is a real without rounding, an infinity or NaN. Text is a list of characters; the two regular
  expressions of uperf, `bc`, `strings.Split`, `strings.Contains` and `strconv.ParseFloat` on plain decimals are defined
  on it.

Modules, in the order of dependence: `Text`, `Config`, `Results`, `Zones`, `Servers`, `Sut` (deployment), `Sampling`,
`Flags` (flag gate), `Runner` (planning and running), `Endpoints`, `Placements` and `Reached` (what the scheduler can
do), `Labels` and `Records` (truth of the labels, and of the recorded results), `Reach` (ports and parameters), `Verdict`
(whole run to exit code), `UperfOutput`, `UperfSamples`, `Decimals`, `Uperf`, `NetperfOutput`, `SuperNetperf`, `Metrics`.

## What the proofs found

Several promises hold only under conditions. Each condition below is exact: a lemma proves that the promise holds
exactly when the condition does.

- `SameNode` tells the truth in every cluster and under every placement exactly for *anchored* runs: with `--local`
  the pod runs, otherwise everything but a host network run on a secondary network (`Labels.SameNodeExactly`).
- `HostNetwork` is false for `--local --all` (one pair of pods serves both kinds of run) and for host network runs on a
  secondary network, which use the address of the pod network server (`Labels.HostNetworkExactly`).
- The archived node infos are those of the last assignment in `BuildSUT`, not of the run (`Labels.NodeInfoExactly`).
- A run without a service stops on a missing endpoint exactly when `--hostNet` meets a secondary network without `--local`, when virtual
  machines use a UDN or CUDN without pods, or when a host network run meets an external server without `--local`
  (`Endpoints.AvailableExactly`).
- The flag `--across` promises a placement across zones. A local variable hides it
  (cmd/k8s-netperf/k8s-netperf.go:88), so it changes nothing. In a cluster with zones the promise is kept, under every
  placement, exactly when no two usable workers share a zone (`Labels.AcrossFlagExactly`); two workers in one zone break
  it (`Labels.AcrossFlagFails`).
- The reported CPU usage depends on the order in which Prometheus lists its series, unless all nonempty series of a mode
  have the same mean (`Metrics.OrderExactly`).
- Behind a service, netperf is reachable up to 16 processes, uperf only from pods and not for `TCP_STREAM_LAT`
  (`Reach.ReachableExactly`).
- Client and server of ib_write_bw agree on the duration exactly when all UDP_STREAM configurations without a service
  last as long as the first UDP_STREAM configuration, with or without a service (`Reach.IbAgreesExactly`).
- netperf's unit text keeps the carriage return of a terminal (`SuperNetperf.ReadsPrinted`).

## Model

| member | source | states |
|---|---|---|
| Config.ParseConf | pkg/config/config.go:128-150 | all configurations are returned in order exactly if every one has a known profile and a duration, samples, message size and parallelism of at least 1; otherwise the error is that of the first bad one, and names its first failing requirement |
| Config.ParseV2Conf | pkg/config/config.go:155-184 | the same for the nested loops, over the concatenation of all groups |
| Config.ValidExactly | pkg/config/config.go:104-126 | which configurations are accepted, and which error each other one gives |
| Config.KnownExactly | pkg/config/config.go:102-109 | the accepted profiles are those that contain one of nine names in any case |
| Text.SplitExactly | pkg/drivers/netperf.go:184 | splitting is the inverse of joining: the parts hold no separator and give the text back, and no other parts do |
| Text.TrimExactly | pkg/drivers/netperf.go:190-209 | trimming cuts exactly the characters of the cut set off both ends |
| Text.SpaceCodes | pkg/drivers/netperf.go:192-200 | white space by its code points |
| Flags.Check | cmd/k8s-netperf/k8s-netperf.go:98-158 | the checks in order accept exactly the combinations of `Accepted` |
| Flags.AcceptedExactly | cmd/k8s-netperf/k8s-netperf.go:98-158 | the accepted flags counted network by network: at most one user defined network, at most one of user defined network, SR-IOV, macvlan and RDMA, and so on |
| Flags.RequestedDrivers | cmd/k8s-netperf/k8s-netperf.go:160-428 | the drivers in order, netperf dropped when another one is asked for and netperf is not |
| Flags.DriversExactly | cmd/k8s-netperf/k8s-netperf.go:160-428 | every requested driver stands once in the list, behind the requested ones before it; netperf is requested when it is named, or is the default and no other driver is asked for |
| Flags.Gate | cmd/k8s-netperf/k8s-netperf.go:98-248 | accepted flags lead to the settings of the run, flag by flag; `--all` and `--hostNet` both ask for host network pods, and the zone flag has no part |
| Flags.AcceptedIsAdmitted | cmd/k8s-netperf/k8s-netperf.go:98-163 | what the gate lets through satisfies the conditions the rest of the run relies on, ib_write_bw with host network only among them |
| Endpoints.PlanOfFlags | cmd/k8s-netperf/k8s-netperf.go:160-522 | the planned calls are exactly those the flags and configurations ask for: host network calls exactly for `--all` and `--hostNet`, on pods and without a service |
| Zones.GetZone | pkg/k8s/kubernetes.go:1481-1506 | the loop yields the zone populations up to the first unlabelled node, and the zone of the last repetition, else the last new zone |
| Zones.ChosenZoneExactly | pkg/k8s/kubernetes.go:1489-1505 | by positions: the zone of the last worker whose zone occurred before it, and without one the zone of the last worker |
| Zones.UnlabelledStops | pkg/k8s/kubernetes.go:1489-1496 | at the first worker without a label no zone is chosen and exactly the workers before it are counted |
| Zones.ChosenZoneShared | pkg/k8s/kubernetes.go:1489-1505 | the map holds exactly the zones, each with its multiplicity, and these add up to the workers; the chosen zone has more than one worker exactly when there are fewer zones than workers (pigeonhole) |
| Zones.LonelyExactly | cmd/k8s-netperf/k8s-netperf.go:446-452 | the chosen zone has at most one worker exactly when no two workers share any zone |
| Servers.CreateService | pkg/k8s/kubernetes.go:1627-1676 | a service selects its role and lists TCP and UDP for the control port and every data port, in this order and nothing else |
| Servers.PortsOfMembers | pkg/k8s/kubernetes.go:1641-1675 | a port is exposed, for both protocols, exactly when it is the control port or a data port |
| Servers.ServicesAreRight | pkg/k8s/kubernetes.go:784-906 | the port numbers and the role of each of the eight services |
| Servers.ServerCommands | pkg/k8s/kubernetes.go:1016-1066 | netserver, iperf3 on 22865, uperf on 30000, its histogram server on 31000 and ib_write_bw, each exactly once and exactly when asked for, the last with the trimmed parts of nic:gid and the duration of the first UDP_STREAM configuration, else 10; failure exactly on parameters that are not two parts around one colon |
| Sut.PerfScenarios.Deploy | pkg/k8s/kubernetes.go:1406-1424 | a deployment step keeps every pod legally placed and returns exactly its own pod |
| Sut.PerfScenarios.GetPodNodeInfo | pkg/k8s/kubernetes.go:1590-1609 | the node of some selected pod; the index panics exactly when no pod is selected |
| Sut.PerfScenarios.BuildServices | pkg/k8s/kubernetes.go:784-906 | exactly the services of the requested drivers, for pods and for virtual machines, with their ports |
| Sut.PerfScenarios.TakeInfos | pkg/k8s/kubernetes.go:670-1205 | after each stage every node info is the node of a running pod of the selector it was last taken from, or still unset |
| Sut.PerfScenarios.HostServer | pkg/k8s/kubernetes.go:1074-1187 | with the anti-affinity and the conditions of the source, the stage of the host network server keeps the placement invariant |
| Sut.PerfScenarios.PodServer | pkg/k8s/kubernetes.go:1086-1205 | the same for the pod server, next to the client with `--local`, else away from the pod network client, and for the node infos taken there |
| Sut.PerfScenarios.BuildInCluster | pkg/k8s/kubernetes.go:724-1214 | services, clients, server commands and servers in source order keep the placement invariant through all seven deployments |
| Sut.NodeCountExactly | pkg/k8s/kubernetes.go:702-710 | the node count exceeds one exactly when two nodes have the worker and not the infra label |
| Sut.DeployedExactly | pkg/k8s/kubernetes.go:610-1215 | the deployment invariant in words: which pods run, on which network, on what nodes, and which of them share a node or do not |
| Sut.PerfScenarios.BuildSUT | pkg/k8s/kubernetes.go:610-1215 | a completed build has, by settings and node labels alone, exactly the planned pods on usable nodes with the right neighbours and networks, each filed in its field, with services, server processes and node infos; without `--local` and two plain workers, or with a zone request and fewer than two zones, it fails; it panics only for settings that are not `BuildSafe` |
| Sut.PerfScenarios.RunStage | pkg/k8s/kubernetes.go:724-1212 | a stage is one `StageStep`: a wanted pod on some node that admits it, its list, the node infos whose selector changes, and nothing else; it keeps the invariant |
| Sut.DeployStep | pkg/k8s/kubernetes.go:918-1014 | placing one more pod keeps every earlier pod legal |
| Sut.InfoAvailable | pkg/k8s/kubernetes.go:990-996 | with safe settings every node info has a running pod to come from |
| Reached.BuiltExactly | pkg/k8s/kubernetes.go:610-1215 | with the services and commands prepared, a state satisfies everything a completed build guarantees exactly when some run of the seven deployment stages ends in it |
| Reached.ArrangedExactly | pkg/k8s/kubernetes.go:918-1212 | the arrangements of pods BuildSUT can end in are exactly those described in words: every one is the outcome of some run of the stages |
| Reached.PlacementReached | pkg/k8s/kubernetes.go:918-1212 | every choice of nodes that meets the required terms is the outcome of some run of the stages, so the placements that break a label are ones the scheduler can choose |
| Placements.CanHostExactly | pkg/k8s/kubernetes.go:624-634 | a node can host a deployment exactly when it is a usable worker, or exists and neither the cluster is zoned nor the deployment one of two clients |
| Sampling.Retry | cmd/k8s-netperf/k8s-netperf.go:878-900 | the retry loop, in which a failed run does not advance the count |
| Sampling.OneSample | cmd/k8s-netperf/k8s-netperf.go:871-901 | one turn of the sample loop on the remaining answers |
| Sampling.SampleComesFromParse | cmd/k8s-netperf/k8s-netperf.go:872-901 | a sample is the first successful parse behind tolerated failures (a failed parse first, at most three failed parses), and conversely |
| Sampling.FatalExactly | cmd/k8s-netperf/k8s-netperf.go:872-900 | the process ends exactly on a failed first run or on four failed parses |
| Sampling.CollectedExactly | cmd/k8s-netperf/k8s-netperf.go:870-908 | the loop ends normally with n samples exactly when the answers split into n blocks of tolerated failures, each followed by the parse its sample comes from |
| Sampling.StopsExactly | cmd/k8s-netperf/k8s-netperf.go:870-908 | the loop ends the process exactly when fewer samples than asked for are followed by hopeless answers, and waits exactly when they are followed by tolerated failures alone |
| Sampling.FourAnswersPerSample | cmd/k8s-netperf/k8s-netperf.go:878-900 | only failed runs can keep the loop waiting: four other answers per sample always end it |
| Runner.Session.SampleLoop | cmd/k8s-netperf/k8s-netperf.go:870-908 | entry k of each of the six summaries is the named value of the k-th collected sample, and there is one entry per sample |
| Runner.Session.ChooseClient | cmd/k8s-netperf/k8s-netperf.go:741-843 | the client pod list after the two overriding assignments |
| Runner.Session.ExecuteWorkload | cmd/k8s-netperf/k8s-netperf.go:735-914 | one run: endpoints, labels, support check, samples; the script is consumed exactly as far as reported |
| Runner.Session.RunTests | cmd/k8s-netperf/k8s-netperf.go:445-522 | the nested loops record what the plan, executed call by call, records, and stop at the first fault |
| Runner.PlanExact | cmd/k8s-netperf/k8s-netperf.go:455-522 | the calls are exactly the permitted combinations of configuration, driver and mode, each once, pods first, then by configuration, driver and mode |
| Runner.MeasuredExactly | cmd/k8s-netperf/k8s-netperf.go:455-522 | the measured calls are exactly the permitted ones the driver can do, each once and in order |
| Runner.RecordsMatchPlan | cmd/k8s-netperf/k8s-netperf.go:455-522 | a finished run has one record per permitted call the driver can do, each once and in order, with all its labels and one measurement per sample in every list; none is both host network and service, or both host network and virtual machine |
| Runner.FaultSticks | cmd/k8s-netperf/k8s-netperf.go:862-899 | nothing is recorded after a fault |
| Runner.FaultExactly | cmd/k8s-netperf/k8s-netperf.go:455-522 | the fault of a run is that of its first call that stops, and the results are those recorded before it |
| Endpoints.AvailableExactly | cmd/k8s-netperf/k8s-netperf.go:745-843 | a permitted run finds its server and client in what the build left, in every cluster and placement, exactly for safe options |
| Endpoints.NoPanic | cmd/k8s-netperf/k8s-netperf.go:455-522 | a whole run with safe options never indexes an empty pod list and never follows a nil service |
| Endpoints.UnsafePanics | cmd/k8s-netperf/k8s-netperf.go:769-843 | an unsafe supported call does panic |
| Labels.AddressIsRight | cmd/k8s-netperf/k8s-netperf.go:745-824 | the address of a call: a service of its driver, a secondary address of its server on a secondary network, else the primary one, and of which pod |
| Labels.Ends | cmd/k8s-netperf/k8s-netperf.go:745-843 | the client pod and the pod behind the server address or the service selector are those of two particular deployments |
| Labels.EndsExactly | pkg/k8s/kubernetes.go:918-1212 | the pairs of nodes on which the ends of an anchored run across nodes can lie are exactly the separable ones, in any cluster |
| Labels.SameNodeExactly | cmd/k8s-netperf/k8s-netperf.go:847 | SameNode is true to the placement in every cluster and under every placement exactly for anchored runs |
| Labels.SameNodeLies | pkg/k8s/kubernetes.go:973-1014 | for any other run, two workers are enough for a legal placement that makes the label false |
| Labels.HostNetworkExactly | cmd/k8s-netperf/k8s-netperf.go:848 | both ends use the network of the label exactly for the stated settings, whatever the cluster and the placement |
| Labels.AcrossIsTrue | cmd/k8s-netperf/k8s-netperf.go:850-857 | an anchored run labelled AcrossAZ has its ends in different zones under every legal placement |
| Labels.RunAcrossExactly | cmd/k8s-netperf/k8s-netperf.go:446-452 | the zone label of a run is set exactly when it is not local and its workers are all labelled and no two of them share a zone |
| Labels.AcrossExactly | cmd/k8s-netperf/k8s-netperf.go:446-464 | in any cluster the label of an anchored run across nodes is right in both directions under every placement exactly when no two workers share a zone or all possible ends lie in one zone |
| Labels.AcrossSoundExactly | cmd/k8s-netperf/k8s-netperf.go:850-857 | across nodes the label is never set falsely exactly for anchored runs |
| Labels.AcrossZonesExactly | pkg/k8s/kubernetes.go:945-1167 | an anchored run across nodes measures across zones under every placement exactly when no separable pair of nodes shares a zone |
| Labels.AcrossFlagExactly | cmd/k8s-netperf/k8s-netperf.go:88 | `--across` changes no setting; in a cluster with zones its promise is kept exactly when no two usable workers share a zone |
| Labels.AcrossFlagFails | cmd/k8s-netperf/k8s-netperf.go:88 | with two workers in one zone, accepted flags with `--across` give a run inside that zone |
| Labels.NodeInfoExactly | cmd/k8s-netperf/k8s-netperf.go:910-911 | the archived node infos are the nodes of the two ends in every cluster and placement exactly for the stated settings |
| Records.RecordsAreTruthful | cmd/k8s-netperf/k8s-netperf.go:844-911 | every record of a finished run belongs to a call with both ends; for anchored calls its SameNode is true and its AcrossAZ never false, and its network and node infos are true for the settings that decide them |
| Records.RunTruthfully | cmd/k8s-netperf/k8s-netperf.go:445-522 | the same of the result list the loops leave |
| Reach.ServerListens | pkg/k8s/kubernetes.go:1022-1046 | every supported pod run of netperf, iperf3 or uperf has a server process on the control port its client uses |
| Reach.HistogramExactly | pkg/k8s/kubernetes.go:1029-1046 | port 31000 is served exactly when uperf is requested and a TCP_STREAM_LAT configuration exists |
| Reach.RunNetperfPorts | containers/super-netperf:10-20 | process i uses the start port plus i |
| Reach.ReachableExactly | pkg/k8s/kubernetes.go:785-905 | the service of a run exposes all ports its client uses exactly for netperf with at most 16 processes, uperf from pods without the histogram profile, and iperf3 |
| Reach.NicGidParsed | pkg/drivers/ibwritebw.go:40-60 | the driver accepts exactly two parts around one colon, neither blank, and trims them |
| Reach.IbAgreesExactly | pkg/k8s/kubernetes.go:1047-1066 | for every nic:gid that parses, the server of each ib_write_bw run has the client's device, gid and duration exactly when the UDP_STREAM durations agree |
| Results.CheckHostResults | pkg/results/result.go:107-114 | true exactly when some record is a host network record |
| Results.DoPerfDiff | pkg/results/result.go:169-184 | the percentage of the last positive host and pod values of the size |
| Results.TCPThroughputDiff | pkg/results/result.go:131-167 | one Diff for each qualifying host record and no other, in order, with its message size, one stream, and the percentage of the last positive host and pod means of that size |
| Results.LastPositiveDecides | pkg/results/result.go:169-184 | the compared mean is that of the last matching record with a positive mean, and zero exactly without one |
| Results.LessExactly | pkg/results/result.go:174-180 | comparison of floats: NaN with nothing, the infinities at the two ends |
| Results.SumExactly | pkg/results/result.go:80-82 | a sum is NaN exactly with a NaN or both infinities among its values, and finite exactly when all are |
| Results.DiffExceedsTolerance | pkg/results/result.go:199-201 | the percentage exceeds t exactly when p(200+t) < h(200-t), for all means, infinities and NaN included |
| Results.ExitCode | cmd/k8s-netperf/k8s-netperf.go:611-626 | 1 exactly when hostNet only is off and some qualifying host record has p(200+t) < h(200-t) for its size, else 0 |
| Verdict.DecidingRecords | pkg/results/result.go:155-165 | in a finished run exactly the planned single stream host TCP_STREAM calls get a Diff, and each of these records also takes part as a host result |
| Verdict.HostResultFound | pkg/results/result.go:169-184 | a qualifying record with a positive mean makes the compared host value positive |
| Verdict.DiffsBySize | pkg/results/result.go:155-165 | Diffs of one message size are equal |
| Verdict.RunsGathered | cmd/k8s-netperf/k8s-netperf.go:870-908 | entry k of every list of a record is the named value of the k-th sample its own call collected from the answers |
| Verdict.FinishesExactly | cmd/k8s-netperf/k8s-netperf.go:455-522 | calls with both ends finish exactly when the answers divide, in order, into one part per supported call, each made of tolerated failures and the parses its samples come from |
| Verdict.CallEnds | cmd/k8s-netperf/k8s-netperf.go:862-914 | a call with both ends is skipped for an unsupported test, and else recorded, ended by log.Fatal, or waiting as its samples are |
| Verdict.VerdictOfRun | cmd/k8s-netperf/k8s-netperf.go:455-626 | the verdict of a finished run from the planned calls and their samples alone, whatever the cluster and the placement |
| Verdict.RunToExit | cmd/k8s-netperf/k8s-netperf.go:445-635 | from the first workload to the end of the process: exit code 1 exactly after a log.Fatal or for a guilty finished run, 2 exactly after a panic, none while an answer is missing |
| UperfOutput.ExtractsWhatWasPrinted | pkg/drivers/uperf.go:332-339 | extraction from any mixture of numeric Txn2 records and other lines gives the records in order, the same with CRLF and with LF |
| UperfOutput.MatchesExactly | pkg/drivers/uperf.go:332-337 | on any line the search finds what leftmost greedy matching prefers: the leftmost start, then the longest first, second and third group; and nothing exactly when the literals cannot be placed |
| UperfOutput.RecordMatches | pkg/drivers/uperf.go:332-337 | a printed record is matched with its three fields as groups |
| UperfSamples.Accumulate | pkg/drivers/uperf.go:339-357 | the loop over the counters computes the recursive summary |
| UperfSamples.SamplesExactly | pkg/drivers/uperf.go:344-356 | the samples are those of the intervals in which operations were done and whose start has a nonzero timestamp, in order and no others, with their bytes, operations and latency |
| UperfSamples.Conservation | pkg/drivers/uperf.go:345-356 | samples plus skipped intervals make up last minus first, for operations, bytes and time; latency weighted by operations is elapsed time |
| UperfSamples.AllOperationsCounted | pkg/drivers/uperf.go:345-356 | with nonzero timestamps every operation is counted, idle intervals or not |
| UperfSamples.OriginDoesNotMatter | pkg/drivers/uperf.go:345-356 | adding constants to the counters changes no sample while the same timestamps are zero |
| UperfSamples.SameLength | pkg/drivers/uperf.go:350-355 | the three summaries have one length, at most one less than the number of records |
| UperfSamples.ThroughputIsAverageRate | pkg/drivers/uperf.go:358-365 | the reported throughput from the first and last counters and the skipped intervals; NaN exactly without samples |
| Uperf.ParseResults | pkg/drivers/uperf.go:325-357 | from the output to the summaries |
| Uperf.ReadsCounters | pkg/drivers/uperf.go:332-343 | reading the printed counters, among other lines and with either line end, gives the counters back |
| Uperf.PrintedCountersConserved | pkg/drivers/uperf.go:325-357 | conservation from the printed text to the samples |
| Decimals.PrintParse | containers/super-netperf:62-72 | reading a decimal as bc prints it gives the same number |
| Decimals.ValueExactly | containers/super-netperf:62-72 | a whole number is itself and every place behind the point divides by ten |
| Decimals.ReadsScientific | pkg/drivers/netperf.go:193-209 | a printed decimal with an exponent of either sign is read as its value times that power of ten |
| Decimals.TimesTenExactly | pkg/drivers/netperf.go:193-209 | an exponent one higher is ten times the value, below zero too |
| Decimals.ReadsNames | pkg/drivers/netperf.go:193-209 | text without digits is NaN or an infinity by its name in any case, and else zero |
| Decimals.AddIsExact | containers/super-netperf:52-56 | addition in bc is exact and keeps the longer scale |
| NetperfOutput.Take | pkg/drivers/netperf.go:189-210 | the if chain stores a line under the first key its left side contains; blank throughput or P99 latency is an error |
| NetperfOutput.ParseResults | pkg/drivers/netperf.go:176-224 | the report has the last number of each key by position, and a loss of zero unless the last retransmits are negative, then what is missing of the sends in percent, with zero, infinite and undefined operands |
| NetperfOutput.ParseIsLast | pkg/drivers/netperf.go:181-223 | for any output the result is made of the last value of each key, and fails exactly for fewer than five lines, a blank value or NaN |
| SuperNetperf.ProcessNetperf | containers/super-netperf:26-73 | the loop over the result files prints the sums, the truncated average latencies and the last banner and unit |
| SuperNetperf.SumsAreExact | containers/super-netperf:52-56 | the printed sums are the exact sums over the processes |
| SuperNetperf.BcDivTruncates | containers/super-netperf:61-64 | division in bc is the exact quotient truncated toward zero, for either sign |
| SuperNetperf.RtSumExactly | containers/super-netperf:45-50 | the round trip sum is that of the processes behind the last one without a round trip, starting from -1 |
| SuperNetperf.KeyIsItself | pkg/drivers/netperf.go:189-208 | the substring tests take no printed key for another, THROUGHPUT for THROUGHPUT_UNITS and RT_LATENCY for P99_LATENCY among them |
| SuperNetperf.ReadsPrinted | containers/super-netperf:61-72 | parsing the printed block of any processes, with LF or CRLF, gives their sums, averages and unit, unless the banner itself is a blank value |
| SuperNetperf.PrintedTotals | pkg/drivers/netperf.go:176-223 | the sample parsed from the printed block has the real totals of the processes, their loss, and the truncated means of the exact P99 and round trip sums |
| SuperNetperf.LossIsWeightedMean | pkg/drivers/netperf.go:218-223 | the aggregated loss is the send-weighted mean of the losses of the processes |
| SuperNetperf.LossIsBetween | pkg/drivers/netperf.go:218-223 | it lies between any bounds on the losses of the processes |
| SuperNetperf.LossIsPercentage | pkg/drivers/netperf.go:218-223 | it lies in [0, 100] |
| Metrics.ExtractNodeCPU | pkg/metrics/system.go:217-262 | succeeds exactly when some nonempty series has a known mode; each field shows the mean of the last nonempty series of its name, zero without one |
| Metrics.OrderExactly | pkg/metrics/system.go:227-257 | the reported usage is independent of the order of the series, and of order and repetition, exactly when all usable series of a mode have the same mean |
| Metrics.OrderDecides | pkg/metrics/system.go:227-257 | otherwise moving one of two disagreeing series to the end changes the reported usage |
| Metrics.Avg | pkg/metrics/system.go:389-395 | the loop computes the mean |
| Metrics.MeanBetween | pkg/metrics/system.go:389-395 | a mean lies between any bounds on the values |
| Metrics.QueryWithRetry | pkg/metrics/system.go:181-203 | at most max(attempts, 1) calls, the first success or the last error, and initial * (2^(calls-1) - 1) slept in all for a positive initial backoff, else nothing |

## Left out

- Kubernetes, KubeVirt and dynamic client calls, waiting, ssh and virtctl: an API call may fail at any point, otherwise its effect is a step of the model. Extracting a secondary network address from pod annotations, connecting to the client VM and reading the bridge file are taken to succeed.
- Deployments and services left over from an earlier run: the namespace is fresh.
- Preferred scheduling terms: they constrain nothing. The zone of the server under `--across` only enters such a term.
- UperfSamples.Accumulate: counters are real numbers; infinite or NaN counters and float rounding are not modelled.
- Uperf.ParseResults: output with counters that do not parse to finite numbers has no result here; the histogram lines of TCP_STREAM_LAT and the percentiles of the samples are not modelled.
- UperfOutput.ExtractsWhatWasPrinted: other lines carry no carriage return and do not contain the Txn2 byte marker; field text is digits and points.
- NetperfOutput.ParseResults: hexadecimal numbers and underscores of strconv.ParseFloat are read as malformed, that is as 0, and numbers beyond the range of a float64 are not turned into infinities.
- Decimals.PrintParse: bc breaks a number of 70 or more characters over lines; the model prints it on one line.
- SuperNetperf.ReadsPrinted: the same for sums that long.
- SuperNetperf.ProcessNetperf: the grep and awk that read a result file are taken to yield its fields.
- SuperNetperf.LossIsWeightedMean: for processes that sent something and received no more than that.
- Metrics.QueryWithRetry: the backoff is an unbounded integer.
- Decoding YAML: both parsers start from the decoded values, in the order the map yields them.
- Flags.Gate: whether cobra saw a flag is a separate input for `--netperf` and `--ib-write-bw`; `--all` with `--hostNet` is rejected when both are true.
- Case folding outside ASCII, in profiles.
- The driver command lines apart from ports, device, gid and duration; ib_write_bw and iperf3 output; `extractMTU`, vswitch and top pod queries, query strings and Prometheus discovery.
- The servers inside virtual machines, which cloud-init starts; `Reach.ServerListens` is about pods.
- Archives, tables, the indexer, logging and percentiles or confidence intervals of the statistics library.

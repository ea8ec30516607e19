/** pkg/drivers/netperf.go: reading the key=value output of netperf. */
module NetperfOutput {
  import opened Config
  import opened Results
  import opened Text
  import opened Decimals
  import Sampling

  /** The keys of the if chain. */
  datatype Key = Units | Throughput | P99 | Rt | Send | Recv | Retrans

  function Name(k: Key): string {
    match k
    case Units => "THROUGHPUT_UNITS"
    case Throughput => "THROUGHPUT"
    case P99 => "P99_LATENCY"
    case Rt => "RT_LATENCY"
    case Send => "LOCAL_SEND_CALLS"
    case Recv => "REMOTE_RECV_CALLS"
    case Retrans => "LOCAL_TRANSPORT_RETRANS"
  }

  /** The first of the keys that hits. */
  function FirstOf(keys: seq<Key>, hit: Key -> bool): Option<Key> {
    if keys == [] then None else if hit(keys[0]) then Some(keys[0]) else FirstOf(keys[1..], hit)
  }

  /** The keys in the order in which the chain asks for them. */
  const KEYS := [Units, Throughput, P99, Rt, Send, Recv, Retrans]

  function NamedIn(left: string): Key -> bool {
    k => Contains(left, Name(k))
  }

  function KeyOf(left: string): Option<Key> {
    FirstOf(KEYS, NamedIn(left))
  }

  predicate IsReturn(c: char) {
    c == '\r'
  }

  /** strings.Trim(s, "\r") */
  function TrimReturns(s: string): string {
    Trim(s, IsReturn)
  }

  function Amount(text: string): Float {
    ParseFloat(TrimReturns(text))
  }

  /** A line with a known key: its value as text and as a number. */
  datatype Entry = Entry(key: Key, text: string, number: Float)

  /** None for a line without "=" or without a known key. */
  function EntryOf(line: string): Option<Entry> {
    var l := Split(line, '=');
    if |l| < 2 then None
    else match KeyOf(l[0]) case Some(k) => Some(Entry(k, l[1], Amount(l[1]))) case None => None
  }

  function Mapped<T>(lines: seq<string>, f: string -> T): seq<T> {
    seq(|lines|, i requires 0 <= i < |lines| => f(lines[i]))
  }

  function Entries(lines: seq<string>): seq<Option<Entry>> {
    Mapped(lines, EntryOf)
  }

  /** An empty value of these keys is an error. */
  predicate Blank(e: Entry) {
    (e.key == Throughput || e.key == P99) && |TrimSpace(e.text)| < 1
  }

  /** The variables of the loop. */
  datatype Reading = Reading(
    metric: string,
    throughput: Float,
    latency99: Float,
    latency: Float,
    retransmits: Float,
    send: Float,
    recv: Float)

  const NOTHING := Reading("", ZERO, ZERO, ZERO, ZERO, ZERO, ZERO)

  /** The sample of ParseResults, with its metric. */
  datatype Report = Report(metric: string, sample: Sampling.Sample)

  /** The loss formula; a zero number of sends divides by zero. */
  function Loss(r: Reading): Float {
    if !Less(r.retransmits, ZERO) then ZERO
    else if !r.recv.Num? || !r.send.Num? then SpecialLoss(r.recv, r.send)
    else if r.send.r != 0.0 then Num(100.0 - r.recv.r / r.send.r * 100.0)
    else if r.recv.r == 0.0 then NaN
    else if r.recv.r > 0.0 then NegInf
    else PosInf
  }

  /** 100 - recv / send * 100 when one of the two is infinite or NaN. */
  function SpecialLoss(recv: Float, send: Float): Float {
    if recv.NaN? || send.NaN? || (!recv.Num? && !send.Num?) then NaN
    else if recv.Num? then Num(100.0)
    else if recv.PosInf? == (send.r >= 0.0) then NegInf
    else PosInf
  }

  function Set(r: Reading, e: Entry): Reading {
    match e.key
    case Units => r.(metric := e.text)
    case Throughput => r.(throughput := e.number)
    case P99 => r.(latency99 := e.number)
    case Rt => r.(latency := e.number)
    case Send => r.(send := e.number)
    case Recv => r.(recv := e.number)
    case Retrans => r.(retransmits := e.number)
  }

  function Put(r: Reading, e: Entry): Option<Reading> {
    if Blank(e) then None else Some(Set(r, e))
  }

  function Taken(r: Reading, left: string, text: string): Option<Reading> {
    match KeyOf(left)
    case None => Some(r)
    case Some(k) => Put(r, Entry(k, text, Amount(text)))
  }

  /** The if chain of the loop for a line that is split at "="; None is an error. */
  method Take(sample: Reading, left: string, text: string) returns (r: Option<Reading>)
    ensures r == Taken(sample, left, text)
  {
    Chain(left);
    var number := Amount(text);
    if Contains(left, "THROUGHPUT_UNITS") {
      return Some(sample.(metric := text));
    } else if Contains(left, "THROUGHPUT") {
      if |TrimSpace(text)| < 1 {
        return None;
      }
      return Some(sample.(throughput := number));
    } else if Contains(left, "P99_LATENCY") {
      if |TrimSpace(text)| < 1 {
        return None;
      }
      return Some(sample.(latency99 := number));
    } else if Contains(left, "RT_LATENCY") {
      return Some(sample.(latency := number));
    } else if Contains(left, "LOCAL_SEND_CALLS") {
      return Some(sample.(send := number));
    } else if Contains(left, "REMOTE_RECV_CALLS") {
      return Some(sample.(recv := number));
    } else if Contains(left, "LOCAL_TRANSPORT_RETRANS") {
      return Some(sample.(retransmits := number));
    }
    r := Some(sample);
  }

  /** The loop over the lines; None is an error. */
  method ReadLines(lines: seq<string>) returns (r: Option<Report>)
    requires |lines| >= 5
    ensures r == Parse(lines)
  {
    ghost var es := Entries(lines);
    var sample := NOTHING;
    for i := 0 to |lines|
      invariant Fold(es[..i]) == Some(sample)
    {
      LineStep(lines, i, sample);
      var l := Split(lines[i], '=');
      if |l| >= 2 {
        var taken := Take(sample, l[0], l[1]);
        if taken.None? {
          FoldStops(es, i + 1);
          return None;
        }
        sample := taken.value;
      }
    }
    assert es[..|lines|] == es;
    if sample.throughput.NaN? || sample.latency99.NaN? {
      return None;
    }
    r := Some(ReportOf(sample));
  }

  /** ParseResults; None is an error. */
  method ParseResults(stdout: string) returns (r: Option<Report>)
    ensures r == Parse(Split(stdout, '\n'))
    ensures r == None <==> |Split(stdout, '\n')| < 5 || Unusable(Entries(Split(stdout, '\n')))
    ensures r.Some? ==> RightReport(Entries(Split(stdout, '\n')), r.value)
  {
    var lines := Split(stdout, '\n');
    FailsExactly(lines);
    if |lines| < 5 {
      return None;
    }
    r := ReadLines(lines);
    if r.Some? {
      ParsedIsRight(lines, r.value);
    }
  }

  /** The chain finds the first key whose name the text contains. */
  lemma Chain(left: string)
    ensures KeyOf(left) ==
            if Contains(left, "THROUGHPUT_UNITS") then Some(Units)
            else if Contains(left, "THROUGHPUT") then Some(Throughput)
            else if Contains(left, "P99_LATENCY") then Some(P99)
            else if Contains(left, "RT_LATENCY") then Some(Rt)
            else if Contains(left, "LOCAL_SEND_CALLS") then Some(Send)
            else if Contains(left, "REMOTE_RECV_CALLS") then Some(Recv)
            else if Contains(left, "LOCAL_TRANSPORT_RETRANS") then Some(Retrans)
            else None
  {
    var hit := NamedIn(left);
    KeyStep(hit, Units, [Throughput, P99, Rt, Send, Recv, Retrans]);
    KeyStep(hit, Throughput, [P99, Rt, Send, Recv, Retrans]);
    KeyStep(hit, P99, [Rt, Send, Recv, Retrans]);
    KeyStep(hit, Rt, [Send, Recv, Retrans]);
    KeyStep(hit, Send, [Recv, Retrans]);
    KeyStep(hit, Recv, [Retrans]);
    KeyStep(hit, Retrans, []);
  }

  lemma KeyStep(hit: Key -> bool, k: Key, rest: seq<Key>)
    ensures FirstOf([k] + rest, hit) == if hit(k) then Some(k) else FirstOf(rest, hit)
  {
  }

  /** The loop over the lines; None from the first blank value on. */
  function Fold(es: seq<Option<Entry>>): Option<Reading> {
    if es == [] then Some(NOTHING)
    else
      match Fold(es[..|es| - 1])
      case None => None
      case Some(r) =>
        match es[|es| - 1]
        case None => Some(r)
        case Some(e) => Put(r, e)
  }

  lemma LineStep(lines: seq<string>, i: nat, r: Reading)
    requires i < |lines| && Fold(Entries(lines)[..i]) == Some(r)
    ensures var l := Split(lines[i], '=');
            Fold(Entries(lines)[..i + 1]) == if |l| < 2 then Some(r) else Taken(r, l[0], l[1])
  {
    var es := Entries(lines);
    assert es[..i + 1] == es[..i] + [es[i]] && es[i] == EntryOf(lines[i]);
    FoldStep(es[..i], es[i], r);
  }

  lemma FoldStep(es: seq<Option<Entry>>, e: Option<Entry>, r: Reading)
    requires Fold(es) == Some(r)
    ensures Fold(es + [e]) == if e.None? then Some(r) else Put(r, e.value)
  {
    assert (es + [e])[..|es|] == es;
  }

  lemma {:induction false} FoldStops(es: seq<Option<Entry>>, i: nat)
    requires i <= |es| && Fold(es[..i]) == None
    ensures Fold(es) == None
  {
    if i == |es| {
      assert es[..i] == es;
    } else {
      assert es[..|es| - 1][..i] == es[..i];
      FoldStops(es[..|es| - 1], i);
    }
  }

  function ReportOf(r: Reading): Report {
    Report(r.metric, Sampling.Sample(r.latency, ZERO, r.latency99, r.throughput, Loss(r), r.retransmits))
  }

  function Checked(r: Reading): Option<Report> {
    if r.throughput.NaN? || r.latency99.NaN? then None else Some(ReportOf(r))
  }

  function Parse(lines: seq<string>): Option<Report> {
    if |lines| < 5 then None
    else match Fold(Entries(lines)) case None => None case Some(r) => Checked(r)
  }

  // ---- Last one wins ----

  /** The last entry with this key. */
  function LastEntry(es: seq<Option<Entry>>, key: Key): Option<Entry> {
    if es == [] then None
    else if es[|es| - 1].Some? && es[|es| - 1].value.key == key then es[|es| - 1]
    else LastEntry(es[..|es| - 1], key)
  }

  function NumberIn(e: Option<Entry>): Float {
    match e case Some(e) => e.number case None => ZERO
  }

  predicate NoBlank(es: seq<Option<Entry>>) {
    forall i :: 0 <= i < |es| ==> es[i].None? || !Blank(es[i].value)
  }

  function LastReading(es: seq<Option<Entry>>): Reading {
    Reading(match LastEntry(es, Units) case Some(e) => e.text case None => "",
            NumberIn(LastEntry(es, Throughput)), NumberIn(LastEntry(es, P99)), NumberIn(LastEntry(es, Rt)),
            NumberIn(LastEntry(es, Retrans)), NumberIn(LastEntry(es, Send)), NumberIn(LastEntry(es, Recv)))
  }

  /** The loop fails exactly on a blank value. */
  lemma {:induction false} FoldFailsExactly(es: seq<Option<Entry>>)
    ensures Fold(es).Some? <==> NoBlank(es)
  {
    if es != [] {
      FoldFailsExactly(es[..|es| - 1]);
    }
  }

  lemma LastEntryStep(es: seq<Option<Entry>>, e: Option<Entry>, key: Key)
    ensures LastEntry(es + [e], key) == if e.Some? && e.value.key == key then e else LastEntry(es, key)
  {
    assert (es + [e])[..|es|] == es;
  }

  lemma LastReadingStep(es: seq<Option<Entry>>, e: Option<Entry>)
    ensures LastReading(es + [e]) == if e.Some? then Set(LastReading(es), e.value) else LastReading(es)
  {
    LastEntryStep(es, e, Units);
    LastEntryStep(es, e, Throughput);
    LastEntryStep(es, e, P99);
    LastEntryStep(es, e, Rt);
    LastEntryStep(es, e, Send);
    LastEntryStep(es, e, Recv);
    LastEntryStep(es, e, Retrans);
  }

  /** The loop keeps the last value of every key. */
  lemma {:induction false} FoldIsLast(es: seq<Option<Entry>>)
    ensures Fold(es).Some? ==> Fold(es).value == LastReading(es)
  {
    if es != [] {
      var init, e := es[..|es| - 1], es[|es| - 1];
      assert es == init + [e];
      FoldIsLast(init);
      LastReadingStep(init, e);
    }
  }

  /** What ParseResults reads, for any output. */
  lemma ParseIsLast(lines: seq<string>)
    ensures var es := Entries(lines);
            var r := LastReading(es);
            Parse(lines) == if |lines| >= 5 && NoBlank(es) && !r.throughput.NaN? && !r.latency99.NaN?
                            then Some(ReportOf(r)) else None
  {
    FoldFailsExactly(Entries(lines));
    FoldIsLast(Entries(lines));
  }

  /** Entry i is the last one with its key. */
  predicate IsLast(es: seq<Option<Entry>>, i: nat, key: Key) {
    && i < |es| && es[i].Some? && es[i].value.key == key
    && forall j :: i < j < |es| && es[j].Some? ==> es[j].value.key != key
  }

  predicate Lacks(es: seq<Option<Entry>>, key: Key) {
    forall j :: 0 <= j < |es| && es[j].Some? ==> es[j].value.key != key
  }

  /** x is the last number of a key, zero without one. */
  ghost predicate LastNumber(es: seq<Option<Entry>>, key: Key, x: Float) {
    (Lacks(es, key) && x == ZERO) || exists i: nat :: IsLast(es, i, key) && x == es[i].value.number
  }

  ghost predicate LastText(es: seq<Option<Entry>>, key: Key, x: string) {
    (Lacks(es, key) && x == "") || exists i: nat :: IsLast(es, i, key) && x == es[i].value.text
  }

  ghost predicate LastIsNaN(es: seq<Option<Entry>>, key: Key) {
    exists i: nat :: IsLast(es, i, key) && es[i].value.number == NaN
  }

  /** A throughput or a P99 latency without a value, or a last one of them that is not a number. */
  ghost predicate Unusable(es: seq<Option<Entry>>) {
    || (exists i :: 0 <= i < |es| && es[i].Some? && es[i].value.key in {Throughput, P99}
                    && TrimSpace(es[i].value.text) == "")
    || LastIsNaN(es, Throughput) || LastIsNaN(es, P99)
  }

  predicate Negative(x: Float) {
    x == NegInf || (x.Num? && x.r < 0.0)
  }

  /** The loss in percent: zero unless the retransmits are negative, as for UDP; then what is missing of the sends, with
      the rules of IEEE arithmetic for zero, infinite and undefined operands. */
  predicate RightLoss(loss: Float, retransmits: Float, send: Float, recv: Float) {
    && (!Negative(retransmits) ==> loss == ZERO)
    && (Negative(retransmits) ==>
          && (send.Num? && recv.Num? && send.r != 0.0 ==> loss == Num(100.0 - recv.r / send.r * 100.0))
          && (send == ZERO && recv.Num? ==>
                loss == if recv.r > 0.0 then NegInf else if recv.r < 0.0 then PosInf else NaN)
          && (send in {PosInf, NegInf} && recv.Num? ==> loss == Num(100.0))
          && (send.Num? && recv in {PosInf, NegInf} ==>
                loss == if (recv == PosInf) == (send.r >= 0.0) then NegInf else PosInf)
          && (send == NaN || recv == NaN || (!send.Num? && !recv.Num?) ==> loss == NaN))
  }

  /** The report has the last value of every key, and the loss of the last retransmits, sends and receives. */
  ghost predicate RightReport(es: seq<Option<Entry>>, r: Report) {
    && LastText(es, Units, r.metric) && LastNumber(es, Throughput, r.sample.throughput)
    && LastNumber(es, P99, r.sample.latency99) && LastNumber(es, Rt, r.sample.latency)
    && LastNumber(es, Retrans, r.sample.retransmits) && r.sample.latency50 == ZERO
    && exists send, recv :: LastNumber(es, Send, send) && LastNumber(es, Recv, recv)
                            && RightLoss(r.sample.lossPercent, r.sample.retransmits, send, recv)
  }

  lemma LossIsRight(r: Reading)
    ensures RightLoss(Loss(r), r.retransmits, r.send, r.recv)
  {
  }

  lemma {:induction false} LastEntryPosition(es: seq<Option<Entry>>, key: Key)
    ensures LastEntry(es, key) == None ==> Lacks(es, key)
    ensures LastEntry(es, key) != None ==> exists i: nat :: IsLast(es, i, key) && LastEntry(es, key) == es[i]
  {
    if es != [] {
      var init, last := es[..|es| - 1], es[|es| - 1];
      if last.Some? && last.value.key == key {
        assert IsLast(es, |es| - 1, key);
      } else {
        LastEntryPosition(init, key);
        if i: nat :| IsLast(init, i, key) && LastEntry(init, key) == init[i] {
          assert IsLast(es, i, key);
        }
      }
    }
  }

  lemma LastNumberIs(es: seq<Option<Entry>>, key: Key)
    ensures LastNumber(es, key, NumberIn(LastEntry(es, key)))
  {
    LastEntryPosition(es, key);
  }

  lemma LastReadingIsRight(es: seq<Option<Entry>>)
    ensures RightReport(es, ReportOf(LastReading(es)))
  {
    LastEntryPosition(es, Units);
    LastNumberIs(es, Throughput);
    LastNumberIs(es, P99);
    LastNumberIs(es, Rt);
    LastNumberIs(es, Retrans);
    LastNumberIs(es, Send);
    LastNumberIs(es, Recv);
    LossIsRight(LastReading(es));
  }

  lemma NaNExactly(es: seq<Option<Entry>>, key: Key)
    ensures NumberIn(LastEntry(es, key)) == NaN <==> LastIsNaN(es, key)
  {
    LastEntryPosition(es, key);
    if i: nat :| IsLast(es, i, key) {
      forall j: nat | IsLast(es, j, key) ensures j == i {
        assert !(i < j) && !(j < i);
      }
    }
  }

  lemma FailsExactly(lines: seq<string>)
    ensures Parse(lines) == None <==> |lines| < 5 || Unusable(Entries(lines))
  {
    ParseIsLast(lines);
    NaNExactly(Entries(lines), Throughput);
    NaNExactly(Entries(lines), P99);
  }

  lemma ParsedIsRight(lines: seq<string>, report: Report)
    requires Parse(lines) == Some(report)
    ensures RightReport(Entries(lines), report)
  {
    ParseIsLast(lines);
    LastReadingIsRight(Entries(lines));
  }

  function KeyLine(key: string, value: string): string {
    key + "=" + value
  }

  /** The text behind "=" up to a further "=" is the value. */
  lemma KeyValueLine(key: string, value: string, end: string, k: Key)
    requires '=' !in key && KeyOf(key) == Some(k)
    ensures var text := Split(value + end, '=')[0];
            EntryOf(KeyLine(key, value) + end) == Some(Entry(k, text, Amount(text)))
  {
    assert KeyLine(key, value) + end == key + ['='] + (value + end);
    SplitAt(key, '=', value + end);
  }

  /** The last line with a key is the one that counts. */
  lemma {:induction false} LastOne(es: seq<Option<Entry>>, i: nat)
    requires i < |es| && es[i].Some?
    requires forall j :: i < j < |es| ==> es[j].None? || es[j].value.key != es[i].value.key
    ensures LastEntry(es, es[i].value.key) == es[i]
  {
    if i < |es| - 1 {
      LastOne(es[..|es| - 1], i);
    }
  }

  /** A trailing carriage return does not change a number. */
  lemma TrimmedNumber(text: string, end: string)
    requires text != "" && '\r' !in text && (end == "" || end == "\r")
    ensures TrimReturns(text + end) == text
  {
    assert text[0] in text && text[|text| - 1] in text;
    assert CutAt(text + end, text, 0, IsReturn);
    TrimExactly(text + end, text, IsReturn);
  }
}

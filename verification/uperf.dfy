/** pkg/drivers/uperf.go: ParseResults from the printed counters to the samples. */
module Uperf {
  import opened Config
  import opened Decimals
  import opened UperfOutput
  import opened UperfSamples

  /** strconv.ParseFloat on the three groups of a match; None for infinities and NaN. */
  function ReadOne(f: Fields): Option<Txn> {
    match (ParseFloat(f.time), ParseFloat(f.bytes), ParseFloat(f.ops))
    case (Num(ts), Num(bytes), Num(ops)) => Some(Txn(ts, bytes, ops))
    case _ => None
  }

  function Joined(rs: Option<seq<Txn>>, r: Option<Txn>): Option<seq<Txn>> {
    if rs.Some? && r.Some? then Some(rs.value + [r.value]) else None
  }

  /** All records with one reading function. */
  function ReadAll(fs: seq<Fields>, one: Fields -> Option<Txn>): Option<seq<Txn>> {
    if fs == [] then Some([]) else Joined(ReadAll(fs[..|fs| - 1], one), one(fs[|fs| - 1]))
  }

  function Read(fs: seq<Fields>): Option<seq<Txn>> {
    ReadAll(fs, ReadOne)
  }

  lemma ReadAppended(fs: seq<Fields>, f: Fields, one: Fields -> Option<Txn>)
    ensures ReadAll(fs + [f], one) == Joined(ReadAll(fs, one), one(f))
  {
    assert (fs + [f])[..|fs|] == fs;
  }

  lemma ReadNext(fs: seq<Fields>, i: nat, one: Fields -> Option<Txn>)
    requires i < |fs|
    ensures ReadAll(fs[..i + 1], one) == Joined(ReadAll(fs[..i], one), one(fs[i]))
  {
    assert fs[..i + 1] == fs[..i] + [fs[i]];
    ReadAppended(fs[..i], fs[i], one);
  }

  /** The three numbers of a match. */
  method ReadTransaction(f: Fields, ghost one: Fields -> Option<Txn>) returns (r: Option<Txn>)
    requires one == ReadOne
    ensures r == one(f)
  {
    r := ReadOne(f);
  }

  method Txn2Records(transactions: seq<Fields>, ghost one: Fields -> Option<Txn>) returns (rs: Option<seq<Txn>>)
    requires one == ReadOne
    ensures rs == ReadAll(transactions, one)
  {
    var read: seq<Txn> := [];
    for i := 0 to |transactions|
      invariant ReadAll(transactions[..i], one) == Some(read)
    {
      ReadNext(transactions, i, one);
      var r := ReadTransaction(transactions[i], one);
      if r.None? {
        Unreadable(transactions, one, i + 1);
        return None;
      }
      read := read + [r.value];
    }
    assert transactions[..|transactions|] == transactions;
    rs := Some(read);
  }

  /** The counters of ParseResults, for output with finite numbers. */
  method ParseResults(stdout: string, rr: bool) returns (s: Option<Summary>)
    ensures s.Some? <==> Read(Extract(stdout)).Some?
    ensures s.Some? ==> s.value == Summarize(Read(Extract(stdout)).value, rr)
  {
    var rs := Txn2Records(Extract(stdout), ReadOne);
    if rs.None? {
      return None;
    }
    var summary := Accumulate(rs.value, rr);
    s := Some(summary);
  }

  lemma {:induction false} Unreadable(fs: seq<Fields>, one: Fields -> Option<Txn>, i: nat)
    requires i <= |fs| && ReadAll(fs[..i], one) == None
    ensures ReadAll(fs, one) == None
  {
    if i == |fs| {
      assert fs[..i] == fs;
    } else {
      assert fs[..|fs| - 1][..i] == fs[..i];
      Unreadable(fs[..|fs| - 1], one, i);
    }
  }

  // ---- From uperf's counters to the samples ----

  /** What uperf prints: its counters now, or something else. */
  datatype Event = Counters(time: Dec, bytes: Dec, ops: Dec) | Noise(text: string)

  predicate Plausible(e: Event) {
    match e
    case Counters(t, b, o) => t.m >= 0 && b.m >= 0 && o.m >= 0
    case Noise(text) => Printable(Other(text))
  }

  function LineOf(e: Event): Line {
    match e
    case Counters(t, b, o) => Record(Fields(BcPrint(t), BcPrint(b), BcPrint(o)))
    case Noise(text) => Other(text)
  }

  function Lines(es: seq<Event>): seq<Line> {
    seq(|es|, i requires 0 <= i < |es| => LineOf(es[i]))
  }

  function TxnOf(e: Event): seq<Txn> {
    match e
    case Counters(t, b, o) => [Txn(Value(t), Value(b), Value(o))]
    case Noise(_) => []
  }

  /** The counters themselves. */
  function Txns(es: seq<Event>): seq<Txn> {
    if es == [] then [] else Txns(es[..|es| - 1]) + TxnOf(es[|es| - 1])
  }

  lemma UnsignedText(d: Dec)
    requires d.m >= 0
    ensures NumberText(BcPrint(d))
  {
    if d.m > 0 {
      var digits := Pad(Digits(Abs(d.m)), d.scale);
      assert BcPrint(d) == Pointed(digits, d.scale);
      PointedText(digits, d.scale);
    }
  }

  lemma PointedText(digits: string, scale: nat)
    requires AllDigits(digits) && scale <= |digits|
    ensures NumberText(Pointed(digits, scale))
  {
    forall c | c in Pointed(digits, scale) ensures '0' <= c <= '9' || c == '.' {
      assert c in digits || c == '.';
    }
  }

  lemma LinePrintable(e: Event)
    requires Plausible(e)
    ensures Printable(LineOf(e))
  {
    if e.Counters? {
      UnsignedText(e.time);
      UnsignedText(e.bytes);
      UnsignedText(e.ops);
    }
  }

  lemma {:induction false} RecordsAppended(ls: seq<Line>, l: Line)
    ensures Records(ls + [l]) == Records(ls) + if l.Record? then [l.fields] else []
  {
    if ls == [] {
      assert ls + [l] == [l];
    } else {
      RecordsAppended(ls[1..], l);
      assert (ls + [l])[1..] == ls[1..] + [l];
    }
  }

  lemma CountersRead(e: Event)
    requires e.Counters?
    ensures ReadOne(LineOf(e).fields) == Some(Txn(Value(e.time), Value(e.bytes), Value(e.ops)))
  {
    ParsePrinted(e.time);
    ParsePrinted(e.bytes);
    ParsePrinted(e.ops);
  }

  lemma EventRead(ls: seq<Line>, e: Event, rs: seq<Txn>)
    requires Read(Records(ls)) == Some(rs)
    ensures Read(Records(ls + [LineOf(e)])) == Some(rs + TxnOf(e))
  {
    RecordsAppended(ls, LineOf(e));
    if e.Counters? {
      CountersRead(e);
      ReadAppended(Records(ls), LineOf(e).fields, ReadOne);
    } else {
      assert Records(ls) + [] == Records(ls) && rs + TxnOf(e) == rs;
    }
  }

  lemma LinesAppended(es: seq<Event>)
    requires es != []
    ensures Lines(es) == Lines(es[..|es| - 1]) + [LineOf(es[|es| - 1])]
  {
  }

  lemma {:induction false} RecordsRead(es: seq<Event>)
    ensures Read(Records(Lines(es))) == Some(Txns(es))
  {
    if es != [] {
      var init, e := es[..|es| - 1], es[|es| - 1];
      RecordsRead(init);
      LinesAppended(es);
      EventRead(Lines(init), e, Txns(init));
    }
  }

  /** Reading uperf's output, with either line end, gives its counters back. */
  lemma ReadsCounters(es: seq<Event>, end: string)
    requires LineEnd(end) && forall e :: e in es ==> Plausible(e)
    ensures Read(Extract(Output(Lines(es), end))) == Some(Txns(es))
  {
    forall i | 0 <= i < |Lines(es)| ensures Printable(Lines(es)[i]) {
      assert es[i] in es;
      LinePrintable(es[i]);
    }
    ExtractsWhatWasPrinted(Lines(es), end);
    RecordsRead(es);
  }

  /** The samples read from uperf's output account for everything between its first and its last counters, except
      for the skipped intervals. */
  lemma PrintedCountersConserved(es: seq<Event>, end: string, rr: bool)
    requires LineEnd(end) && (forall e :: e in es ==> Plausible(e)) && Txns(es) != []
    ensures Read(Extract(Output(Lines(es), end))).Some?
    ensures var s := Summarize(Read(Extract(Output(Lines(es), end))).value, rr);
            var rs := Txns(es);
            var skip := Skipped(rs);
            && Operations(Total(s.ops), rr) == Last(rs).ops - rs[0].ops - skip.ops
            && Total(s.bytes) == Last(rs).bytes - rs[0].bytes - skip.bytes
            && |s.ops| == |s.lat| && Weighted(s.ops, s.lat) == 1000.0 * (Last(rs).ts - rs[0].ts - skip.ts)
  {
    ReadsCounters(es, end);
    Conservation(Txns(es), rr);
  }
}

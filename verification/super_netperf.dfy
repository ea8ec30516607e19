/** containers/super-netperf: adding up parallel netperf processes, and what the driver reads back. */
module SuperNetperf {
  import opened Config
  import opened Results
  import opened Text
  import opened Decimals
  import opened NetperfOutput

  /** The result file of one process. */
  datatype Proc = Proc(
    top: string,
    throughput: Dec,
    sends: Dec,
    recvs: Dec,
    retrans: Dec,
    rtLatency: Dec,
    p99: Dec,
    units: string)

  const THROUGHPUTS := (p: Proc) => p.throughput
  const SENDS := (p: Proc) => p.sends
  const RECVS := (p: Proc) => p.recvs
  const RETRANS := (p: Proc) => p.retrans
  const P99S := (p: Proc) => p.p99

  /** The text -1.000, which netperf reports for a test without a round trip. */
  const NO_LATENCY := Dec(-1000, 3)

  function Quotient(x: int, d: nat): int
    requires d > 0
  {
    if x < 0 then -(-x / d) else x / d
  }

  /** Division in `bc` without a scale: truncated toward zero. */
  function BcDiv(d: Dec, n: nat): Dec
    requires n > 0
  {
    var p := Pow10(d.scale);
    assert p * n > 0;
    Dec(Quotient(d.m, p * n), 0)
  }

  /** q is x / n truncated toward zero. */
  predicate Truncated(x: real, n: nat, q: int) {
    if x >= 0.0 then q >= 0 && (q * n) as real <= x < ((q + 1) * n) as real
    else q <= 0 && ((q - 1) * n) as real < x <= (q * n) as real
  }

  lemma WholeQuotient(m: nat, p: nat, n: nat) returns (q: nat)
    requires p > 0 && n > 0 && p * n > 0
    ensures q == m / (p * n) && 0 <= (q * n) * p <= m < ((q + 1) * n) * p
  {
    q := m / (p * n);
    assert q * (p * n) <= m < (q + 1) * (p * n);
    Regrouped(q, p, n);
    Regrouped(q + 1, p, n);
  }

  lemma Regrouped(q: int, p: int, n: int)
    ensures q * (p * n) == (q * n) * p && (q >= 0 && p >= 0 && n >= 0 ==> (q * n) * p >= 0)
  {
  }

  lemma Ordered(a: int, m: int, b: int, p: nat, x: real)
    requires p > 0 && Product(x, p as real) == m as real
    ensures a * p <= m ==> a as real <= x
    ensures m <= b * p ==> x <= b as real
    ensures m < b * p ==> x < b as real
    ensures a * p < m ==> a as real < x
  {
    var s := p as real;
    assert (a * p) as real == (a as real) * s && (b * p) as real == (b as real) * s;
    if x < a as real {
      assert x * s < (a as real) * s;
    }
    if x == a as real || x == b as real {
      assert x * s == m as real;
    }
    if x > b as real {
      assert x * s > (b as real) * s;
    }
  }

  /** Between two whole numbers over p. */
  lemma Enclosed(a: int, m: int, b: int, p: nat, x: real)
    requires p > 0 && Product(x, p as real) == m as real
    ensures 0 <= a * p <= m < b * p ==> 0.0 <= x && a as real <= x < b as real
    ensures a * p < m <= b * p && m < 0 ==> x < 0.0 && a as real < x <= b as real
  {
    Ordered(a, m, b, p, x);
    Ordered(0, m, 0, p, x);
  }

  lemma Mirrored(q: int, n: int, p: int)
    ensures ((-q) * n) * p == -((q * n) * p)
  {
    assert (-q) * n == -(q * n);
    assert (-(q * n)) * p == -((q * n) * p);
  }

  lemma WholeTruncates(x: real, n: nat, q: int, low: int, m: int, high: int, p: nat)
    requires p > 0 && Product(x, p as real) == m as real && low * p <= m < high * p
    requires q >= 0 && low == q * n && high == (q + 1) * n && 0 <= low * p
    ensures Truncated(x, n, q)
  {
    Enclosed(low, m, high, p, x);
  }

  lemma NegativeTruncates(x: real, n: nat, q: int, low: int, m: int, high: int, p: nat)
    requires p > 0 && Product(x, p as real) == m as real && low * p < m <= high * p && m < 0
    requires q <= 0 && low == (q - 1) * n && high == q * n
    ensures Truncated(x, n, q)
  {
    Enclosed(low, m, high, p, x);
  }

  lemma QuotientTruncates(m: int, p: nat, n: nat, x: real)
    requires p > 0 && n > 0 && p * n > 0 && Product(x, p as real) == m as real
    ensures Truncated(x, n, Quotient(m, p * n))
  {
    if m >= 0 {
      var q := WholeQuotient(m, p, n);
      WholeTruncates(x, n, q, q * n, m, (q + 1) * n, p);
    } else {
      var q := WholeQuotient(-m, p, n);
      Mirrored(q, n, p);
      Mirrored(q + 1, n, p);
      assert -(q + 1) == -q - 1;
      NegativeTruncates(x, n, -q, (-q - 1) * n, m, (-q) * n, p);
    }
  }

  /** Division in `bc` gives the whole number of the exact quotient, truncated toward zero. */
  lemma BcDivTruncates(d: Dec, n: nat) returns (q: int)
    requires n > 0
    ensures Value(BcDiv(d, n)) == q as real && Truncated(Value(d), n, q)
  {
    q := BcDiv(d, n).m;
    ValueScaled(d.m, d.scale);
    QuotientTruncates(d.m, Pow10(d.scale), n, Value(d));
  }

  function SumBy(procs: seq<Proc>, f: Proc -> Dec): Dec {
    if procs == [] then Dec(0, 0) else BcAdd(SumBy(procs[..|procs| - 1], f), f(procs[|procs| - 1]))
  }

  function RtSum(procs: seq<Proc>): Dec {
    if procs == [] then Dec(0, 0)
    else
      var rt := procs[|procs| - 1].rtLatency;
      if rt == NO_LATENCY then NO_LATENCY else BcAdd(RtSum(procs[..|procs| - 1]), rt)
  }

  /** The printed lines. */
  function Block(top: string, rtl: Dec, l: Dec, tp: Dec, retrans: Dec, recv: Dec, send: Dec, units: string): seq<string>
  {
    [top, KeyLine(Name(Rt), BcPrint(rtl)), KeyLine(Name(P99), BcPrint(l)), KeyLine(Name(Throughput), BcPrint(tp)),
     KeyLine(Name(Retrans), BcPrint(retrans)), KeyLine(Name(Recv), BcPrint(recv)),
     KeyLine(Name(Send), BcPrint(send)), KeyLine(Name(Units), units)]
  }

  function Printed(procs: seq<Proc>): seq<string>
    requires procs != []
  {
    var last := procs[|procs| - 1];
    Block(last.top, BcDiv(RtSum(procs), |procs|), BcDiv(SumBy(procs, P99S), |procs|),
          SumBy(procs, THROUGHPUTS), SumBy(procs, RETRANS),
          SumBy(procs, RECVS), SumBy(procs, SENDS), last.units)
  }

  /** process_netperf */
  method ProcessNetperf(procs: seq<Proc>) returns (lines: seq<string>)
    requires procs != []
    ensures lines == Printed(procs)
  {
    var tp, l, rtl, send, recv, retrans := Dec(0, 0), Dec(0, 0), Dec(0, 0), Dec(0, 0), Dec(0, 0), Dec(0, 0);
    var u, top, counter := "", "", 0;
    for i := 0 to |procs|
      invariant counter == i
      invariant i > 0 ==> top == procs[i - 1].top && u == procs[i - 1].units
      invariant rtl == RtSum(procs[..i]) && l == SumBy(procs[..i], P99S)
      invariant tp == SumBy(procs[..i], THROUGHPUTS)
      invariant send == SumBy(procs[..i], SENDS)
      invariant recv == SumBy(procs[..i], RECVS)
      invariant retrans == SumBy(procs[..i], RETRANS)
    {
      assert procs[..i + 1][..i] == procs[..i];
      var file := procs[i];
      counter := counter + 1;
      top := file.top;
      if file.rtLatency == NO_LATENCY {
        rtl := NO_LATENCY;
      } else {
        rtl := BcAdd(rtl, file.rtLatency);
      }
      l := BcAdd(l, file.p99);
      tp := BcAdd(tp, file.throughput);
      send := BcAdd(send, file.sends);
      recv := BcAdd(recv, file.recvs);
      retrans := BcAdd(retrans, file.retrans);
      u := file.units;
    }
    assert procs[..|procs|] == procs;
    lines := Block(top, BcDiv(rtl, counter), BcDiv(l, counter), tp, retrans, recv, send, u);
  }

  // ---- Exact sums ----

  function RealSum(procs: seq<Proc>, f: Proc -> real): real {
    if procs == [] then 0.0 else RealSum(procs[..|procs| - 1], f) + f(procs[|procs| - 1])
  }

  lemma {:induction false} SumsAreExact(procs: seq<Proc>, f: Proc -> Dec, g: Proc -> real)
    requires forall p :: p in procs ==> Value(f(p)) == g(p)
    ensures Value(SumBy(procs, f)) == RealSum(procs, g)
  {
    if procs != [] {
      SumsAreExact(procs[..|procs| - 1], f, g);
      AddIsExact(SumBy(procs[..|procs| - 1], f), f(procs[|procs| - 1]));
      assert procs[|procs| - 1] in procs;
    }
  }

  // ---- Print and parse ----

  function Rank(k: Key): nat {
    match k
    case Units => 0
    case Throughput => 1
    case P99 => 2
    case Rt => 3
    case Send => 4
    case Recv => 5
    case Retrans => 6
  }

  lemma OnlyRatesHaveH(k: Key)
    requires Rank(k) > 1
    ensures 'H' !in Name(k)
  {
  }

  lemma RateAbsent(k: Key, j: Key)
    requires Rank(j) < Rank(k) && j in {Units, Throughput}
    ensures !Contains(Name(k), Name(j))
  {
    if k != Throughput {
      OnlyRatesHaveH(k);
    }
    MissingChar(Name(k), Name(j), if k == Throughput then 10 else 1);
  }

  lemma LatencyAbsent(k: Key, j: Key)
    requires Rank(j) < Rank(k) && j in {P99, Rt}
    ensures !Contains(Name(k), Name(j))
  {
    MissingChar(Name(k), Name(j), if j == Rt then 9 else if k == Rt then 1 else 10);
  }

  lemma CallsAbsent(k: Key, j: Key)
    requires Rank(j) < Rank(k) && j in {Send, Recv}
    ensures !Contains(Name(k), Name(j))
  {
    MissingChar(Name(k), Name(j), if j == Send then 9 else 10);
  }

  /** No key contains the name of a key that is asked for before it. */
  lemma EarlierAbsent(k: Key, j: Key)
    requires Rank(j) < Rank(k)
    ensures !Contains(Name(k), Name(j))
  {
    if j in {Units, Throughput} {
      RateAbsent(k, j);
    } else if j in {P99, Rt} {
      LatencyAbsent(k, j);
    } else {
      CallsAbsent(k, j);
    }
  }

  lemma Itself(s: string)
    ensures Contains(s, s)
  {
    assert s[0..0 + |s|] == s;
    assert At(s, s, 0);
  }

  lemma {:induction false} FirstMatch(keys: seq<Key>, hit: Key -> bool, i: nat)
    requires i < |keys| && hit(keys[i])
    requires forall j :: 0 <= j < i ==> !hit(keys[j])
    ensures FirstOf(keys, hit) == Some(keys[i])
  {
    if i > 0 {
      FirstMatch(keys[1..], hit, i - 1);
    }
  }

  /** The substring tests never take one printed key for another. */
  lemma KeyIsItself(k: Key)
    ensures KeyOf(Name(k)) == Some(k)
  {
    var hit := NamedIn(Name(k));
    Itself(Name(k));
    forall j | 0 <= j < Rank(k) ensures !hit(KEYS[j]) {
      EarlierAbsent(k, KEYS[j]);
    }
    FirstMatch(KEYS, hit, Rank(k));
  }

  predicate Plain(text: string) {
    text != "" && forall c :: c in text ==> IsDigit(c) || c == '-' || c == '.'
  }

  /** Plain text survives trimming and splitting, with or without a carriage return behind it. */
  lemma PlainText(text: string, end: string)
    requires Plain(text) && (end == "" || end == "\r")
    ensures TrimReturns(text + end) == text && TrimSpace(text + end) != "" && Split(text + end, '=') == [text + end]
  {
    TrimmedNumber(text, end);
    assert text[0] in text && (text + end)[0] == text[0];
    TrimKeepsSolid(text + end, 0);
    SplitNone(text + end, '=');
  }

  /** The entry of a printed number. */
  function ReadBack(k: Key, d: Dec, end: string): Entry {
    Entry(k, BcPrint(d) + end, Num(Value(d)))
  }

  lemma NoEqualsSign(k: Key)
    ensures '=' !in Name(k)
  {
  }

  /** A printed number line is read as its key and its number. */
  lemma NumberLine(k: Key, d: Dec, end: string)
    requires end == "" || end == "\r"
    ensures EntryOf(KeyLine(Name(k), BcPrint(d)) + end) == Some(ReadBack(k, d, end))
  {
    NoEqualsSign(k);
    KeyIsItself(k);
    KeyValueLine(Name(k), BcPrint(d), end, k);
    PrintedChars(d);
    PlainText(BcPrint(d), end);
    ParsePrinted(d);
  }

  lemma NotBlank(d: Dec, end: string)
    requires end == "" || end == "\r"
    ensures TrimSpace(BcPrint(d) + end) != ""
  {
    PrintedChars(d);
    PlainText(BcPrint(d), end);
  }

  /** Trimming keeps every character that is not a space. */
  lemma TrimKeepsSolid(s: string, i: nat)
    requires i < |s| && !IsSpace(s[i])
    ensures TrimSpace(s) != ""
  {
    TrimCuts(s, IsSpace);
  }

  /** What the driver is to read from a printed block. */
  function Expected(procs: seq<Proc>, end: string): Reading
    requires procs != []
  {
    Reading(Split(procs[|procs| - 1].units + end, '=')[0],
            Num(Value(SumBy(procs, THROUGHPUTS))),
            Num(Value(BcDiv(SumBy(procs, P99S), |procs|))),
            Num(Value(BcDiv(RtSum(procs), |procs|))),
            Num(Value(SumBy(procs, RETRANS))),
            Num(Value(SumBy(procs, SENDS))),
            Num(Value(SumBy(procs, RECVS))))
  }

  predicate Spoils(top: string) {
    EntryOf(top).Some? && Blank(EntryOf(top).value)
  }

  predicate OneLine(s: string) {
    '\n' !in s
  }

  lemma OneLineName(k: Key)
    ensures OneLine(Name(k))
  {
  }

  lemma OneLineJoined(k: Key, value: string)
    requires OneLine(value)
    ensures OneLine(KeyLine(Name(k), value))
  {
    OneLineName(k);
  }

  lemma OneLineNumber(d: Dec)
    ensures OneLine(BcPrint(d))
  {
    PrintedChars(d);
  }

  /** No line of a block breaks. */
  lemma BlockLines(top: string, rtl: Dec, l: Dec, tp: Dec, retrans: Dec, recv: Dec, send: Dec, units: string, i: nat)
    requires OneLine(top) && OneLine(units) && i < 8
    ensures OneLine(Block(top, rtl, l, tp, retrans, recv, send, units)[i])
  {
    if i in {1, 2, 3, 4, 5, 6} {
      var d := [rtl, rtl, l, tp, retrans, recv, send][i];
      OneLineNumber(d);
      OneLineJoined([Rt, Rt, P99, Throughput, Retrans, Recv, Send][i], BcPrint(d));
    } else if i == 7 {
      OneLineJoined(Units, units);
    }
  }

  lemma EightLines<T>(b: seq<string>, end: string, f: string -> T)
    requires |b| == 8
    ensures Mapped(Suffixed(b, end) + [""], f) ==
            [f(b[0] + end), f(b[1] + end), f(b[2] + end), f(b[3] + end),
             f(b[4] + end), f(b[5] + end), f(b[6] + end), f(b[7] + end), f("")]
  {
  }

  /** The entries of a block, the empty text behind its last newline included. */
  function BlockOf(top: Option<Entry>, rtl: Entry, l: Entry, tp: Entry, retrans: Entry, recv: Entry, send: Entry,
                   units: Entry): seq<Option<Entry>> {
    [top, Some(rtl), Some(l), Some(tp), Some(retrans), Some(recv), Some(send), Some(units), None]
  }

  function UnitsEntry(units: string, end: string): Entry {
    var text := Split(units + end, '=')[0];
    Entry(Units, text, Amount(text))
  }

  /** The entries read from a printed block. */
  lemma BlockEntries(top: string, rtl: Dec, l: Dec, tp: Dec, retrans: Dec, recv: Dec, send: Dec, units: string,
                     end: string)
    requires end == "" || end == "\r"
    ensures Entries(Suffixed(Block(top, rtl, l, tp, retrans, recv, send, units), end) + [""]) ==
            BlockOf(EntryOf(top + end), ReadBack(Rt, rtl, end), ReadBack(P99, l, end), ReadBack(Throughput, tp, end),
                    ReadBack(Retrans, retrans, end), ReadBack(Recv, recv, end), ReadBack(Send, send, end),
                    UnitsEntry(units, end))
  {
    NumberLine(Rt, rtl, end);
    NumberLine(P99, l, end);
    NumberLine(Throughput, tp, end);
    NumberLine(Retrans, retrans, end);
    NumberLine(Recv, recv, end);
    NumberLine(Send, send, end);
    NoEqualsSign(Units);
    KeyIsItself(Units);
    KeyValueLine(Name(Units), units, end, Units);
    EightLines(Block(top, rtl, l, tp, retrans, recv, send, units), end, EntryOf);
  }

  /** What a parser keeps of a block's entries. */
  lemma BlockReading(top: Option<Entry>, rtl: Entry, l: Entry, tp: Entry, retrans: Entry, recv: Entry, send: Entry,
                     units: Entry)
    requires rtl.key == Rt && l.key == P99 && tp.key == Throughput && retrans.key == Retrans
    requires recv.key == Recv && send.key == Send && units.key == Units
    ensures LastReading(BlockOf(top, rtl, l, tp, retrans, recv, send, units)) ==
            Reading(units.text, tp.number, l.number, rtl.number, retrans.number, send.number, recv.number)
  {
    var es := BlockOf(top, rtl, l, tp, retrans, recv, send, units);
    LastOne(es, 1);
    LastOne(es, 2);
    LastOne(es, 3);
    LastOne(es, 4);
    LastOne(es, 5);
    LastOne(es, 6);
    LastOne(es, 7);
  }

  lemma BlockBlanks(top: Option<Entry>, rtl: Entry, l: Entry, tp: Entry, retrans: Entry, recv: Entry, send: Entry,
                    units: Entry)
    requires rtl.key == Rt && retrans.key == Retrans && recv.key == Recv && send.key == Send && units.key == Units
    requires TrimSpace(l.text) != "" && TrimSpace(tp.text) != ""
    ensures NoBlank(BlockOf(top, rtl, l, tp, retrans, recv, send, units)) <==> top.None? || !Blank(top.value)
  {
    assert BlockOf(top, rtl, l, tp, retrans, recv, send, units)[0] == top;
  }

  /** Parsing the printed block, with or without carriage returns, gives the sums and averages of the processes, unless
      the banner line poses as an empty throughput or P99 latency. The unit text keeps a carriage return. */
  lemma ReadsPrinted(procs: seq<Proc>, end: string)
    requires procs != [] && (end == "" || end == "\r")
    requires '\n' !in procs[|procs| - 1].top && '\n' !in procs[|procs| - 1].units
    ensures Parse(Split(Unlines(Printed(procs), end + "\n"), '\n')) ==
            if Spoils(procs[|procs| - 1].top + end) then None
            else Some(ReportOf(Expected(procs, end)))
  {
    var last := procs[|procs| - 1];
    BlockRead(last.top, BcDiv(RtSum(procs), |procs|), BcDiv(SumBy(procs, P99S), |procs|),
              SumBy(procs, THROUGHPUTS), SumBy(procs, RETRANS),
              SumBy(procs, RECVS), SumBy(procs, SENDS), last.units, end);
  }

  lemma BlockRead(top: string, rtl: Dec, l: Dec, tp: Dec, retrans: Dec, recv: Dec, send: Dec, units: string,
                  end: string)
    requires end == "" || end == "\r"
    requires '\n' !in top && '\n' !in units
    ensures var r := Reading(Split(units + end, '=')[0], Num(Value(tp)), Num(Value(l)), Num(Value(rtl)),
                             Num(Value(retrans)), Num(Value(send)), Num(Value(recv)));
            Parse(Split(Unlines(Block(top, rtl, l, tp, retrans, recv, send, units), end + "\n"), '\n')) ==
            if Spoils(top + end) then None else Some(ReportOf(r))
  {
    var b := Block(top, rtl, l, tp, retrans, recv, send, units);
    forall i | 0 <= i < |b| ensures '\n' !in b[i] {
      BlockLines(top, rtl, l, tp, retrans, recv, send, units, i);
    }
    SplitUnlines(b, end);
    BlockEntries(top, rtl, l, tp, retrans, recv, send, units, end);
    ParseIsLast(Suffixed(b, end) + [""]);
    NotBlank(l, end);
    NotBlank(tp, end);
    BlockReading(EntryOf(top + end), ReadBack(Rt, rtl, end), ReadBack(P99, l, end), ReadBack(Throughput, tp, end),
                 ReadBack(Retrans, retrans, end), ReadBack(Recv, recv, end), ReadBack(Send, send, end),
                 UnitsEntry(units, end));
    BlockBlanks(EntryOf(top + end), ReadBack(Rt, rtl, end), ReadBack(P99, l, end), ReadBack(Throughput, tp, end),
                ReadBack(Retrans, retrans, end), ReadBack(Recv, recv, end), ReadBack(Send, send, end),
                UnitsEntry(units, end));
  }

  // ---- Loss over all processes ----

  const SENT := (p: Proc) => Value(p.sends)
  const RECEIVED := (p: Proc) => Value(p.recvs)
  const RETRANSMITTED := (p: Proc) => Value(p.retrans)
  const RATE := (p: Proc) => Value(p.throughput)
  const LOSS := (p: Proc) => LossOf(p)
  const TAIL := (p: Proc) => Value(p.p99)
  const ROUND_TRIP := (p: Proc) => Value(p.rtLatency)

  /** A UDP process that sent something and did not receive more than that. */
  predicate Datagrams(p: Proc) {
    Value(p.sends) > 0.0 && 0.0 <= Value(p.recvs) <= Value(p.sends)
  }

  /** The loss of one process, in percent. */
  function LossOf(p: Proc): real {
    if Value(p.sends) == 0.0 then 0.0 else 100.0 - Value(p.recvs) / Value(p.sends) * 100.0
  }

  /** The sum of the values x, weighted by w. */
  function Weighted(procs: seq<Proc>, w: Proc -> real, x: Proc -> real): real {
    if procs == [] then 0.0
    else
      var p := procs[|procs| - 1];
      Weighted(procs[..|procs| - 1], w, x) + Product(w(p), x(p))
  }

  lemma {:induction false} WeightedIsDifference(procs: seq<Proc>, w: Proc -> real, r: Proc -> real, x: Proc -> real)
    requires forall p :: p in procs ==>
               Product(w(p), x(p)) == 100.0 * w(p) - 100.0 * r(p) && 0.0 <= r(p) <= w(p) && w(p) > 0.0
    ensures Weighted(procs, w, x) == 100.0 * RealSum(procs, w) - 100.0 * RealSum(procs, r)
    ensures 0.0 <= RealSum(procs, r) <= RealSum(procs, w) && (procs != [] ==> RealSum(procs, w) > 0.0)
  {
    if procs != [] {
      WeightedIsDifference(procs[..|procs| - 1], w, r, x);
      assert procs[|procs| - 1] in procs;
    }
  }

  lemma {:induction false} WeightedBetween(procs: seq<Proc>, w: Proc -> real, x: Proc -> real, lo: real, hi: real)
    requires forall p :: p in procs ==> w(p) > 0.0 && lo <= x(p) <= hi
    ensures Product(lo, RealSum(procs, w)) <= Weighted(procs, w, x) <= Product(hi, RealSum(procs, w))
  {
    if procs != [] {
      var init, p := procs[..|procs| - 1], procs[|procs| - 1];
      WeightedBetween(init, w, x, lo, hi);
      assert p in procs;
      MeanStep(lo, hi, x(p), w(p), RealSum(init, w), Weighted(init, w, x));
    }
  }

  lemma MeanStep(lo: real, hi: real, x: real, s: real, total: real, weighted: real)
    requires Product(lo, total) <= weighted <= Product(hi, total) && lo <= x <= hi && s > 0.0
    ensures Product(lo, total + s) <= weighted + Product(s, x) <= Product(hi, total + s)
  {
    Scaled(lo, x, s);
    Scaled(x, hi, s);
    Distributes(lo, total, s);
    Distributes(hi, total, s);
  }

  lemma Distributes(a: real, x: real, y: real)
    ensures a * (x + y) == a * x + a * y
  {
  }

  lemma Scaled(a: real, b: real, s: real)
    requires a <= b && s > 0.0
    ensures a * s <= s * b && s * a <= b * s
  {
  }

  lemma QuotientTimes(r: real, s: real)
    requires s > 0.0
    ensures s * (100.0 - r / s * 100.0) == 100.0 * s - 100.0 * r
  {
    var q := r / s;
    assert q * s == r;
    assert s * (100.0 - q * 100.0) == 100.0 * s - 100.0 * (q * s);
  }

  lemma LossTimesSent(p: Proc)
    requires Datagrams(p)
    ensures Product(SENT(p), LOSS(p)) == 100.0 * SENT(p) - 100.0 * RECEIVED(p)
    ensures 0.0 <= RECEIVED(p) <= SENT(p) && SENT(p) > 0.0
  {
    QuotientTimes(Value(p.recvs), Value(p.sends));
  }

  /** A reading with the real sums over the processes. */
  predicate Totals(procs: seq<Proc>, e: Reading) {
    && e.send == Num(RealSum(procs, SENT)) && e.recv == Num(RealSum(procs, RECEIVED))
    && e.retransmits == Num(RealSum(procs, RETRANSMITTED)) && e.throughput == Num(RealSum(procs, RATE))
  }

  lemma ExpectedTotals(procs: seq<Proc>, end: string)
    requires procs != []
    ensures Totals(procs, Expected(procs, end))
  {
    SumsAreExact(procs, SENDS, SENT);
    SumsAreExact(procs, RECVS, RECEIVED);
    SumsAreExact(procs, RETRANS, RETRANSMITTED);
    SumsAreExact(procs, THROUGHPUTS, RATE);
  }

  lemma DatagramSums(procs: seq<Proc>)
    requires procs != [] && forall p :: p in procs ==> Datagrams(p)
    ensures Weighted(procs, SENT, LOSS) == 100.0 * RealSum(procs, SENT) - 100.0 * RealSum(procs, RECEIVED)
    ensures 0.0 <= RealSum(procs, RECEIVED) <= RealSum(procs, SENT) && RealSum(procs, SENT) > 0.0
  {
    forall p | p in procs
      ensures Product(SENT(p), LOSS(p)) == 100.0 * SENT(p) - 100.0 * RECEIVED(p)
      ensures 0.0 <= RECEIVED(p) <= SENT(p) && SENT(p) > 0.0
    {
      LossTimesSent(p);
    }
    WeightedIsDifference(procs, SENT, RECEIVED, LOSS);
  }

  /** Bounds on every loss bound the part of all sends that was lost. */
  lemma DatagramBounds(procs: seq<Proc>, lo: real, hi: real)
    requires procs != [] && forall p :: p in procs ==> Datagrams(p) && lo <= LossOf(p) <= hi
    ensures var s, r := RealSum(procs, SENT), RealSum(procs, RECEIVED);
            s > 0.0 && Product(lo, s) <= 100.0 * s - 100.0 * r <= Product(hi, s)
  {
    DatagramSums(procs);
    WeightedBetween(procs, SENT, LOSS, lo, hi);
  }

  lemma LossFromSums(e: Reading, s: real, r: real)
    requires e.send == Num(s) && e.recv == Num(r) && Less(e.retransmits, ZERO) && s > 0.0
    ensures Loss(e).Num? && Product(Loss(e).r, s) == 100.0 * s - 100.0 * r
  {
    QuotientTimes(r, s);
  }

  /** For UDP, where the retransmits are reported as negative, the loss of the totals is the send-weighted mean of the
      losses of the processes. */
  lemma LossIsWeightedMean(procs: seq<Proc>, e: Reading)
    requires procs != [] && forall p :: p in procs ==> Datagrams(p)
    requires Totals(procs, e) && RealSum(procs, RETRANSMITTED) < 0.0
    ensures Loss(e).Num? && RealSum(procs, SENT) > 0.0
    ensures Product(Loss(e).r, RealSum(procs, SENT)) == Weighted(procs, SENT, LOSS)
  {
    DatagramSums(procs);
    LossFromSums(e, RealSum(procs, SENT), RealSum(procs, RECEIVED));
  }

  /** It lies between any bounds on the losses of the processes. */
  lemma LossIsBetween(procs: seq<Proc>, e: Reading, lo: real, hi: real)
    requires procs != [] && forall p :: p in procs ==> Datagrams(p) && lo <= LossOf(p) <= hi
    requires Totals(procs, e) && RealSum(procs, RETRANSMITTED) < 0.0
    ensures Loss(e).Num? && lo <= Loss(e).r <= hi
  {
    DatagramBounds(procs, lo, hi);
    var s := RealSum(procs, SENT);
    LossFromSums(e, s, RealSum(procs, RECEIVED));
    Unscaled(lo, Loss(e).r, s);
    Unscaled(Loss(e).r, hi, s);
  }

  /** It is a percentage. */
  lemma LossIsPercentage(procs: seq<Proc>, e: Reading)
    requires procs != [] && forall p :: p in procs ==> Datagrams(p)
    requires Totals(procs, e) && RealSum(procs, RETRANSMITTED) < 0.0
    ensures Loss(e).Num? && 0.0 <= Loss(e).r <= 100.0
  {
    forall p | p in procs ensures 0.0 <= LossOf(p) <= 100.0 {
      Ratio(Value(p.recvs), Value(p.sends));
    }
    LossIsBetween(procs, e, 0.0, 100.0);
  }

  /** The last process without a round trip latency is the one before position i; the later ones have one. */
  predicate RtFrom(procs: seq<Proc>, i: nat) {
    && i <= |procs| && (i > 0 ==> procs[i - 1].rtLatency == Dec(-1000, 3))
    && forall k :: i <= k < |procs| ==> procs[k].rtLatency != Dec(-1000, 3)
  }

  /** -1 stands for that process and all before it; the later ones are added. */
  function RtTotal(procs: seq<Proc>, i: nat): real
    requires i <= |procs|
  {
    (if i == 0 then 0.0 else -1.0) + RealSum(procs[i..], ROUND_TRIP)
  }

  lemma NoLatencyValue()
    ensures Value(Dec(-1000, 3)) == -1.0
  {
    ValueExactly(-1000, 0);
    ValueExactly(-1000, 1);
    ValueExactly(-1000, 2);
  }

  lemma {:induction false} RtSumExactly(procs: seq<Proc>, i: nat)
    requires RtFrom(procs, i)
    ensures Value(RtSum(procs)) == RtTotal(procs, i)
  {
    if i == |procs| {
      NoLatencyValue();
      assert procs[i..] == [];
    } else {
      var init, last := procs[..|procs| - 1], procs[|procs| - 1];
      RtSumExactly(init, i);
      AddIsExact(RtSum(init), last.rtLatency);
      assert procs[i..][..|procs[i..]| - 1] == init[i..];
    }
  }

  lemma {:induction false} RtFromFound(procs: seq<Proc>) returns (i: nat)
    ensures RtFrom(procs, i)
  {
    if procs == [] || procs[|procs| - 1].rtLatency == Dec(-1000, 3) {
      i := |procs|;
    } else {
      i := RtFromFound(procs[..|procs| - 1]);
    }
  }

  /** x is the truncated mean of total over n processes. */
  predicate IsMean(x: Float, total: real, n: nat) {
    x.Num? && Truncated(total, n, x.r.Floor) && x.r == x.r.Floor as real
  }

  lemma MeanPrinted(d: Dec, total: real, n: nat)
    requires n > 0 && Value(d) == total
    ensures IsMean(Num(Value(BcDiv(d, n))), total, n)
  {
    var q := BcDivTruncates(d, n);
  }

  /** The averages are those of the exact sums. */
  lemma ExpectedMeans(procs: seq<Proc>, end: string, i: nat)
    requires procs != [] && RtFrom(procs, i)
    ensures IsMean(Expected(procs, end).latency99, RealSum(procs, TAIL), |procs|)
    ensures IsMean(Expected(procs, end).latency, RtTotal(procs, i), |procs|)
  {
    SumsAreExact(procs, P99S, TAIL);
    MeanPrinted(SumBy(procs, P99S), RealSum(procs, TAIL), |procs|);
    RtSumExactly(procs, i);
    MeanPrinted(RtSum(procs), RtTotal(procs, i), |procs|);
  }

  /** The report the driver makes of the printed block: totals and truncated means of the exact sums over the processes,
      and the loss of the totals. */
  lemma PrintedTotals(procs: seq<Proc>, end: string, report: Report) returns (e: Reading, i: nat)
    requires procs != [] && (end == "" || end == "\r")
    requires '\n' !in procs[|procs| - 1].top && '\n' !in procs[|procs| - 1].units
    requires Parse(Split(Unlines(Printed(procs), end + "\n"), '\n')) == Some(report)
    ensures Totals(procs, e) && report.metric == e.metric
    ensures '=' !in procs[|procs| - 1].units ==> report.metric == procs[|procs| - 1].units + end
    ensures report.sample.throughput == e.throughput && report.sample.retransmits == e.retransmits
    ensures report.sample.lossPercent == Loss(e)
    ensures RightLoss(report.sample.lossPercent, Num(RealSum(procs, RETRANSMITTED)), Num(RealSum(procs, SENT)),
                      Num(RealSum(procs, RECEIVED)))
    ensures RtFrom(procs, i) && IsMean(report.sample.latency, RtTotal(procs, i), |procs|)
    ensures IsMean(report.sample.latency99, RealSum(procs, TAIL), |procs|)
  {
    e := Expected(procs, end);
    i := RtFromFound(procs);
    ReadsPrinted(procs, end);
    ExpectedTotals(procs, end);
    ExpectedMeans(procs, end, i);
    LossIsRight(e);
    if '=' !in procs[|procs| - 1].units {
      SplitNone(procs[|procs| - 1].units + end, '=');
    }
  }

  lemma Ratio(r: real, s: real)
    requires 0.0 <= r <= s && s > 0.0
    ensures 0.0 <= r / s <= 1.0
  {
  }
}

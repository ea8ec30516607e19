/** pkg/drivers/uperf.go: finding the Txn2 records in the output of uperf. The regular expressions
    `timestamp_ms:(.*) name:Txn2 nr_bytes:(.*) nr_ops:(.*)\r` and the same without `\r` never cross a newline, so
    they are matched line by line: leftmost start, greedy groups. */
module UperfOutput {
  import opened Config
  import opened Text

  const TIME := "timestamp_ms:"
  const BYTES := " name:Txn2 nr_bytes:"
  const OPS := " nr_ops:"

  /** The three groups of a match. */
  datatype Fields = Fields(time: string, bytes: string, ops: string)

  /** The largest k with from <= k < to and p(k). */
  function LastWhere(p: nat -> bool, from: nat, to: nat): Option<nat>
    decreases to
  {
    if to <= from then None
    else if p(to - 1) then Some(to - 1)
    else LastWhere(p, from, to - 1)
  }

  /** The smallest k with from <= k < to and p(k). */
  function FirstWhere(p: nat -> bool, from: nat, to: nat): Option<nat>
    decreases if from < to then to - from else 0
  {
    if to <= from then None
    else if p(from) then Some(from)
    else FirstWhere(p, from + 1, to)
  }

  /** Where the last group ends: before the last carriage return, or at the end of the line. */
  function EndOf(line: string, cr: bool, from: nat): Option<nat> {
    if from > |line| then None
    else if !cr then Some(|line|)
    else LastWhere((k: nat) => k < |line| && line[k] == '\r', from, |line|)
  }

  function OpsAt(line: string, cr: bool, from: nat): Option<nat> {
    LastWhere((k: nat) => At(line, OPS, k) && EndOf(line, cr, k + |OPS|).Some?, from, |line| + 1)
  }

  function BytesAt(line: string, cr: bool, from: nat): Option<nat> {
    LastWhere((j: nat) => At(line, BYTES, j) && OpsAt(line, cr, j + |BYTES|).Some?, from, |line| + 1)
  }

  function TimeAt(line: string, cr: bool): Option<nat> {
    FirstWhere((i: nat) => At(line, TIME, i) && BytesAt(line, cr, i + |TIME|).Some?, 0, |line| + 1)
  }

  predicate InOrder(line: string, i: nat, j: nat, k: nat, e: nat) {
    i + |TIME| <= j && j + |BYTES| <= k && k + |OPS| <= e <= |line|
  }

  function GroupsOf(line: string, i: nat, j: nat, k: nat, e: nat): Option<Fields> {
    if InOrder(line, i, j, k, e) then Some(Fields(line[i + |TIME|..j], line[j + |BYTES|..k], line[k + |OPS|..e]))
    else None
  }

  /** The match of one line; nothing behind it can match again, for want of a carriage return or of text. */
  function MatchLine(line: string, cr: bool): Option<Fields> {
    match TimeAt(line, cr)
    case None => None
    case Some(i) =>
      match BytesAt(line, cr, i + |TIME|)
      case None => None
      case Some(j) =>
        match OpsAt(line, cr, j + |BYTES|)
        case None => None
        case Some(k) =>
          match EndOf(line, cr, k + |OPS|)
          case None => None
          case Some(e) => GroupsOf(line, i, j, k, e)
  }

  type Matcher = string -> Option<Fields>

  function Regexp(cr: bool): Matcher {
    line => MatchLine(line, cr)
  }

  function MatchLines(lines: seq<string>, m: Matcher): seq<Fields> {
    if lines == [] then []
    else
      (match m(lines[0]) case Some(f) => [f] case None => [])
      + MatchLines(lines[1..], m)
  }

  /** The two passes of FindAllStringSubmatch: the second when the first finds nothing. */
  function Passes(lines: seq<string>, withReturn: Matcher, without: Matcher): seq<Fields> {
    var transactions := MatchLines(lines, withReturn);
    if |transactions| < 1 then MatchLines(lines, without) else transactions
  }

  function Extract(output: string): seq<Fields> {
    Passes(Split(output, '\n'), Regexp(true), Regexp(false))
  }

  // ---- What uperf prints ----

  /** Text of a number: digits and a decimal point. */
  predicate NumberText(s: string) {
    forall c :: c in s ==> '0' <= c <= '9' || c == '.'
  }

  predicate Numeric(f: Fields) {
    NumberText(f.time) && NumberText(f.bytes) && NumberText(f.ops)
  }

  /** A line of output: a Txn2 record or anything else. */
  datatype Line = Record(fields: Fields) | Other(text: string)

  function Print(l: Line): string {
    match l
    case Record(f) => "timestamp_ms:" + f.time + " name:Txn2 nr_bytes:" + f.bytes + " nr_ops:" + f.ops
    case Other(t) => t
  }

  predicate Printable(l: Line) {
    match l
    case Record(f) => Numeric(f)
    case Other(t) => !Contains(t, BYTES) && '\n' !in t && '\r' !in t
  }

  predicate AllPrintable(ls: seq<Line>) {
    forall i {:trigger Printable(ls[i])} :: 0 <= i < |ls| ==> Printable(ls[i])
  }

  lemma PrintableRest(ls: seq<Line>)
    requires AllPrintable(ls) && ls != []
    ensures Printable(ls[0]) && AllPrintable(ls[1..])
  {
    forall i | 0 <= i < |ls[1..]| ensures Printable(ls[1..][i]) {
      assert Printable(ls[i + 1]);
    }
  }

  function Records(ls: seq<Line>): seq<Fields> {
    if ls == [] then [] else (if ls[0].Record? then [ls[0].fields] else []) + Records(ls[1..])
  }

  function Prints(ls: seq<Line>): seq<string> {
    seq(|ls|, i requires 0 <= i < |ls| => Print(ls[i]))
  }

  /** What stands before the newline: a carriage return on the terminal of a pod, nothing in a virtual machine. */
  predicate LineEnd(end: string) {
    end == "" || end == "\r"
  }

  /** The output of uperf. */
  function Output(ls: seq<Line>, end: string): string {
    Unlines(Prints(ls), end + "\n")
  }

  // ---- Leftmost and greedy ----

  lemma {:induction false} LastExactly(p: nat -> bool, from: nat, to: nat)
    ensures LastWhere(p, from, to) == None ==> forall m: nat :: from <= m < to ==> !p(m)
    ensures LastWhere(p, from, to).Some? ==>
              var k := LastWhere(p, from, to).value; from <= k < to && p(k) && forall m: nat :: k < m < to ==> !p(m)
  {
    if to > from {
      LastExactly(p, from, to - 1);
    }
  }

  lemma {:induction false} FirstExactly(p: nat -> bool, from: nat, to: nat)
    ensures FirstWhere(p, from, to) == None ==> forall m: nat :: from <= m < to ==> !p(m)
    ensures FirstWhere(p, from, to).Some? ==>
              var k := FirstWhere(p, from, to).value; from <= k < to && p(k) && forall m: nat :: from <= m < k ==> !p(m)
    decreases if from < to then to - from else 0
  {
    if to > from {
      FirstExactly(p, from + 1, to);
    }
  }

  /** The last group may end at e. */
  predicate EndFits(line: string, cr: bool, from: nat, e: nat) {
    from <= e <= |line| && if cr then e < |line| && line[e] == '\r' else e == |line|
  }

  /** The literal of the operations may stand at k, with the group behind it up to e. */
  predicate OpsFits(line: string, cr: bool, from: nat, k: nat, e: nat) {
    from <= k && At(line, OPS, k) && EndFits(line, cr, k + |OPS|, e)
  }

  predicate BytesFits(line: string, cr: bool, from: nat, j: nat, k: nat, e: nat) {
    from <= j && At(line, BYTES, j) && OpsFits(line, cr, j + |BYTES|, k, e)
  }

  predicate TimeFits(line: string, cr: bool, i: nat, j: nat, k: nat, e: nat) {
    At(line, TIME, i) && BytesFits(line, cr, i + |TIME|, j, k, e)
  }

  /** Greedy: the largest of the possible values. */
  ghost predicate Largest(r: Option<nat>, p: nat -> bool) {
    match r
    case None => forall m: nat :: !p(m)
    case Some(k) => p(k) && forall m: nat :: p(m) ==> m <= k
  }

  lemma LargestBelow(p: nat -> bool, from: nat, to: nat, q: nat -> bool)
    requires forall m: nat :: q(m) <==> from <= m < to && p(m)
    ensures Largest(LastWhere(p, from, to), q)
  {
    LastExactly(p, from, to);
  }

  function EndsBehind(line: string, cr: bool, from: nat): nat -> bool {
    (e: nat) => EndFits(line, cr, from, e)
  }

  lemma EndIsLargest(line: string, cr: bool, from: nat)
    ensures Largest(EndOf(line, cr, from), EndsBehind(line, cr, from))
  {
    if from <= |line| && cr {
      LargestBelow((k: nat) => k < |line| && line[k] == '\r', from, |line|, EndsBehind(line, cr, from));
    }
  }

  ghost function OpsBehind(line: string, cr: bool, from: nat): nat -> bool {
    (k: nat) => exists e: nat :: OpsFits(line, cr, from, k, e)
  }

  lemma OpsPossible(line: string, cr: bool, from: nat, k: nat)
    ensures OpsBehind(line, cr, from)(k) <==>
            from <= k <= |line| && At(line, OPS, k) && EndOf(line, cr, k + |OPS|).Some?
  {
    var behind := EndsBehind(line, cr, k + |OPS|);
    EndIsLargest(line, cr, k + |OPS|);
    if EndOf(line, cr, k + |OPS|).Some? {
      var e := EndOf(line, cr, k + |OPS|).value;
      assert behind(e);
      assert from <= k && At(line, OPS, k) ==> OpsFits(line, cr, from, k, e);
    } else {
      var start := k + |OPS|;
      forall e: nat ensures !EndFits(line, cr, start, e) {
        assert !behind(e);
      }
    }
  }

  lemma OpsIsLargest(line: string, cr: bool, from: nat)
    ensures Largest(OpsAt(line, cr, from), OpsBehind(line, cr, from))
  {
    forall k: nat { OpsPossible(line, cr, from, k); }
    LargestBelow((k: nat) => At(line, OPS, k) && EndOf(line, cr, k + |OPS|).Some?, from, |line| + 1,
                 OpsBehind(line, cr, from));
  }

  ghost function BytesBehind(line: string, cr: bool, from: nat): nat -> bool {
    (j: nat) => exists k: nat, e: nat :: BytesFits(line, cr, from, j, k, e)
  }

  lemma BytesPossible(line: string, cr: bool, from: nat, j: nat)
    ensures BytesBehind(line, cr, from)(j) <==>
            from <= j <= |line| && At(line, BYTES, j) && OpsAt(line, cr, j + |BYTES|).Some?
  {
    var behind := OpsBehind(line, cr, j + |BYTES|);
    OpsIsLargest(line, cr, j + |BYTES|);
    if OpsAt(line, cr, j + |BYTES|).Some? {
      var k := OpsAt(line, cr, j + |BYTES|).value;
      assert behind(k);
      var e: nat :| OpsFits(line, cr, j + |BYTES|, k, e);
      assert from <= j && At(line, BYTES, j) ==> BytesFits(line, cr, from, j, k, e);
    } else {
      var start := j + |BYTES|;
      forall k: nat, e: nat ensures !OpsFits(line, cr, start, k, e) {
        assert !behind(k);
      }
    }
  }

  lemma BytesIsLargest(line: string, cr: bool, from: nat)
    ensures Largest(BytesAt(line, cr, from), BytesBehind(line, cr, from))
  {
    forall j: nat { BytesPossible(line, cr, from, j); }
    LargestBelow((j: nat) => At(line, BYTES, j) && OpsAt(line, cr, j + |BYTES|).Some?, from, |line| + 1,
                 BytesBehind(line, cr, from));
  }

  ghost predicate Possible(p: nat -> bool) {
    exists m: nat :: p(m)
  }

  ghost predicate StartFits(line: string, cr: bool, i: nat) {
    At(line, TIME, i) && Possible(BytesBehind(line, cr, i + |TIME|))
  }

  lemma TimeIsSmallest(line: string, cr: bool)
    ensures TimeAt(line, cr) == None ==> forall i: nat :: !StartFits(line, cr, i)
    ensures TimeAt(line, cr).Some? ==> StartFits(line, cr, TimeAt(line, cr).value)
    ensures TimeAt(line, cr).Some? ==> forall i: nat :: StartFits(line, cr, i) ==> TimeAt(line, cr).value <= i
  {
    var p := (i: nat) => At(line, TIME, i) && BytesAt(line, cr, i + |TIME|).Some?;
    forall i: nat ensures StartFits(line, cr, i) <==> i < |line| + 1 && p(i) {
      BytesIsLargest(line, cr, i + |TIME|);
    }
    FirstExactly(p, 0, |line| + 1);
  }

  /** The leftmost start, then the longest first group, then the longest second one, then the longest third one. */
  ghost predicate BestFit(line: string, cr: bool, i: nat, j: nat, k: nat, e: nat) {
    && TimeFits(line, cr, i, j, k, e)
    && (forall i': nat, j': nat, k': nat, e': nat :: TimeFits(line, cr, i', j', k', e') ==> i <= i')
    && (forall j': nat, k': nat, e': nat :: TimeFits(line, cr, i, j', k', e') ==> j' <= j)
    && (forall k': nat, e': nat :: TimeFits(line, cr, i, j, k', e') ==> k' <= k)
    && (forall e': nat :: TimeFits(line, cr, i, j, k, e') ==> e' <= e)
  }

  lemma FitsAreOrdered(line: string, cr: bool, i: nat, j: nat, k: nat, e: nat)
    requires TimeFits(line, cr, i, j, k, e)
    ensures InOrder(line, i, j, k, e) && StartFits(line, cr, i) && BytesBehind(line, cr, i + |TIME|)(j)
    ensures OpsBehind(line, cr, j + |BYTES|)(k) && EndsBehind(line, cr, k + |OPS|)(e)
  {
    assert BytesFits(line, cr, i + |TIME|, j, k, e) && OpsFits(line, cr, j + |BYTES|, k, e);
    assert BytesBehind(line, cr, i + |TIME|)(j);
  }

  ghost predicate Leftmost(line: string, cr: bool, i: nat) {
    StartFits(line, cr, i) && forall i': nat :: StartFits(line, cr, i') ==> i <= i'
  }

  lemma LargestIsBest(line: string, cr: bool, i: nat, j: nat, k: nat, e: nat)
    requires Leftmost(line, cr, i) && Largest(Some(j), BytesBehind(line, cr, i + |TIME|))
    requires Largest(Some(k), OpsBehind(line, cr, j + |BYTES|)) && Largest(Some(e), EndsBehind(line, cr, k + |OPS|))
    ensures BestFit(line, cr, i, j, k, e)
  {
    forall i': nat, j': nat, k': nat, e': nat | TimeFits(line, cr, i', j', k', e') ensures i <= i' {
      FitsAreOrdered(line, cr, i', j', k', e');
    }
    forall j': nat, k': nat, e': nat | TimeFits(line, cr, i, j', k', e') ensures j' <= j {
      FitsAreOrdered(line, cr, i, j', k', e');
    }
    forall k': nat, e': nat | TimeFits(line, cr, i, j, k', e') ensures k' <= k {
      FitsAreOrdered(line, cr, i, j, k', e');
    }
    forall e': nat | TimeFits(line, cr, i, j, k, e') ensures e' <= e {
      FitsAreOrdered(line, cr, i, j, k, e');
    }
  }

  lemma OpsSearched(line: string, cr: bool, from: nat) returns (k: nat, e: nat)
    requires OpsAt(line, cr, from).Some?
    ensures OpsAt(line, cr, from) == Some(k) && Largest(Some(k), OpsBehind(line, cr, from))
    ensures EndOf(line, cr, k + |OPS|) == Some(e) && Largest(Some(e), EndsBehind(line, cr, k + |OPS|))
  {
    OpsIsLargest(line, cr, from);
    k := OpsAt(line, cr, from).value;
    OpsPossible(line, cr, from, k);
    EndIsLargest(line, cr, k + |OPS|);
    e := EndOf(line, cr, k + |OPS|).value;
  }

  lemma BytesSearched(line: string, cr: bool, from: nat) returns (j: nat)
    requires BytesAt(line, cr, from).Some?
    ensures BytesAt(line, cr, from) == Some(j) && Largest(Some(j), BytesBehind(line, cr, from))
    ensures OpsAt(line, cr, j + |BYTES|).Some?
  {
    BytesIsLargest(line, cr, from);
    j := BytesAt(line, cr, from).value;
    BytesPossible(line, cr, from, j);
  }

  lemma TimeSearched(line: string, cr: bool) returns (i: nat)
    requires TimeAt(line, cr).Some?
    ensures TimeAt(line, cr) == Some(i) && Leftmost(line, cr, i) && BytesAt(line, cr, i + |TIME|).Some?
  {
    TimeIsSmallest(line, cr);
    i := TimeAt(line, cr).value;
    BytesIsLargest(line, cr, i + |TIME|);
  }

  lemma MatchOf(line: string, cr: bool, i: nat, j: nat, k: nat, e: nat)
    requires TimeAt(line, cr) == Some(i) && BytesAt(line, cr, i + |TIME|) == Some(j)
    requires OpsAt(line, cr, j + |BYTES|) == Some(k) && EndOf(line, cr, k + |OPS|) == Some(e)
    ensures MatchLine(line, cr) == GroupsOf(line, i, j, k, e)
  {
  }

  lemma SearchIsBest(line: string, cr: bool) returns (i: nat, j: nat, k: nat, e: nat)
    requires TimeAt(line, cr).Some?
    ensures BestFit(line, cr, i, j, k, e) && MatchLine(line, cr) == GroupsOf(line, i, j, k, e)
  {
    i := TimeSearched(line, cr);
    j := BytesSearched(line, cr, i + |TIME|);
    k, e := OpsSearched(line, cr, j + |BYTES|);
    MatchOf(line, cr, i, j, k, e);
    LargestIsBest(line, cr, i, j, k, e);
  }

  /** The match of a line is the one Go's leftmost, greedy matching prefers, and there is none exactly when the literals
      cannot be placed. */
  lemma MatchesExactly(line: string, cr: bool, f: Fields)
    ensures MatchLine(line, cr) == Some(f) <==>
            exists i: nat, j: nat, k: nat, e: nat ::
              BestFit(line, cr, i, j, k, e) && GroupsOf(line, i, j, k, e) == Some(f)
    ensures MatchLine(line, cr) == None <==>
            forall i: nat, j: nat, k: nat, e: nat :: !TimeFits(line, cr, i, j, k, e)
  {
    if TimeAt(line, cr).Some? {
      var i, j, k, e := SearchIsBest(line, cr);
      FitsAreOrdered(line, cr, i, j, k, e);
      forall i': nat, j': nat, k': nat, e': nat | BestFit(line, cr, i', j', k', e')
        ensures GroupsOf(line, i', j', k', e') == GroupsOf(line, i, j, k, e)
      {
        BestIsUnique(line, cr, i, j, k, e, i', j', k', e');
      }
    } else {
      TimeIsSmallest(line, cr);
      forall i: nat, j: nat, k: nat, e: nat ensures !TimeFits(line, cr, i, j, k, e) {
        if TimeFits(line, cr, i, j, k, e) {
          FitsAreOrdered(line, cr, i, j, k, e);
        }
      }
    }
  }

  lemma BestIsUnique(line: string, cr: bool, i: nat, j: nat, k: nat, e: nat, i': nat, j': nat, k': nat, e': nat)
    requires BestFit(line, cr, i, j, k, e) && BestFit(line, cr, i', j', k', e')
    ensures i == i' && j == j' && k == k' && e == e'
  {
    assert i == i';
    assert j == j';
    assert k == k';
  }

  // ---- Round trip ----

  lemma LastIs(p: nat -> bool, from: nat, to: nat, k: nat)
    requires from <= k < to && p(k) && forall m: nat :: k < m < to ==> !p(m)
    ensures LastWhere(p, from, to) == Some(k)
  {
    LastExactly(p, from, to);
  }

  /** Without the middle literal there is no match. */
  lemma NoMatch(line: string, cr: bool)
    requires !Contains(line, BYTES)
    ensures MatchLine(line, cr) == None
  {
    forall i: nat ensures BytesAt(line, cr, i) == None {
      LastExactly((j: nat) => At(line, BYTES, j) && OpsAt(line, cr, j + |BYTES|).Some?, i, |line| + 1);
    }
    FirstExactly((i: nat) => At(line, TIME, i) && BytesAt(line, cr, i + |TIME|).Some?, 0, |line| + 1);
  }

  /** Without a carriage return the first expression finds nothing. */
  lemma NoReturnNoMatch(line: string)
    requires '\r' !in line
    ensures MatchLine(line, true) == None
  {
    forall k: nat ensures EndOf(line, true, k) == None {
      LastExactly((m: nat) => m < |line| && line[m] == '\r', k, |line|);
    }
    forall j: nat ensures OpsAt(line, true, j) == None {
      LastExactly((k: nat) => At(line, OPS, k) && EndOf(line, true, k + |OPS|).Some?, j, |line| + 1);
    }
    forall i: nat ensures BytesAt(line, true, i) == None {
      LastExactly((j: nat) => At(line, BYTES, j) && OpsAt(line, true, j + |BYTES|).Some?, i, |line| + 1);
    }
    FirstExactly((i: nat) => At(line, TIME, i) && BytesAt(line, true, i + |TIME|).Some?, 0, |line| + 1);
  }

  /** Every character of a printed record belongs to a literal or to a number. */
  lemma CharOfRecord(f: Fields, k: nat)
    requires Numeric(f) && k < |Print(Record(f))|
    ensures var c, j := Print(Record(f))[k], |TIME| + |f.time|;
            var o := j + |BYTES| + |f.bytes|;
            if k < |TIME| then c == TIME[k]
            else if j <= k < j + |BYTES| then c == BYTES[k - j]
            else if o <= k < o + |OPS| then c == OPS[k - o]
            else '0' <= c <= '9' || c == '.'
  {
    var j := |TIME| + |f.time|;
    var o := j + |BYTES| + |f.bytes|;
    if |TIME| <= k < j {
      assert f.time[k - |TIME|] in f.time;
    } else if j + |BYTES| <= k < o {
      assert f.bytes[k - j - |BYTES|] in f.bytes;
    } else if o + |OPS| <= k {
      assert f.ops[k - o - |OPS|] in f.ops;
    }
  }

  /** Where the literals of a printed record are, with the line end the expression asks for. */
  predicate Layout(f: Fields, cr: bool, line: string, j: nat, o: nat, e: nat) {
    && Numeric(f)
    && line == Print(Record(f)) + (if cr then "\r" else "")
    && j == |TIME| + |f.time| && o == j + |BYTES| + |f.bytes| && e == o + |OPS| + |f.ops|
  }

  lemma SpacesOfLine(f: Fields, cr: bool, line: string, j: nat, o: nat, e: nat, k: nat)
    requires Layout(f, cr, line, j, o, e) && k < |line| && line[k] == ' '
    ensures k == j || k == j + 10 || k == o
  {
    assert cr ==> line[e] == '\r';
    if k < e {
      CharOfRecord(f, k);
    }
  }

  lemma LiteralsOfLine(f: Fields, cr: bool, line: string, j: nat, o: nat, e: nat)
    requires Layout(f, cr, line, j, o, e)
    ensures At(line, TIME, 0) && At(line, BYTES, j) && At(line, OPS, o)
    ensures line[|TIME|..j] == f.time && line[j + |BYTES|..o] == f.bytes && line[o + |OPS|..e] == f.ops
  {
    Pieces(TIME, f.time, BYTES, f.bytes, OPS, f.ops, if cr then "\r" else "");
  }

  lemma Pieces(t: string, x: string, b: string, y: string, o: string, z: string, end: string)
    ensures var s, j := t + x + b + y + o + z + end, |t| + |x|;
            var k := j + |b| + |y|;
            && At(s, t, 0) && s[|t|..j] == x && At(s, b, j)
            && s[j + |b|..k] == y && At(s, o, k) && s[k + |o|..k + |o| + |z|] == z
  {
  }

  lemma SpaceAt(f: Fields, cr: bool, line: string, j: nat, o: nat, e: nat, t: string, k: nat)
    requires Layout(f, cr, line, j, o, e) && At(line, t, k) && t != "" && t[0] == ' '
    ensures k == j || k == j + 10 || k == o
  {
    CharAt(line, t, k, 0);
    SpacesOfLine(f, cr, line, j, o, e, k);
  }

  /** Two texts at one place agree on the characters they share. */
  lemma SamePlace(line: string, s: string, i: int, t: string, k: int, m: int, n: int)
    requires At(line, s, i) && At(line, t, k) && 0 <= m < |s| && 0 <= n < |t| && i + m == k + n
    ensures s[m] == t[n]
  {
    CharAt(line, s, i, m);
    CharAt(line, t, k, n);
  }

  lemma BytesOnlyAt(f: Fields, cr: bool, line: string, j: nat, o: nat, e: nat, k: nat)
    requires Layout(f, cr, line, j, o, e) && At(line, BYTES, k)
    ensures k == j
  {
    LiteralsOfLine(f, cr, line, j, o, e);
    SpaceAt(f, cr, line, j, o, e, BYTES, k);
    BytesElsewhere(line, j, o, k);
  }

  lemma BytesElsewhere(line: string, j: nat, o: nat, k: nat)
    requires At(line, BYTES, j) && At(line, OPS, o) && At(line, BYTES, k)
    ensures k != j + 10 && k != o
  {
    if k == j + 10 {
      SamePlace(line, BYTES, j, BYTES, k, 12, 2);
    }
    if k == o {
      SamePlace(line, OPS, o, BYTES, k, 2, 2);
    }
  }

  lemma OpsOnlyAt(f: Fields, cr: bool, line: string, j: nat, o: nat, e: nat, k: nat)
    requires Layout(f, cr, line, j, o, e) && At(line, OPS, k)
    ensures k == o
  {
    LiteralsOfLine(f, cr, line, j, o, e);
    SpaceAt(f, cr, line, j, o, e, OPS, k);
    OpsElsewhere(line, j, k);
  }

  lemma OpsElsewhere(line: string, j: nat, k: nat)
    requires At(line, BYTES, j) && At(line, OPS, k)
    ensures k != j && k != j + 10
  {
    if k == j {
      SamePlace(line, BYTES, j, OPS, k, 2, 2);
    }
    if k == j + 10 {
      SamePlace(line, BYTES, j, OPS, k, 14, 4);
    }
  }

  lemma EndOfLine(f: Fields, cr: bool, line: string, j: nat, o: nat, e: nat, from: nat)
    requires Layout(f, cr, line, j, o, e) && from <= e
    ensures EndOf(line, cr, from) == Some(e)
  {
    assert cr ==> line[e] == '\r';
  }

  lemma OpsFound(f: Fields, cr: bool, line: string, j: nat, o: nat, e: nat, from: nat)
    requires Layout(f, cr, line, j, o, e) && from <= o
    ensures OpsAt(line, cr, from) == Some(o)
  {
    LiteralsOfLine(f, cr, line, j, o, e);
    EndOfLine(f, cr, line, j, o, e, o + |OPS|);
    var p := (k: nat) => At(line, OPS, k) && EndOf(line, cr, k + |OPS|).Some?;
    forall k: nat | p(k) ensures k == o {
      OpsOnlyAt(f, cr, line, j, o, e, k);
    }
    LastIs(p, from, |line| + 1, o);
  }

  lemma BytesFound(f: Fields, cr: bool, line: string, j: nat, o: nat, e: nat, from: nat)
    requires Layout(f, cr, line, j, o, e) && from <= j
    ensures BytesAt(line, cr, from) == Some(j)
  {
    LiteralsOfLine(f, cr, line, j, o, e);
    OpsFound(f, cr, line, j, o, e, j + |BYTES|);
    var p := (k: nat) => At(line, BYTES, k) && OpsAt(line, cr, k + |BYTES|).Some?;
    forall k: nat | p(k) ensures k == j {
      BytesOnlyAt(f, cr, line, j, o, e, k);
    }
    LastIs(p, from, |line| + 1, j);
  }

  /** A printed record is matched, and the groups are its fields. */
  lemma RecordMatches(f: Fields, cr: bool)
    requires Numeric(f)
    ensures MatchLine(Print(Record(f)) + (if cr then "\r" else ""), cr) == Some(f)
  {
    var line := Print(Record(f)) + (if cr then "\r" else "");
    var j := |TIME| + |f.time|;
    var o := j + |BYTES| + |f.bytes|;
    var e := o + |OPS| + |f.ops|;
    LiteralsOfLine(f, cr, line, j, o, e);
    EndOfLine(f, cr, line, j, o, e, o + |OPS|);
    OpsFound(f, cr, line, j, o, e, j + |BYTES|);
    BytesFound(f, cr, line, j, o, e, |TIME|);
    assert TimeAt(line, cr) == Some(0);
  }

  lemma OtherDoesNotMatch(t: string, suffix: string, cr: bool)
    requires !Contains(t, BYTES) && (suffix == "" || suffix == "\r")
    ensures MatchLine(t + suffix, cr) == None
  {
    forall i | 0 <= i <= |t + suffix| - |BYTES| ensures !At(t + suffix, BYTES, i) {
      if i + |BYTES| <= |t| {
        assert (t + suffix)[i..i + |BYTES|] == t[i..i + |BYTES|] && !At(t, BYTES, i);
      } else {
        assert (t + suffix)[i..i + |BYTES|][|BYTES| - 1] == (t + suffix)[|t|] == '\r' && BYTES[|BYTES| - 1] != '\r';
      }
    }
    NoMatch(t + suffix, cr);
  }

  /** m is the expression with or without the carriage return. */
  ghost predicate Is(m: Matcher, cr: bool) {
    forall line {:trigger MatchLine(line, cr)} :: m(line) == MatchLine(line, cr)
  }

  lemma PrintedLineMatches(l: Line, cr: bool)
    requires Printable(l)
    ensures MatchLine(Print(l) + (if cr then "\r" else ""), cr) == if l.Record? then Some(l.fields) else None
  {
    match l {
      case Record(f) => RecordMatches(f, cr);
      case Other(t) => OtherDoesNotMatch(t, if cr then "\r" else "", cr);
    }
  }

  lemma EmptyLineDoesNotMatch(cr: bool)
    ensures MatchLine("", cr) == None
  {
    MissingChar("", BYTES, 0);
    NoMatch("", cr);
  }

  lemma {:induction false} LinesMatch(ls: seq<Line>, end: string, cr: bool, m: Matcher)
    requires Is(m, cr) && end == (if cr then "\r" else "")
    requires AllPrintable(ls)
    ensures MatchLines(Suffixed(Prints(ls), end) + [""], m) == Records(ls)
  {
    var lines := Suffixed(Prints(ls), end) + [""];
    if ls == [] {
      assert lines == [""];
      EmptyLineDoesNotMatch(cr);
    } else {
      assert lines == [Print(ls[0]) + end] + (Suffixed(Prints(ls[1..]), end) + [""]);
      PrintableRest(ls);
      LinesMatch(ls[1..], end, cr, m);
      PrintedLineMatches(ls[0], cr);
    }
  }

  lemma {:induction false} NoReturnNoMatches(lines: seq<string>, m: Matcher)
    requires Is(m, true) && forall i :: 0 <= i < |lines| ==> '\r' !in lines[i]
    ensures MatchLines(lines, m) == []
  {
    if lines != [] {
      NoReturnNoMatch(lines[0]);
      NoReturnNoMatches(lines[1..], m);
    }
  }

  lemma PrintIsOneLine(l: Line)
    requires Printable(l)
    ensures '\n' !in Print(l) && '\r' !in Print(l)
  {
    if l.Record? {
      forall k | 0 <= k < |Print(l)| ensures Print(l)[k] != '\n' && Print(l)[k] != '\r' {
        CharOfRecord(l.fields, k);
      }
    }
  }

  lemma {:induction false} OthersDoNotMatch(ls: seq<Line>, m: Matcher)
    requires Is(m, false) && Records(ls) == []
    requires AllPrintable(ls)
    ensures MatchLines(Suffixed(Prints(ls), "\r") + [""], m) == []
  {
    var lines := Suffixed(Prints(ls), "\r") + [""];
    if ls == [] {
      assert lines == [""];
      EmptyLineDoesNotMatch(false);
    } else {
      assert lines == [Print(ls[0]) + "\r"] + (Suffixed(Prints(ls[1..]), "\r") + [""]);
      PrintableRest(ls);
      OthersDoNotMatch(ls[1..], m);
      OtherDoesNotMatch(ls[0].text, "\r", false);
    }
  }

  lemma PrintsAreLines(ls: seq<Line>)
    requires AllPrintable(ls)
    ensures forall i :: 0 <= i < |ls| ==> '\n' !in Prints(ls)[i] && '\r' !in Prints(ls)[i]
  {
    forall i | 0 <= i < |ls| ensures '\n' !in Prints(ls)[i] && '\r' !in Prints(ls)[i] {
      assert Printable(ls[i]);
      PrintIsOneLine(ls[i]);
    }
  }

  lemma PassesOnTerminal(ls: seq<Line>, withReturn: Matcher, without: Matcher)
    requires Is(withReturn, true) && Is(without, false)
    requires AllPrintable(ls)
    ensures Passes(Suffixed(Prints(ls), "\r") + [""], withReturn, without) == Records(ls)
  {
    LinesMatch(ls, "\r", true, withReturn);
    if Records(ls) == [] {
      OthersDoNotMatch(ls, without);
    }
  }

  lemma PlainLines(ls: seq<Line>)
    requires AllPrintable(ls)
    ensures forall i :: 0 <= i < |ls| + 1 ==> '\r' !in (Suffixed(Prints(ls), "") + [""])[i]
  {
    forall i | 0 <= i < |ls| ensures '\r' !in Suffixed(Prints(ls), "")[i] {
      assert Printable(ls[i]);
      PrintIsOneLine(ls[i]);
      assert Suffixed(Prints(ls), "")[i] == Print(ls[i]);
    }
  }

  lemma PassesInVm(ls: seq<Line>, withReturn: Matcher, without: Matcher)
    requires Is(withReturn, true) && Is(without, false)
    requires AllPrintable(ls)
    ensures Passes(Suffixed(Prints(ls), "") + [""], withReturn, without) == Records(ls)
  {
    LinesMatch(ls, "", false, without);
    PlainLines(ls);
    NoReturnNoMatches(Suffixed(Prints(ls), "") + [""], withReturn);
  }

  lemma SplitOutput(ls: seq<Line>, end: string)
    requires LineEnd(end) && AllPrintable(ls)
    ensures Split(Output(ls, end), '\n') == Suffixed(Prints(ls), end) + [""]
  {
    PrintsAreLines(ls);
    SplitUnlines(Prints(ls), end);
  }

  /** Extraction finds exactly the records that were printed, in order, whatever else is printed between them,
      and the same for both kinds of line end. */
  lemma ExtractsWhatWasPrinted(ls: seq<Line>, end: string)
    requires LineEnd(end) && AllPrintable(ls)
    ensures Extract(Output(ls, end)) == Records(ls)
  {
    SplitOutput(ls, end);
    if end == "" {
      PassesInVm(ls, Regexp(true), Regexp(false));
    } else {
      PassesOnTerminal(ls, Regexp(true), Regexp(false));
    }
  }
}

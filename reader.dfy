/** The .bff reader of the Lazor solver, over the lines of a file: a state
    machine whose grid flag decides which lines are grid rows and which are
    block count, laser and checkpoint records, followed by a transpose of the
    parsed rows. */
module LazorReader {
  import opened LazorBoard

  datatype Option<T> = None | Some(value: T)

  /** The exceptions a record can raise: a missing field (IndexError) or a
      field that is not an integer (ValueError). */
  datatype ReadError = IndexError | ValueError

  datatype Result<T> = Success(value: T) | Failure(error: ReadError)

  // ---------------------------------------------------------------------
  // Whitespace, strip and split

  /** Python's whitespace characters, the ones strip() and split() remove. */
  predicate IsSpace(c: char) {
    ('\t' <= c <= '\r') || ('\U{1C}' <= c <= ' ') || c == '\U{85}' || c == '\U{A0}' ||
    c == '\U{1680}' || ('\U{2000}' <= c <= '\U{200A}') || c == '\U{2028}' || c == '\U{2029}' ||
    c == '\U{202F}' || c == '\U{205F}' || c == '\U{3000}'
  }

  predicate NoSpace(s: string) {
    forall i :: 0 <= i < |s| ==> !IsSpace(s[i])
  }

  predicate AllSpace(s: string) {
    forall i :: 0 <= i < |s| ==> IsSpace(s[i])
  }

  /** s without its leading whitespace. */
  function TrimLeft(s: string): (r: string)
    ensures |r| <= |s| && r == s[|s| - |r|..]
    ensures AllSpace(s[..|s| - |r|])
    ensures r == [] || !IsSpace(r[0])
  {
    if s != [] && IsSpace(s[0]) then TrimLeft(s[1..]) else s
  }

  /** s without its trailing whitespace. */
  function TrimRight(s: string): (r: string)
    ensures |r| <= |s| && r == s[..|r|]
    ensures AllSpace(s[|r|..])
    ensures r == [] || !IsSpace(r[|r| - 1])
  {
    if s != [] && IsSpace(s[|s| - 1]) then
      var r := TrimRight(s[..|s| - 1]);
      assert s[|r|..] == s[..|s| - 1][|r|..] + [s[|s| - 1]];
      r
    else s
  }

  /** Python's str.strip(): the part of s between its leading and trailing
      whitespace. */
  function Strip(s: string): (r: string)
    ensures exists i, j :: 0 <= i <= j <= |s| && r == s[i..j] && AllSpace(s[..i]) && AllSpace(s[j..])
    ensures r == [] || (!IsSpace(r[0]) && !IsSpace(r[|r| - 1]))
  {
    var t := TrimLeft(s);
    var r := TrimRight(t);
    StripParts(s, t, r);
    r
  }

  lemma StripParts(s: string, t: string, r: string)
    requires |t| <= |s| && t == s[|s| - |t|..] && AllSpace(s[..|s| - |t|])
    requires |r| <= |t| && r == t[..|r|] && AllSpace(t[|r|..])
    ensures exists i, j :: 0 <= i <= j <= |s| && r == s[i..j] && AllSpace(s[..i]) && AllSpace(s[j..])
  {
    var i := |s| - |t|;
    var j := i + |r|;
    assert r == s[i..j];
    assert s[j..] == t[|r|..];
  }

  /** Stripping twice is stripping once. */
  lemma StripIdempotent(s: string)
    ensures Strip(Strip(s)) == Strip(s)
  {
    var r := Strip(s);
    if r != [] {
      assert TrimLeft(r) == r;
      assert TrimRight(r) == r;
    }
  }

  /** A line strips to nothing exactly when it is all whitespace. */
  lemma StripBlank(s: string)
    ensures Strip(s) == "" <==> AllSpace(s)
  {
    var t := TrimLeft(s);
    if TrimRight(t) == [] {
      assert s[..|s|] == s;
    }
  }

  /** The length of the run of non-whitespace characters that starts s. */
  function TokenLength(s: string): (n: nat)
    ensures n <= |s| && NoSpace(s[..n]) && (n == |s| || IsSpace(s[n]))
  {
    if s == [] || IsSpace(s[0]) then 0
    else
      var m := TokenLength(s[1..]);
      assert s[..m + 1] == [s[0]] + s[1..][..m];
      1 + m
  }

  /** Python's str.split() with no separator: the maximal runs of
      non-whitespace characters, in order. */
  function Split(s: string): seq<string>
    decreases |s|
  {
    var t := TrimLeft(s);
    if t == [] then []
    else
      var n := TokenLength(t);
      [t[..n]] + Split(t[n..])
  }

  /** Every token is non-empty and holds no whitespace. */
  lemma {:induction false} SplitTokens(s: string)
    ensures forall w :: w in Split(s) ==> w != [] && NoSpace(w)
    decreases |s|
  {
    var t := TrimLeft(s);
    if t != [] {
      var n := TokenLength(t);
      var w, rest := t[..n], Split(t[n..]);
      SplitTokens(t[n..]);
      assert n > 0 && NoSpace(w);
      assert Split(s) == [w] + rest;
      forall v | v in [w] + rest ensures v != [] && NoSpace(v) {
        if v != w {
          assert v in rest;
        }
      }
    }
  }

  /** split() finds no token exactly when the text is all whitespace. */
  lemma SplitEmptyIff(s: string)
    ensures Split(s) == [] <==> AllSpace(s)
  {
    var t := TrimLeft(s);
    if t == [] {
      assert s == s[..|s|];
    } else {
      assert !IsSpace(s[|s| - |t|]);
    }
  }

  /** The tokens separated by single spaces. */
  function Join(tokens: seq<string>): string {
    if tokens == [] then ""
    else if |tokens| == 1 then tokens[0]
    else tokens[0] + " " + Join(tokens[1..])
  }

  lemma TrimLeftNoSpace(s: string)
    requires s == [] || !IsSpace(s[0])
    ensures TrimLeft(s) == s
  {
  }

  lemma TokenLengthOf(w: string, rest: string)
    requires NoSpace(w) && (rest == [] || IsSpace(rest[0]))
    ensures TokenLength(w + rest) == |w|
    decreases |w|
  {
    if w != [] {
      assert (w + rest)[1..] == w[1..] + rest;
      TokenLengthOf(w[1..], rest);
    }
  }

  /** Leading whitespace does not change the tokens. */
  lemma SplitSkipsSpace(c: char, s: string)
    requires IsSpace(c)
    ensures Split([c] + s) == Split(s)
  {
    assert ([c] + s)[1..] == s;
    assert TrimLeft([c] + s) == TrimLeft(s);
  }

  /** A token followed by nothing or by whitespace is the first token. */
  lemma SplitToken(w: string, rest: string)
    requires w != [] && NoSpace(w) && (rest == [] || IsSpace(rest[0]))
    ensures Split(w + rest) == [w] + Split(rest)
  {
    var s := w + rest;
    TrimLeftNoSpace(s);
    TokenLengthOf(w, rest);
    assert s[..|w|] == w && s[|w|..] == rest;
  }

  /** split() undoes a join of non-empty tokens without whitespace. */
  lemma {:induction false} SplitJoin(tokens: seq<string>)
    requires forall k :: 0 <= k < |tokens| ==> tokens[k] != [] && NoSpace(tokens[k])
    ensures Split(Join(tokens)) == tokens
  {
    if |tokens| == 1 {
      SplitToken(tokens[0], "");
      assert tokens[0] + "" == tokens[0];
    } else if |tokens| > 1 {
      var w, ts := tokens[0], tokens[1..];
      assert tokens == [w] + ts;
      assert forall k :: 0 <= k < |ts| ==> ts[k] == tokens[k + 1];
      SplitJoin(ts);
      SplitJoinCons(w, ts);
    }
  }

  lemma SplitJoinCons(w: string, ts: seq<string>)
    requires w != [] && NoSpace(w) && ts != [] && Split(Join(ts)) == ts
    ensures Split(Join([w] + ts)) == [w] + ts
  {
    var rest := Join(ts);
    assert ([w] + ts)[1..] == ts;
    assert Join([w] + ts) == w + ([' '] + rest);
    SplitToken(w, [' '] + rest);
    SplitSkipsSpace(' ', rest);
  }

  // ---------------------------------------------------------------------
  // Integer fields

  predicate IsDigit(c: char) { '0' <= c <= '9' }

  predicate AllDigits(s: string) {
    forall i :: 0 <= i < |s| ==> IsDigit(s[i])
  }

  /** The value of a string of decimal digits. */
  function DigitsValue(ds: string): nat
    requires AllDigits(ds)
  {
    if ds == [] then 0
    else
      var d := ds[|ds| - 1] as int - '0' as int;
      10 * DigitsValue(ds[..|ds| - 1]) + d
  }

  /** An optional sign followed by at least one decimal digit. */
  predicate IsIntToken(tok: string) {
    if tok != [] && (tok[0] == '-' || tok[0] == '+') then |tok| > 1 && AllDigits(tok[1..])
    else tok != [] && AllDigits(tok)
  }

  /** Python's int() on one token, restricted to ASCII digits with an optional
      sign; anything else raises ValueError. */
  function ParseInt(tok: string): (r: Option<int>)
    ensures r.Some? <==> IsIntToken(tok)
  {
    if tok != [] && (tok[0] == '-' || tok[0] == '+') then
      if |tok| > 1 && AllDigits(tok[1..]) then
        var v: int := DigitsValue(tok[1..]);
        Some(if tok[0] == '-' then -v else v)
      else None
    else if tok != [] && AllDigits(tok) then Some(DigitsValue(tok))
    else None
  }

  /** The decimal text of a natural number. */
  function NatText(n: nat): (s: string)
    ensures s != [] && AllDigits(s)
  {
    var d := [('0' as int + n % 10) as char];
    if n < 10 then d else NatText(n / 10) + d
  }

  /** The decimal text of an integer, with a minus sign when negative. */
  function IntText(n: int): string {
    if n < 0 then "-" + NatText(-n) else NatText(n)
  }

  lemma {:induction false} NatTextValue(n: nat)
    ensures DigitsValue(NatText(n)) == n
  {
    var s := NatText(n);
    if n >= 10 {
      NatTextValue(n / 10);
      assert s[..|s| - 1] == NatText(n / 10);
    }
  }

  /** int() reads back the decimal text of every integer. */
  lemma ParseIntText(n: int)
    ensures ParseInt(IntText(n)) == Some(n)
  {
    var t := IntText(n);
    if n < 0 {
      NatTextValue(-n);
      assert t[0] == '-' && t[1..] == NatText(-n);
    } else {
      NatTextValue(n);
      assert IsDigit(t[0]);
    }
  }

  /** int(tokens[i]): IndexError past the end, ValueError on a bad token. */
  function IntAt(tokens: seq<string>, i: nat): (r: Result<int>)
    ensures r.Success? <==> i < |tokens| && ParseInt(tokens[i]).Some?
    ensures r.Failure? ==> (r.error == IndexError <==> i >= |tokens|)
    ensures r.Success? ==> ParseInt(tokens[i]) == Some(r.value)
  {
    if i >= |tokens| then Failure(IndexError)
    else match ParseInt(tokens[i])
      case None => Failure(ValueError)
      case Some(n) => Success(n)
  }

  /** int(tokens[1]), ..., int(tokens[n]) evaluated left to right; the first
      failure is the exception raised. */
  function Fields(tokens: seq<string>, n: nat): (r: Result<seq<int>>)
    ensures r.Success? ==> |r.value| == n
  {
    if n == 0 then Success([])
    else match Fields(tokens, n - 1)
      case Failure(e) => Failure(e)
      case Success(xs) =>
        match IntAt(tokens, n)
        case Failure(e) => Failure(e)
        case Success(x) => Success(xs + [x])
  }

  /** The fields convert exactly when every one of int(tokens[1..n]) does, and
      then they are those values; otherwise the exception is that of the first
      token that does not convert. */
  lemma {:induction false} FieldsMeaning(tokens: seq<string>, n: nat)
    ensures var r := Fields(tokens, n);
            (r.Success? <==> forall j :: 1 <= j <= n ==> IntAt(tokens, j).Success?) &&
            (r.Success? ==> forall j :: 1 <= j <= n ==> IntAt(tokens, j) == Success(r.value[j - 1])) &&
            (r.Failure? ==> exists j :: 1 <= j <= n && IntAt(tokens, j) == Failure(r.error) &&
                                      forall m :: 1 <= m < j ==> IntAt(tokens, m).Success?)
  {
    if n > 0 {
      FieldsMeaning(tokens, n - 1);
    }
  }

  // ---------------------------------------------------------------------
  // Grid rows

  /** The grid code of a cell token on a grid line, if it names one. */
  function CellCode(tok: string): (r: Option<int>)
    ensures r.Some? ==> r.value in {A, B, C, O, X}
  {
    if tok == "A" then Some(A)
    else if tok == "B" then Some(B)
    else if tok == "C" then Some(C)
    else if tok == "o" then Some(O)
    else if tok == "x" then Some(X)
    else None
  }

  /** The token naming a grid code. */
  function CellToken(code: int): string {
    if code == A then "A"
    else if code == B then "B"
    else if code == C then "C"
    else if code == O then "o"
    else "x"
  }

  /** The codes of the cell tokens of a grid line, in order; tokens that name
      no code are dropped. */
  function RowOf(cells: seq<string>): seq<int> {
    if cells == [] then []
    else
      var init := RowOf(cells[..|cells| - 1]);
      match CellCode(cells[|cells| - 1])
      case Some(code) => init + [code]
      case None => init
  }

  /** Every value of a parsed row is a grid code. */
  lemma {:induction false} RowOfCodes(cells: seq<string>)
    ensures forall k :: 0 <= k < |RowOf(cells)| ==> RowOf(cells)[k] in {A, B, C, O, X}
  {
    if cells != [] {
      RowOfCodes(cells[..|cells| - 1]);
    }
  }

  /** The token of a grid code names that code. */
  lemma CellTokenCode(code: int)
    requires code in {A, B, C, O, X}
    ensures CellCode(CellToken(code)) == Some(code)
  {
  }

  /** A row written out with one token per code parses back to that row. */
  lemma {:induction false} RowOfTokens(codes: seq<int>)
    requires forall k :: 0 <= k < |codes| ==> codes[k] in {A, B, C, O, X}
    ensures RowOf(seq(|codes|, k requires 0 <= k < |codes| => CellToken(codes[k]))) == codes
  {
    var cells := seq(|codes|, k requires 0 <= k < |codes| => CellToken(codes[k]));
    if codes != [] {
      var init := codes[..|codes| - 1];
      RowOfTokens(init);
      assert cells[..|cells| - 1] == seq(|init|, k requires 0 <= k < |init| => CellToken(init[k]));
      CellTokenCode(codes[|codes| - 1]);
      assert codes == init + [codes[|codes| - 1]];
    }
  }

  /** The row-building loop of a grid line. */
  method GridRow(cells: seq<string>) returns (row: seq<int>)
    ensures row == RowOf(cells)
  {
    row := [];
    for col := 0 to |cells|
      invariant row == RowOf(cells[..col])
    {
      var cell := cells[col];
      assert cells[..col + 1][..col] == cells[..col];
      if cell == "A" {
        row := row + [A];
      }
      if cell == "B" {
        row := row + [B];
      }
      if cell == "C" {
        row := row + [C];
      }
      if cell == "o" {
        row := row + [O];
      }
      if cell == "x" {
        row := row + [X];
      }
    }
    assert cells[..|cells|] == cells;
  }

  // ---------------------------------------------------------------------
  // The line state machine

  const GridStart: string := "GRID START"
  const GridStop: string := "GRID STOP"

  /** The two markers differ, and neither is a blank line. */
  lemma MarkersDiffer()
    ensures GridStart != GridStop && GridStart != "" && GridStop != ""
  {
    assert |GridStart| == 10 && |GridStop| == 9;
  }

  /** What the reader has collected so far. */
  datatype Parsed = Parsed(grid: seq<seq<int>>, counts: seq<int>, lasers: seq<Laser>,
                           checkpoints: set<Point>, inGrid: bool)

  const Initial: Parsed := Parsed([], [0, 0, 0], [], {}, false)

  /** The token is the one-character name c. */
  predicate Named(tok: string, c: char) {
    |tok| == 1 && tok[0] == c
  }

  /** The count index of block type c. */
  function Slot(c: char): nat {
    if c == 'A' then A else if c == 'B' then B else C
  }

  /** How many integer fields a record with this head reads: one for a block
      count, four for a laser, two for a checkpoint, none for any other head. */
  function Arity(head: string): nat {
    if Named(head, 'A') || Named(head, 'B') || Named(head, 'C') then 1
    else if Named(head, 'L') then 4
    else if Named(head, 'P') then 2
    else 0
  }

  /** The effect of a record whose fields parsed as v. */
  function Apply(p: Parsed, head: string, v: seq<int>): (r: Parsed)
    requires |v| == Arity(head) && |p.counts| == 3
    ensures |r.counts| == 3 && r.grid == p.grid && r.inGrid == p.inGrid
  {
    if Named(head, 'A') || Named(head, 'B') || Named(head, 'C') then p.(counts := p.counts[Slot(head[0]) := v[0]])
    else if Named(head, 'L') then p.(lasers := p.lasers + [Laser(Point(v[0], v[1]), Point(v[2], v[3]))])
    else if Named(head, 'P') then p.(checkpoints := p.checkpoints + {Point(v[0], v[1])})
    else p
  }

  /** A record line outside the grid: the head is tokens[0], an IndexError
      when there is no token; the fields are converted first, and the first
      conversion that raises ends the read. */
  function Record(p: Parsed, tokens: seq<string>): (r: Result<Parsed>)
    requires |p.counts| == 3
    ensures tokens == [] ==> r == Failure(IndexError)
    ensures r.Success? ==> |r.value.counts| == 3 && r.value.grid == p.grid && r.value.inGrid == p.inGrid
  {
    if tokens == [] then Failure(IndexError)
    else match Fields(tokens, Arity(tokens[0]))
      case Failure(e) => Failure(e)
      case Success(v) => Success(Apply(p, tokens[0], v))
  }

  /** One stripped line of the file. */
  function StepLine(p: Parsed, line: string): (r: Result<Parsed>)
    requires |p.counts| == 3
    ensures r.Success? ==> |r.value.counts| == 3
  {
    if line == GridStart then Success(p.(inGrid := true))
    else if line == GridStop then Success(p.(inGrid := false))
    else if p.inGrid then Success(p.(grid := p.grid + [RowOf(Split(line))]))
    else if line == "" then Success(p)
    else Record(p, Split(line))
  }

  /** The stripped lines read in order; the first exception ends the read. */
  function Parse(ls: seq<string>): (r: Result<Parsed>)
    ensures r.Success? ==> |r.value.counts| == 3
  {
    if ls == [] then Success(Initial)
    else match Parse(ls[..|ls| - 1])
      case Failure(e) => Failure(e)
      case Success(p) => StepLine(p, ls[|ls| - 1])
  }

  /** Every line stripped. */
  function StripAll(lines: seq<string>): (ls: seq<string>)
    ensures |ls| == |lines|
  {
    seq(|lines|, i requires 0 <= i < |lines| => Strip(lines[i]))
  }

  /** The reader's loop over the raw lines of a file. */
  function Run(lines: seq<string>): Result<Parsed> {
    Parse(StripAll(lines))
  }

  /** Once a prefix raises, the whole file raises the same exception. */
  lemma {:induction false} ParseFailurePersists(ls: seq<string>, n: nat)
    requires n <= |ls| && Parse(ls[..n]).Failure?
    ensures Parse(ls) == Parse(ls[..n])
    decreases |ls| - n
  {
    if n < |ls| {
      assert ls[..n + 1][..n] == ls[..n];
      ParseFailurePersists(ls, n + 1);
    } else {
      assert ls[..n] == ls;
    }
  }

  // ---------------------------------------------------------------------
  // What a parse collects, stated line by line

  /** After these stripped lines the reader is inside the grid: some GRID
      START line is followed by no GRID STOP line. */
  ghost predicate InGridAfter(ls: seq<string>) {
    exists i :: 0 <= i < |ls| && ls[i] == GridStart &&
      forall k :: i < k < |ls| ==> ls[k] != GridStop
  }

  /** The grid flag as the reader keeps it: GRID START sets it and GRID STOP
      clears it. */
  function InGrid(ls: seq<string>): bool {
    if ls == [] then false
    else if ls[|ls| - 1] == GridStart then true
    else if ls[|ls| - 1] == GridStop then false
    else InGrid(ls[..|ls| - 1])
  }

  /** The head token of a line; none is written "". */
  function Head(line: string): string {
    var ts := Split(line);
    if ts == [] then "" else ts[0]
  }

  /** The fields a record line converts; a line with no token raises
      IndexError at tokens[0]. */
  function FieldsOf(line: string): Result<seq<int>> {
    var ts := Split(line);
    if ts == [] then Failure(IndexError) else Fields(ts, Arity(ts[0]))
  }

  /** The role of a stripped line: a marker, a grid line with the row it
      adds, a blank line, or a record with its head and converted fields. */
  datatype LineKind = Toggle | GridLine(row: seq<int>) | Blank | RecordLine(head: string, fields: Result<seq<int>>)

  /** The role of a stripped line, given the grid flag before it. */
  function KindOf(inGrid: bool, line: string): LineKind {
    if line == GridStart || line == GridStop then Toggle
    else if inGrid then GridLine(RowOf(Split(line)))
    else if line == "" then Blank
    else RecordLine(Head(line), FieldsOf(line))
  }

  /** The roles of all lines, in order. */
  function Kinds(ls: seq<string>): (ks: seq<LineKind>)
    ensures |ks| == |ls|
  {
    if ls == [] then [] else Kinds(ls[..|ls| - 1]) + [KindOf(InGrid(ls[..|ls| - 1]), ls[|ls| - 1])]
  }

  /** The role of line i. */
  function Kind(ls: seq<string>, i: nat): LineKind
    requires i < |ls|
  {
    Kinds(ls)[i]
  }

  /** A record whose fields do not convert. */
  predicate Raises(k: LineKind) {
    k.RecordLine? && k.fields.Failure?
  }

  /** Dropping the last line keeps the role of every other line. */
  lemma KindPrefix(ls: seq<string>)
    requires ls != []
    ensures forall i :: 0 <= i < |ls| - 1 ==> Kind(ls[..|ls| - 1], i) == Kind(ls, i)
    ensures Kind(ls, |ls| - 1) == KindOf(InGrid(ls[..|ls| - 1]), ls[|ls| - 1])
  {
  }

  lemma KindsPrefix(ls: seq<string>)
    requires ls != []
    ensures Kinds(ls)[..|ls| - 1] == Kinds(ls[..|ls| - 1])
  {
  }

  /** Which lines to select: the grid lines, or the records with a head. */
  datatype Pick = GridLines | Records(head: char)

  predicate Picks(k: LineKind, s: Pick) {
    match s
    case GridLines => k.GridLine?
    case Records(c) => k.RecordLine? && Named(k.head, c)
  }

  /** The indices of the roles a pick selects, increasing. */
  function Where(ks: seq<LineKind>, s: Pick): (w: seq<nat>)
    ensures forall n :: 0 <= n < |w| ==> w[n] < |ks| && Picks(ks[w[n]], s)
    ensures forall n, m :: 0 <= n < m < |w| ==> w[n] < w[m]
    ensures forall i :: 0 <= i < |ks| && Picks(ks[i], s) ==> i in w
  {
    if ks == [] then []
    else
      var w := Where(ks[..|ks| - 1], s);
      w + (if Picks(ks[|ks| - 1], s) then [|ks| - 1] else [])
  }

  /** The grid flag after one more line: a GRID START line sets it, a GRID
      STOP line clears it, and any other line keeps it. */
  lemma InGridStep(ls: seq<string>)
    requires ls != []
    ensures ls[|ls| - 1] == GridStart ==> InGridAfter(ls)
    ensures ls[|ls| - 1] == GridStop ==> !InGridAfter(ls)
    ensures ls[|ls| - 1] != GridStart && ls[|ls| - 1] != GridStop ==>
              InGridAfter(ls) == InGridAfter(ls[..|ls| - 1])
  {
    var n := |ls|;
    var pre := ls[..n - 1];
    if ls[n - 1] == GridStart {
      assert ls[n - 1] == GridStart;
    } else if ls[n - 1] == GridStop {
      MarkersDiffer();
      assert forall i :: 0 <= i < n && ls[i] == GridStart ==> i < n - 1;
    } else {
      if InGridAfter(ls) {
        var i :| 0 <= i < n && ls[i] == GridStart && forall k :: i < k < n ==> ls[k] != GridStop;
        assert i < n - 1 && pre[i] == GridStart;
      }
      if InGridAfter(pre) {
        var i :| 0 <= i < n - 1 && pre[i] == GridStart && forall k :: i < k < n - 1 ==> pre[k] != GridStop;
        assert ls[i] == GridStart;
      }
    }
  }

  /** The reader's flag is set exactly when some GRID START line has no
      GRID STOP line after it. */
  lemma {:induction false} InGridIff(ls: seq<string>)
    ensures InGrid(ls) == InGridAfter(ls)
  {
    if ls != [] {
      InGridIff(ls[..|ls| - 1]);
      InGridStep(ls);
    }
  }

  /** The role of line i is decided by line i and whether the lines before it
      leave the reader inside the grid. */
  lemma {:induction false} KindAt(ls: seq<string>, i: nat)
    requires i < |ls|
    ensures Kind(ls, i) == KindOf(InGridAfter(ls[..i]), ls[i])
    decreases |ls|
  {
    var pre := ls[..|ls| - 1];
    if i < |ls| - 1 {
      KindAt(pre, i);
      assert pre[..i] == ls[..i];
    } else {
      InGridIff(pre);
    }
  }

  /** The parser's grid flag is InGrid. */
  lemma {:induction false} ParseInGrid(ls: seq<string>)
    requires Parse(ls).Success?
    ensures Parse(ls).value.inGrid == InGrid(ls)
  {
    if ls != [] {
      ParseInGrid(ls[..|ls| - 1]);
      MarkersDiffer();
    }
  }

  /** After a successful parse the grid flag says whether some GRID START line
      has no GRID STOP line after it. */
  lemma ParseInGridAfter(ls: seq<string>)
    requires Parse(ls).Success?
    ensures Parse(ls).value.inGrid == InGridAfter(ls)
  {
    ParseInGrid(ls);
    InGridIff(ls);
  }

  /** A parse step raises exactly on a record line whose fields do not
      convert, with their exception. */
  lemma StepRaises(p: Parsed, line: string)
    requires |p.counts| == 3
    ensures StepLine(p, line).Failure? <==> Raises(KindOf(p.inGrid, line))
    ensures StepLine(p, line).Failure? ==> StepLine(p, line).error == KindOf(p.inGrid, line).fields.error
  {
    MarkersDiffer();
  }

  /** What a successful step from p to q does, by the role k of its line:
      blank lines change nothing, grid lines add their row, marker lines touch
      only the flag, and record lines apply their fields. */
  ghost predicate Effect(p: Parsed, k: LineKind, q: Parsed) {
    |p.counts| == 3 &&
    (k == Blank ==> q == p) &&
    (k.GridLine? ==> q == p.(grid := p.grid + [k.row])) &&
    (k == Toggle ==> q.grid == p.grid && q.counts == p.counts && q.lasers == p.lasers &&
                     q.checkpoints == p.checkpoints) &&
    (k.RecordLine? ==> k.fields.Success? && |k.fields.value| == Arity(k.head) &&
                       q == Apply(p, k.head, k.fields.value))
  }

  /** A successful parse step has the effect of its line's role. */
  lemma StepEffect(p: Parsed, line: string)
    requires |p.counts| == 3 && StepLine(p, line).Success?
    ensures Effect(p, KindOf(p.inGrid, line), StepLine(p, line).value)
  {
    MarkersDiffer();
  }

  /** No line raises. */
  ghost predicate NoneRaises(ls: seq<string>) {
    forall i :: 0 <= i < |ls| ==> !Raises(Kind(ls, i))
  }

  lemma NoneRaisesStep(ls: seq<string>)
    requires ls != []
    ensures NoneRaises(ls) == (NoneRaises(ls[..|ls| - 1]) && !Raises(Kind(ls, |ls| - 1)))
  {
    var pre := ls[..|ls| - 1];
    KindPrefix(ls);
    if NoneRaises(pre) && !Raises(Kind(ls, |ls| - 1)) {
      forall i | 0 <= i < |ls| ensures !Raises(Kind(ls, i)) {
        if i < |pre| {
          assert Kind(pre, i) == Kind(ls, i);
        }
      }
    }
    if NoneRaises(ls) {
      forall i | 0 <= i < |pre| ensures !Raises(Kind(pre, i)) {
        assert Kind(pre, i) == Kind(ls, i);
      }
    }
  }

  /** One more line leaves a parse successful exactly when that line does
      not raise; when it raises, its exception is the parse's. */
  lemma ParseStepRaises(ls: seq<string>)
    requires ls != []
    ensures Parse(ls).Success? == (Parse(ls[..|ls| - 1]).Success? && !Raises(Kind(ls, |ls| - 1)))
    ensures Parse(ls[..|ls| - 1]).Success? && Raises(Kind(ls, |ls| - 1)) ==>
              Parse(ls).error == Kind(ls, |ls| - 1).fields.error
    ensures Parse(ls[..|ls| - 1]).Failure? ==> Parse(ls) == Parse(ls[..|ls| - 1])
  {
    var pre := ls[..|ls| - 1];
    KindPrefix(ls);
    if Parse(pre).Success? {
      ParseInGrid(pre);
      StepRaises(Parse(pre).value, ls[|ls| - 1]);
    }
  }

  /** A parse succeeds exactly when no record line raises. */
  lemma {:induction false} ParseSucceeds(ls: seq<string>)
    ensures Parse(ls).Success? <==> NoneRaises(ls)
  {
    if ls != [] {
      ParseSucceeds(ls[..|ls| - 1]);
      NoneRaisesStep(ls);
      ParseStepRaises(ls);
    }
  }

  /** Line i is the first that raises, with exception e. */
  ghost predicate FirstRaise(ls: seq<string>, i: nat, e: ReadError)
    requires i < |ls|
  {
    Raises(Kind(ls, i)) && Kind(ls, i).fields.error == e && forall k :: 0 <= k < i ==> !Raises(Kind(ls, k))
  }

  /** A failed parse ends with the exception of the first record line whose
      fields do not convert. */
  lemma {:induction false} ParseRaises(ls: seq<string>)
    requires Parse(ls).Failure?
    ensures exists i :: 0 <= i < |ls| && FirstRaise(ls, i, Parse(ls).error)
    decreases |ls|, 1
  {
    ParseStepRaises(ls);
    if Parse(ls[..|ls| - 1]).Success? {
      RaisesLast(ls);
    } else {
      RaisesEarlier(ls);
    }
  }

  lemma RaisesLast(ls: seq<string>)
    requires ls != [] && Parse(ls[..|ls| - 1]).Success? && Parse(ls).Failure?
    ensures FirstRaise(ls, |ls| - 1, Parse(ls).error)
  {
    ParseStepRaises(ls);
    ParseSucceeds(ls[..|ls| - 1]);
    KindPrefix(ls);
  }

  lemma {:induction false} RaisesEarlier(ls: seq<string>)
    requires ls != [] && Parse(ls[..|ls| - 1]).Failure?
    ensures Parse(ls) == Parse(ls[..|ls| - 1])
    ensures exists i :: 0 <= i < |ls| - 1 && FirstRaise(ls, i, Parse(ls).error)
    decreases |ls|, 0
  {
    var pre := ls[..|ls| - 1];
    ParseStepRaises(ls);
    ParseRaises(pre);
    KindPrefix(ls);
    var i :| 0 <= i < |pre| && FirstRaise(pre, i, Parse(pre).error);
    assert FirstRaise(ls, i, Parse(ls).error);
  }

  /** The last line of a successful parse has the effect of its role. */
  lemma ParseStepEffect(ls: seq<string>)
    requires ls != [] && Parse(ls).Success?
    ensures Parse(ls[..|ls| - 1]).Success?
    ensures Effect(Parse(ls[..|ls| - 1]).value, Kind(ls, |ls| - 1), Parse(ls).value)
  {
    var pre := ls[..|ls| - 1];
    ParseStepRaises(ls);
    ParseInGrid(pre);
    KindPrefix(ls);
    StepEffect(Parse(pre).value, ls[|ls| - 1]);
  }

  /** The rows of a successful parse are the rows of the grid lines, one per
      line, in file order. */
  lemma {:induction false} ParseRows(ls: seq<string>)
    requires Parse(ls).Success?
    ensures var w := Where(Kinds(ls), GridLines); var g := Parse(ls).value.grid;
            |g| == |w| && forall n :: 0 <= n < |w| ==> g[n] == Kind(ls, w[n]).row
  {
    if ls != [] {
      ParseStepEffect(ls);
      ParseRows(ls[..|ls| - 1]);
      KindsPrefix(ls);
    }
  }

  /** The four fields of a laser record. */
  function LaserFields(l: Laser): seq<int> {
    [l.origin.x, l.origin.y, l.dir.x, l.dir.y]
  }

  /** The laser a record builds from its fields gives those fields back. */
  lemma LaserOfFields(v: seq<int>)
    requires |v| == 4
    ensures LaserFields(Laser(Point(v[0], v[1]), Point(v[2], v[3]))) == v
  {
  }

  lemma PointOfFields(v: seq<int>)
    requires |v| == 2
    ensures [v[0], v[1]] == v
  {
  }

  /** A step appends a laser exactly when its line is an L record, and that
      laser is the record's fields; any other line keeps the lasers. */
  lemma EffectLasers(p: Parsed, k: LineKind, q: Parsed)
    requires Effect(p, k, q)
    ensures if Picks(k, Records('L'))
            then |q.lasers| == |p.lasers| + 1 && q.lasers[..|p.lasers|] == p.lasers &&
                 k.fields == Success(LaserFields(q.lasers[|p.lasers|]))
            else q.lasers == p.lasers
  {
    if Picks(k, Records('L')) {
      LaserOfFields(k.fields.value);
    }
  }

  /** A step adds a checkpoint exactly when its line is a P record, and that
      checkpoint is the record's fields; any other line keeps the set. */
  lemma EffectCheckpoints(p: Parsed, k: LineKind, q: Parsed)
    requires Effect(p, k, q)
    ensures Picks(k, Records('P')) ==>
              exists pt: Point :: k.fields == Success([pt.x, pt.y]) && q.checkpoints == p.checkpoints + {pt}
    ensures !Picks(k, Records('P')) ==> q.checkpoints == p.checkpoints
  {
    if Picks(k, Records('P')) {
      var v := k.fields.value;
      PointOfFields(v);
      assert k.fields == Success([Point(v[0], v[1]).x, Point(v[0], v[1]).y]);
    }
  }

  /** A step sets the count of block type c exactly when its line is a c
      record, to the record's field; any other line keeps that count. */
  lemma EffectCounts(p: Parsed, k: LineKind, q: Parsed, c: char)
    requires Effect(p, k, q) && (c == 'A' || c == 'B' || c == 'C')
    ensures |q.counts| == 3
    ensures Picks(k, Records(c)) ==> k.fields == Success([q.counts[Slot(c)]])
    ensures !Picks(k, Records(c)) ==> q.counts[Slot(c)] == p.counts[Slot(c)]
  {
    if Picks(k, Records(c)) {
      var v := k.fields.value;
      assert v == [v[0]];
    }
  }

  /** The lasers of a successful parse are the L records, in file order. */
  lemma {:induction false} ParseLasers(ls: seq<string>)
    requires Parse(ls).Success?
    ensures var w := Where(Kinds(ls), Records('L')); var ps := Parse(ls).value.lasers;
            |ps| == |w| && forall n :: 0 <= n < |w| ==> Kind(ls, w[n]).fields == Success(LaserFields(ps[n]))
  {
    if ls != [] {
      ParseStepEffect(ls);
      EffectLasers(Parse(ls[..|ls| - 1]).value, Kind(ls, |ls| - 1), Parse(ls).value);
      ParseLasers(ls[..|ls| - 1]);
      KindsPrefix(ls);
    }
  }

  /** The checkpoints of a successful parse are the points of the P records. */
  lemma {:induction false} ParseCheckpoints(ls: seq<string>)
    requires Parse(ls).Success?
    ensures forall pt :: pt in Parse(ls).value.checkpoints <==>
              exists i :: 0 <= i < |ls| && Picks(Kind(ls, i), Records('P')) && Kind(ls, i).fields == Success([pt.x, pt.y])
  {
    if ls != [] {
      var n := |ls|;
      var pre := ls[..n - 1];
      var k := Kind(ls, n - 1);
      ParseStepEffect(ls);
      EffectCheckpoints(Parse(pre).value, k, Parse(ls).value);
      ParseCheckpoints(pre);
      KindPrefix(ls);
      forall pt | pt in Parse(ls).value.checkpoints
        ensures exists i :: 0 <= i < n && Picks(Kind(ls, i), Records('P')) && Kind(ls, i).fields == Success([pt.x, pt.y])
      {
        if pt !in Parse(pre).value.checkpoints {
          assert Picks(Kind(ls, n - 1), Records('P'));
        } else {
          var i :| 0 <= i < n - 1 && Picks(Kind(pre, i), Records('P')) && Kind(pre, i).fields == Success([pt.x, pt.y]);
          assert Kind(ls, i) == Kind(pre, i);
        }
      }
      forall pt: Point, i | 0 <= i < n && Picks(Kind(ls, i), Records('P')) && Kind(ls, i).fields == Success([pt.x, pt.y])
        ensures pt in Parse(ls).value.checkpoints
      {
        if i < n - 1 {
          assert Kind(pre, i) == Kind(ls, i);
        }
      }
    }
  }

  /** The field of the last c record among the roles, or 0 when there is
      none: later records overwrite earlier ones. */
  function LastCount(ks: seq<LineKind>, c: char): int {
    if ks == [] then 0
    else
      var k := ks[|ks| - 1];
      if Picks(k, Records(c)) && k.fields.Success? && |k.fields.value| == 1 then k.fields.value[0]
      else LastCount(ks[..|ks| - 1], c)
  }

  /** The count of block type c is that of the last c record, or 0 when the
      file has none. */
  lemma {:induction false} ParseCounts(ls: seq<string>, c: char)
    requires Parse(ls).Success? && (c == 'A' || c == 'B' || c == 'C')
    ensures Parse(ls).value.counts[Slot(c)] == LastCount(Kinds(ls), c)
  {
    if ls != [] {
      var pre := ls[..|ls| - 1];
      ParseStepEffect(ls);
      EffectCounts(Parse(pre).value, Kind(ls, |ls| - 1), Parse(ls).value, c);
      ParseCounts(pre, c);
      KindsPrefix(ls);
    }
  }

  /** A whitespace-only line adds an empty row inside the grid and is
      skipped everywhere else. */
  lemma RunBlank(lines: seq<string>, raw: string)
    requires AllSpace(raw)
    ensures var r := Run(lines);
            if r.Success? && r.value.inGrid
            then Run(lines + [raw]) == Success(r.value.(grid := r.value.grid + [[]]))
            else Run(lines + [raw]) == r
  {
    var ls := StripAll(lines);
    StripBlank(raw);
    assert StripAll(lines + [raw]) == ls + [""];
    assert (ls + [""])[..|ls|] == ls;
    MarkersDiffer();
  }

  // ---------------------------------------------------------------------
  // The transpose

  function MinLen(rows: seq<seq<int>>): (m: nat)
    requires rows != []
    ensures forall i :: 0 <= i < |rows| ==> m <= |rows[i]|
    ensures exists i :: 0 <= i < |rows| && m == |rows[i]|
  {
    if |rows| == 1 then |rows[0]|
    else
      var m := MinLen(rows[1..]);
      assert forall i :: 1 <= i < |rows| ==> rows[i] == rows[1..][i - 1];
      if |rows[0]| <= m then |rows[0]| else m
  }

  /** list(map(list, zip(*rows))): zip stops at the shortest row. */
  function Transpose(rows: seq<seq<int>>): (t: Grid)
    ensures IsRect(t)
    ensures |t| == (if rows == [] then 0 else MinLen(rows))
    ensures forall j :: 0 <= j < |t| ==> |t[j]| == |rows|
    ensures forall j, i :: 0 <= j < |t| && 0 <= i < |rows| ==> j < |rows[i]| && t[j][i] == rows[i][j]
  {
    if rows == [] then []
    else seq(MinLen(rows), j requires 0 <= j < MinLen(rows) =>
               seq(|rows|, i requires 0 <= i < |rows| => rows[i][j]))
  }

  /** Transposing a non-empty rectangular grid twice gives it back. */
  lemma TransposeTwice(g: Grid)
    requires IsRect(g) && Rows(g) > 0 && Cols(g) > 0
    ensures Transpose(Transpose(g)) == g
  {
    var t := Transpose(g);
    var u := Transpose(t);
    assert |t| == Cols(g) by {
      var i :| 0 <= i < |g| && MinLen(g) == |g[i]|;
    }
    assert |u| == |g| by {
      var j :| 0 <= j < |t| && MinLen(t) == |t[j]|;
    }
    forall i | 0 <= i < |g| ensures u[i] == g[i] {
      assert |u[i]| == |t| == |g[i]|;
    }
  }

  // ---------------------------------------------------------------------
  // The reader

  /** One more line is one more step. */
  lemma ParseNext(ls: seq<string>, i: nat)
    requires i < |ls| && Parse(ls[..i]).Success?
    ensures Parse(ls[..i + 1]) == StepLine(Parse(ls[..i]).value, ls[i])
  {
    assert ls[..i + 1][..i] == ls[..i];
  }

  /** A non-empty stripped line has a first token. */
  lemma StrippedHasToken(raw: string)
    ensures Strip(raw) != "" ==> Split(Strip(raw)) != []
  {
    SplitEmptyIff(Strip(raw));
  }

  /** The record branch of the reader's loop: the A, B, C, L and P
      records, each converting its fields before it takes effect. */
  method ReadRecord(tokens: seq<string>, counts: seq<int>, lasers: seq<Laser>, checkpoints: set<Point>,
                    ghost grid: seq<seq<int>>, ghost inGrid: bool)
    returns (counts': seq<int>, lasers': seq<Laser>, checkpoints': set<Point>, error: Option<ReadError>)
    requires tokens != [] && |counts| == 3
    ensures var r := Record(Parsed(grid, counts, lasers, checkpoints, inGrid), tokens);
            (r.Failure? ==> error == Some(r.error)) &&
            (r.Success? ==> error == None && counts' == r.value.counts && lasers' == r.value.lasers &&
                            checkpoints' == r.value.checkpoints)
  {
    counts', lasers', checkpoints', error := counts, lasers, checkpoints, None;
    var head := tokens[0];
    if Named(head, 'A') || Named(head, 'B') || Named(head, 'C') {
      var v := Fields(tokens, 1);
      if v.Failure? {
        return counts, lasers, checkpoints, Some(v.error);
      }
      counts' := counts[Slot(head[0]) := v.value[0]];
    }
    if Named(head, 'L') {
      var v := Fields(tokens, 4);
      if v.Failure? {
        return counts, lasers, checkpoints, Some(v.error);
      }
      var origin := Point(v.value[0], v.value[1]);
      var direction := Point(v.value[2], v.value[3]);
      lasers' := lasers + [Laser(origin, direction)];
    }
    if Named(head, 'P') {
      var v := Fields(tokens, 2);
      if v.Failure? {
        return counts, lasers, checkpoints, Some(v.error);
      }
      checkpoints' := checkpoints + {Point(v.value[0], v.value[1])};
    }
  }

  /** One pass of the reader's loop over a raw line. */
  method ReadLine(raw: string, grid: seq<seq<int>>, counts: seq<int>, lasers: seq<Laser>,
                  checkpoints: set<Point>, gridStart: bool)
    returns (grid': seq<seq<int>>, counts': seq<int>, lasers': seq<Laser>, checkpoints': set<Point>,
             gridStart': bool, error: Option<ReadError>)
    requires |counts| == 3
    ensures var r := StepLine(Parsed(grid, counts, lasers, checkpoints, gridStart), Strip(raw));
            (r.Failure? ==> error == Some(r.error)) &&
            (r.Success? ==> error == None && r.value == Parsed(grid', counts', lasers', checkpoints', gridStart'))
  {
    grid', counts', lasers', checkpoints', gridStart', error := grid, counts, lasers, checkpoints, gridStart, None;
    MarkersDiffer();
    var line := Strip(raw);
    var cells := Split(line);
    if line == GridStart {
      gridStart' := true;
    } else if line == GridStop {
      gridStart' := false;
    } else if gridStart {
      var row := GridRow(cells);
      grid' := grid + [row];
    } else if line != "" {
      StrippedHasToken(raw);
      counts', lasers', checkpoints', error := ReadRecord(cells, counts, lasers, checkpoints, grid, gridStart);
    }
  }

  /** Reads a board and its checkpoints from the lines of a .bff file. On an
      exception board is null and error names it. */
  method Reader(lines: seq<string>) returns (board: Board?, checkpoints: set<Point>, error: Option<ReadError>)
    ensures Run(lines).Failure? ==> board == null && checkpoints == {} && error == Some(Run(lines).error)
    ensures Run(lines).Success? ==>
              error == None && board != null && fresh(board) && board.Valid() &&
              board.grid == Transpose(Run(lines).value.grid) &&
              board.counts == Run(lines).value.counts &&
              board.lasers == (set l | l in Run(lines).value.lasers) &&
              checkpoints == Run(lines).value.checkpoints
  {
    ghost var ls := StripAll(lines);
    var grid: seq<seq<int>> := [];
    var counts := [0, 0, 0];
    checkpoints := {};
    var lasers: seq<Laser> := [];
    var gridStart := false;
    for i := 0 to |lines|
      invariant Parse(ls[..i]) == Success(Parsed(grid, counts, lasers, checkpoints, gridStart))
    {
      ParseNext(ls, i);
      var e: Option<ReadError>;
      grid, counts, lasers, checkpoints, gridStart, e := ReadLine(lines[i], grid, counts, lasers, checkpoints, gridStart);
      if e.Some? {
        assert Parse(ls) == Failure(e.value) by { ParseFailurePersists(ls, i + 1); }
        return null, {}, e;
      }
    }
    assert ls[..|lines|] == ls;
    board := new Board(Transpose(grid), counts, set l | l in lasers);
    error := None;
  }
}

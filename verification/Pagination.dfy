/** Card pages: a block too large for a page is split to fit its unit budget, and nothing a reader sees is lost. */
module Pagination {

  datatype Kind = Paragraph | Heading | Code | Quote | Bullet | Ordered | TaskItem | Rule | Table

  type Row = seq<string>

  datatype Block = Block(kind: Kind, text: string, prefix: string, language: string, columns: Row, rows: seq<Row>)

  // ---------------------------------------------------------------- text

  function Max(a: nat, b: nat): nat { if a < b then b else a }

  predicate IsSpace(c: char) {
    || '\t' <= c <= '\r' || c == ' ' || c == '\U{85}' || c == '\U{A0}' || c == '\U{1680}'
      || '\U{2000}' <= c <= '\U{200A}'
    || c == '\U{2028}' || c == '\U{2029}' || c == '\U{202F}' || c == '\U{205F}' || c == '\U{3000}'
  }

  /** What a reader sees of a text, and of a code block. */
  function Visible(s: string): string { Filter(false, s) }
  function Unbroken(s: string): string { Filter(true, s) }

  predicate Kept(code: bool, c: char) { if code then c != '\n' else !IsSpace(c) }

  function Filter(code: bool, s: string): string {
    if s == "" then "" else if Kept(code, s[0]) then [s[0]] + Filter(code, s[1..]) else Filter(code, s[1..])
  }

  function Concat(parts: seq<string>): string {
    if parts == [] then "" else parts[0] + Concat(parts[1..])
  }

  function TrimLeft(s: string): string { if s != "" && IsSpace(s[0]) then TrimLeft(s[1..]) else s }

  function TrimRight(s: string): string { if s != "" && IsSpace(s[|s| - 1]) then TrimRight(s[..|s| - 1]) else s }

  function TrimSpace(s: string): string { TrimRight(TrimLeft(s)) }

  lemma {:induction false} FilterConcat(code: bool, a: string, b: string)
    ensures Filter(code, a + b) == Filter(code, a) + Filter(code, b)
  {
    hide Kept;
    if a == "" {
      assert a + b == b;
    } else {
      FilterConcat(code, a[1..], b);
      assert (a + b)[1..] == a[1..] + b && (a + b)[0] == a[0];
    }
  }

  lemma {:induction false} TrimKeepsVisible(s: string)
    ensures Visible(TrimLeft(s)) == Visible(s) && |TrimLeft(s)| <= |s|
    ensures Visible(TrimRight(s)) == Visible(s) && |TrimRight(s)| <= |s|
    ensures '\n' !in s ==> '\n' !in TrimLeft(s) && '\n' !in TrimRight(s)
    decreases |s|
  {
    if s != "" && IsSpace(s[0]) { TrimKeepsVisible(s[1..]); }
    if s != "" && IsSpace(s[|s| - 1]) {
      var last := [s[|s| - 1]];
      TrimKeepsVisible(s[..|s| - 1]);
      FilterConcat(false, s[..|s| - 1], last);
      assert s == s[..|s| - 1] + last && last[1..] == "";
    }
  }

  // ---------------------------------------------------------------- lines

  function Lines(text: string): (lines: seq<string>)
    ensures |lines| > 0
  {
    if text == "" then [""]
    else
      var rest := Lines(text[1..]);
      if text[0] == '\n' then [""] + rest else [[text[0]] + rest[0]] + rest[1..]
  }

  function JoinLines(lines: seq<string>): string
    requires lines != []
  {
    if |lines| == 1 then lines[0] else lines[0] + "\n" + JoinLines(lines[1..])
  }

  predicate OneLine(s: string) { '\n' !in s }

  predicate OneLiners(lines: seq<string>) { forall i | 0 <= i < |lines| :: OneLine(lines[i]) }

  lemma {:induction false} LinesOfOne(s: string)
    requires OneLine(s)
    ensures Lines(s) == [s]
  {
    if s != "" {
      assert s[0] in s;
      assert forall c | c in s[1..] :: c in s;
      LinesOfOne(s[1..]);
      assert [s[0]] + s[1..] == s;
    }
  }

  lemma {:induction false} LinesOfCons(first: string, rest: string)
    requires OneLine(first)
    ensures Lines(first + "\n" + rest) == [first] + Lines(rest)
  {
    var all := first + "\n" + rest;
    if first == "" {
      assert all[1..] == rest;
    } else {
      assert first[0] in first;
      assert forall c | c in first[1..] :: c in first;
      LinesOfCons(first[1..], rest);
      assert all[1..] == first[1..] + "\n" + rest;
      assert [first[0]] + first[1..] == first;
    }
  }

  /** Splitting and joining lines are inverse to each other. */
  lemma {:induction false} LinesOfJoin(lines: seq<string>)
    requires lines != [] && OneLiners(lines)
    ensures Lines(JoinLines(lines)) == lines
  {
    if |lines| == 1 {
      LinesOfOne(lines[0]);
    } else {
      LinesOfCons(lines[0], JoinLines(lines[1..]));
      LinesOfJoin(lines[1..]);
    }
  }

  lemma {:induction false} LinesAreLines(text: string)
    ensures OneLiners(Lines(text)) && Concat(Lines(text)) == Unbroken(text)
  {
    if text != "" {
      LinesAreLines(text[1..]);
      var rest := Lines(text[1..]);
      assert forall i | 1 <= i < |rest| :: rest[1..][i - 1] == rest[i];
    }
  }

  lemma {:induction false} UnbrokenJoin(lines: seq<string>)
    requires lines != [] && OneLiners(lines)
    ensures Unbroken(JoinLines(lines)) == Concat(lines)
  {
    LinesAreLines(JoinLines(lines));
    LinesOfJoin(lines);
  }

  lemma {:induction false} ConcatAppend(parts: seq<string>, s: string)
    ensures Concat(parts + [s]) == Concat(parts) + s
  {
    if parts == [] {
      assert [s][1..] == [];
    } else {
      ConcatAppend(parts[1..], s);
      assert (parts + [s])[1..] == parts[1..] + [s];
    }
  }

  // ---------------------------------------------------------------- units

  function CharsPerUnit(kind: Kind): nat {
    match kind
    case Heading => 22
    case Code => 48
    case Bullet | Ordered | Quote | TaskItem => 30
    case _ => 32
  }

  function Ceil(n: nat, per: nat): nat
    requires per > 0
  {
    (n + per - 1) / per
  }

  function LineUnits(line: string, per: nat): nat
    requires per > 0
  {
    Max(1, Ceil(|line|, per))
  }

  function LinesUnits(lines: seq<string>, per: nat): nat
    requires per > 0
  {
    if lines == [] then 0 else LineUnits(lines[0], per) + LinesUnits(lines[1..], per)
  }

  /** Two cells share a track; a track is as high as its higher cell and at least two units. */
  function RowUnits(row: Row): nat {
    if row == [] then 0
    else if |row| == 1 then Max(2, Ceil(|row[0]|, 16))
    else Max(2, Max(Ceil(|row[0]|, 16), Ceil(|row[1]|, 16))) + RowUnits(row[2..])
  }

  function RowsUnits(rows: seq<Row>): nat {
    if rows == [] then 0 else RowUnits(rows[0]) + 1 + RowsUnits(rows[1..])
  }

  function Units(b: Block): nat {
    match b.kind
    case Rule => 2
    case Table => 1 + RowsUnits(b.rows)
    case Heading => LinesUnits(Lines(b.text), 22) * 2 + 1
    case Code => LinesUnits(Lines(b.text), 48) + 2
    case _ => LinesUnits(Lines(b.text), CharsPerUnit(b.kind)) + 1
  }

  lemma CeilBound(n: nat, per: nat, k: nat)
    requires per > 0 && n <= per * k
    ensures Ceil(n, per) <= k
  {
    var q, r := (n + per - 1) / per, (n + per - 1) % per;
    assert per * q + r == n + per - 1;
    if k < q { Product(per, k, q); }
  }

  lemma Product(per: nat, k: nat, q: nat)
    requires k < q
    ensures per * q >= per * k + per
  {
    var d: nat := q - k - 1;
    assert per * (k + 1 + d) == per * k + per + per * d;
  }

  lemma {:induction false} LinesUnitsAppend(lines: seq<string>, line: string, per: nat)
    requires per > 0
    ensures LinesUnits(lines + [line], per) == LinesUnits(lines, per) + LineUnits(line, per)
  {
    if lines == [] {
      assert [line][1..] == [];
    } else {
      LinesUnitsAppend(lines[1..], line, per);
      assert (lines + [line])[1..] == lines[1..] + [line];
    }
  }

  lemma {:induction false} RowsUnitsAppend(rows: seq<Row>, row: Row)
    ensures RowsUnits(rows + [row]) == RowsUnits(rows) + RowUnits(row) + 1
  {
    if rows == [] {
      assert [row][1..] == [];
    } else {
      RowsUnitsAppend(rows[1..], row);
      assert (rows + [row])[1..] == rows[1..] + [row];
    }
  }

  // ---------------------------------------------------------------- what a piece of a block is

  /** The reader's characters of a list of pieces, in order. */
  function Shown(code: bool, pieces: seq<Block>): string {
    if pieces == [] then "" else Filter(code, pieces[0].text) + Shown(code, pieces[1..])
  }

  lemma {:induction false} ShownAppend(code: bool, pieces: seq<Block>, b: Block)
    ensures Shown(code, pieces + [b]) == Shown(code, pieces) + Filter(code, b.text)
  {
    hide Filter;
    if pieces == [] {
      assert [b][1..] == [];
    } else {
      ShownAppend(code, pieces[1..], b);
      assert (pieces + [b])[1..] == pieces[1..] + [b];
    }
  }

  predicate Retexted(block: Block, pieces: seq<Block>) {
    forall i | 0 <= i < |pieces| :: pieces[i] == block.(text := pieces[i].text)
  }

  /** Pieces of one block that differ only in their text, show this much, and fit when they should. */
  ghost predicate Pieces(block: Block, code: bool, pieces: seq<Block>, capacity: nat, fits: bool, shown: string) {
    Retexted(block, pieces) && (fits ==> AllFit(pieces, capacity)) && Shown(code, pieces) == shown
  }

  lemma NoPieces(block: Block, code: bool, capacity: nat, fits: bool)
    ensures Pieces(block, code, [], capacity, fits, "") && Filter(code, "") == ""
  {
  }

  lemma AddPiece(block: Block, code: bool, pieces: seq<Block>, capacity: nat, fits: bool, shown: string, text: string)
    requires Pieces(block, code, pieces, capacity, fits, shown)
    requires fits ==> Units(block.(text := text)) <= capacity
    ensures Pieces(block, code, pieces + [block.(text := text)], capacity, fits, shown + Filter(code, text))
  {
    hide Filter, Units;
    ShownAppend(code, pieces, block.(text := text));
  }

  predicate AllFit(pieces: seq<Block>, capacity: nat) { forall i | 0 <= i < |pieces| :: Units(pieces[i]) <= capacity }

  function Tracks(width: nat): nat { (width + 1) / 2 }

  function Width(rows: seq<Row>): nat { if |rows| > 0 && |rows[0]| > 0 then |rows[0]| else 1 }

  /** The least capacity any piece of the block needs. */
  function Needed(b: Block): nat {
    match b.kind
    case Table => 2 * Tracks(Width(b.rows)) + 2
    case Heading | Code => 3
    case _ => 2
  }

  predicate EqualWidth(rows: seq<Row>, width: nat) { forall i | 0 <= i < |rows| :: |rows[i]| == width }

  /** Texts of one line, and tables whose rows have one width. */
  predicate Regular(b: Block) {
    match b.kind
    case Table => EqualWidth(b.rows, Width(b.rows))
    case Code => true
    case _ => OneLine(b.text)
  }

  /** No block can be shown in less: the capacity that suffices is also necessary. */
  lemma NeededIsLeast(b: Block)
    requires b.kind == Table ==> b.rows != [] && |b.rows[0]| > 0
    ensures Units(b) >= Needed(b)
  {
    if b.kind == Table {
      RowUnitsLeast(b.rows[0]);
    } else {
      assert LinesUnits(Lines(b.text), CharsPerUnit(b.kind)) >= 1;
    }
  }

  lemma {:induction false} RowUnitsLeast(row: Row)
    ensures RowUnits(row) >= 2 * Tracks(|row|)
  {
    if |row| > 1 { RowUnitsLeast(row[2..]); }
  }

  lemma {:induction false} RowUnitsMost(row: Row, k: nat)
    requires k >= 2 && forall i | 0 <= i < |row| :: |row[i]| <= 16 * k
    ensures RowUnits(row) <= k * Tracks(|row|)
  {
    if |row| == 1 {
      CeilBound(|row[0]|, 16, k);
    } else if |row| > 1 {
      CeilBound(|row[0]|, 16, k);
      CeilBound(|row[1]|, 16, k);
      RowUnitsMost(row[2..], k);
      assert Tracks(|row|) == Tracks(|row[2..]|) + 1;
      assert k * (Tracks(|row[2..]|) + 1) == k * Tracks(|row[2..]|) + k;
    }
  }

  // ---------------------------------------------------------------- splitting text

  /** How many characters one piece takes: what its budget leaves, and at least one line. */
  function RunLength(kind: Kind, maxUnits: nat): (n: nat)
    ensures n > 0
  {
    var per := CharsPerUnit(kind);
    var contentUnits: int := if kind != Heading then maxUnits - 1 else if maxUnits == 0 then 0 else (maxUnits - 1) / 2;
    if contentUnits < 1 then per else per * contentUnits
  }

  /** The trimmed runs of `n` characters, without the blank ones. */
  function Runs(s: string, n: nat): seq<string>
    requires n > 0
    decreases |s|
  {
    if s == "" then []
    else
      var end := if n > |s| then |s| else n;
      var text := TrimSpace(s[..end]);
      (if text != "" then [text] else []) + Runs(s[end..], n)
  }

  function Texts(pieces: seq<Block>): seq<string> { seq(|pieces|, i requires 0 <= i < |pieces| => pieces[i].text) }

  /** Cuts a text into runs of as many characters as fit, trimmed, without the empty ones. */
  method SplitText(block: Block, maxUnits: nat) returns (pieces: seq<Block>)
    requires block.kind != Table && block.kind != Code
    ensures Retexted(block, pieces) && Shown(false, pieces) == Visible(block.text)
    ensures Texts(pieces) == Runs(block.text, RunLength(block.kind, maxUnits))
    ensures Regular(block) && maxUnits >= Needed(block) ==> AllFit(pieces, maxUnits)
  {
    hide Due, Runs, Texts, TrimSpace, Filter, Visible, Units, Pieces, OneLine, RunLength, Needed;
    var maxRunes := RunLength(block.kind, maxUnits);
    var runes := block.text;
    pieces := [];
    ghost var fits := Regular(block) && maxUnits >= Needed(block);
    ghost var gone := "";
    NoPieces(block, false, maxUnits, fits);
    NothingGone(block.text, maxRunes);
    while |runes| > 0
      invariant gone + runes == block.text && (fits ==> OneLine(runes))
      invariant Pieces(block, false, pieces, maxUnits, fits, Visible(gone))
      invariant Due(pieces, runes, maxRunes, Runs(block.text, maxRunes))
      decreases |runes|
    {
      var end := if maxRunes > |runes| then |runes| else maxRunes;
      var run := runes[..end];
      var text := TrimSpace(run);
      if fits { HalvesOfLine(runes, end); RunFits(block, run, maxUnits); }
      NextRun(block, pieces, maxUnits, fits, gone, run);
      NextDue(block, pieces, runes, maxRunes, Runs(block.text, maxRunes));
      if text != "" {
        pieces := pieces + [block.(text := text)];
      }
      assert (gone + run) + runes[end..] == block.text by { assert run + runes[end..] == runes; }
      gone := gone + run;
      runes := runes[end..];
    }
    assert gone == block.text && runes == "";
    NothingDue(pieces, maxRunes, Runs(block.text, maxRunes));
    PiecesMean(block, false, pieces, maxUnits, fits, Visible(gone));
  }

  /** The texts of the pieces so far and the runs still to come. */
  predicate Due(pieces: seq<Block>, runes: string, n: nat, all: seq<string>)
    requires n > 0
  {
    Texts(pieces) + Runs(runes, n) == all
  }

  lemma NothingGone(text: string, n: nat)
    requires n > 0
    ensures Due([], text, n, Runs(text, n)) && Visible("") == ""
  {
    assert Texts([]) == [];
  }

  lemma NextDue(block: Block, pieces: seq<Block>, runes: string, n: nat, all: seq<string>)
    requires n > 0 && runes != "" && Due(pieces, runes, n, all)
    ensures var end := if n > |runes| then |runes| else n;
      var text := TrimSpace(runes[..end]);
      Due(if text != "" then pieces + [block.(text := text)] else pieces, runes[end..], n, all)
  {
    var end := if n > |runes| then |runes| else n;
    var text, rest := TrimSpace(runes[..end]), Runs(runes[end..], n);
    RunsNext(runes, n);
    hide TrimSpace, Runs, Texts;
    if text != "" {
      TextsNext(pieces, block.(text := text));
      OneMore(Texts(pieces), text, rest);
    } else {
      NoneMore(Texts(pieces), rest);
    }
  }

  lemma OneMore(done: seq<string>, text: string, rest: seq<string>)
    ensures done + ([text] + rest) == (done + [text]) + rest
  {
  }

  lemma NoneMore(done: seq<string>, rest: seq<string>)
    ensures done + ([] + rest) == done + rest
  {
    assert [] + rest == rest;
  }

  lemma RunsNext(runes: string, n: nat)
    requires n > 0 && runes != ""
    ensures var end := if n > |runes| then |runes| else n;
      var text := TrimSpace(runes[..end]);
      Runs(runes, n) == (if text != "" then [text] else []) + Runs(runes[end..], n)
  {
    hide TrimSpace;
  }

  lemma TextsNext(pieces: seq<Block>, piece: Block)
    ensures Texts(pieces + [piece]) == Texts(pieces) + [piece.text]
  {
  }

  lemma NothingDue(pieces: seq<Block>, n: nat, all: seq<string>)
    requires n > 0 && Due(pieces, "", n, all)
    ensures Texts(pieces) == all
  {
  }

  lemma NextRun(block: Block, pieces: seq<Block>, capacity: nat, fits: bool, gone: string, run: string)
    requires Pieces(block, false, pieces, capacity, fits, Visible(gone))
    requires fits ==> Units(block.(text := TrimSpace(run))) <= capacity
    ensures Pieces(block, false, if TrimSpace(run) != "" then pieces + [block.(text := TrimSpace(run))] else pieces,
                   capacity, fits, Visible(gone + run))
  {
    hide Pieces, TrimSpace, Units;
    FilterConcat(false, gone, run);
    Trimmed(run);
    if TrimSpace(run) != "" {
      AddPiece(block, false, pieces, capacity, fits, Visible(gone), TrimSpace(run));
    } else {
      assert Visible(gone) + "" == Visible(gone);
    }
  }

  lemma RunFits(block: Block, run: string, capacity: nat)
    requires block.kind != Table && block.kind != Code && OneLine(run) && capacity >= Needed(block)
    requires |run| <= RunLength(block.kind, capacity)
    ensures Units(block.(text := TrimSpace(run))) <= capacity
  {
    hide TrimSpace, Units, RunLength;
    Trimmed(run);
    TextFits(block.(text := TrimSpace(run)), capacity);
  }

  lemma HalvesOfLine(s: string, end: nat)
    requires end <= |s|
    ensures OneLine(s) ==> OneLine(s[..end]) && OneLine(s[end..])
  {
  }

  lemma PiecesMean(block: Block, code: bool, pieces: seq<Block>, capacity: nat, fits: bool, shown: string)
    requires Pieces(block, code, pieces, capacity, fits, shown)
    ensures Retexted(block, pieces) && (fits ==> AllFit(pieces, capacity)) && Shown(code, pieces) == shown
  {
  }

  lemma Trimmed(s: string)
    ensures Visible(TrimSpace(s)) == Visible(s) && |TrimSpace(s)| <= |s| && (OneLine(s) ==> OneLine(TrimSpace(s)))
  {
    TrimKeepsVisible(s);
    TrimKeepsVisible(TrimLeft(s));
  }

  lemma TextFits(b: Block, capacity: nat)
    requires b.kind != Table && b.kind != Code && OneLine(b.text) && capacity >= Needed(b)
    requires |b.text| <= RunLength(b.kind, capacity)
    ensures Units(b) <= capacity
  {
    LinesOfOne(b.text);
    CeilBound(|b.text|, CharsPerUnit(b.kind), if b.kind == Heading then (capacity - 1) / 2 else capacity - 1);
    assert LinesUnits([b.text], CharsPerUnit(b.kind)) == LineUnits(b.text, CharsPerUnit(b.kind)) by {
      assert [b.text][1..] == [];
    }
  }

  // ---------------------------------------------------------------- splitting code

  /** Packs lines while they fit; a line too long for one piece is cut, the cuts standing alone. */
  method SplitCode(block: Block, maxUnits: nat) returns (pieces: seq<Block>)
    requires block.kind == Code && maxUnits >= 3
    ensures Retexted(block, pieces) && AllFit(pieces, maxUnits)
    ensures Shown(true, pieces) == Unbroken(block.text)
  {
    hide Lines, LinesUnits, JoinLines, Filter, LineUnits, Ceil, Pieces, Pending, OneLine;
    var lines := Lines(block.text);
    LinesAreLines(block.text);
    pieces := [];
    var current: seq<string> := [];
    var currentUnits: nat := 2;
    ghost var shown := "";
    NoLines(maxUnits);
    NoPieces(block, true, maxUnits, true);
    var i := 0;
    while i < |lines|
      invariant 0 <= i <= |lines|
      invariant Pieces(block, true, pieces, maxUnits, true, shown) && Pending(current, currentUnits, maxUnits)
      invariant shown + Concat(current) == Concat(lines[..i])
    {
      var line;
      ghost var before := shown + Concat(current);
      line, pieces, current, currentUnits, shown :=
        CutLine(block, maxUnits, lines[i], pieces, current, currentUnits, shown);
      var lineUnits := LineUnits(line, 48);
      LineFits(line, maxUnits);
      if currentUnits + lineUnits > maxUnits {
        pieces := Flush(block, maxUnits, pieces, current, currentUnits, shown);
        shown := shown + Concat(current);
        current, currentUnits := [], 2;
        NoLines(maxUnits);
        assert shown + "" == shown;
      }
      OneMoreLine(current, currentUnits, maxUnits, line);
      ConcatAppend(lines[..i], lines[i]);
      assert lines[..i + 1] == lines[..i] + [lines[i]];
      assert shown + (Concat(current) + line) == before + lines[i];
      current, currentUnits := current + [line], currentUnits + lineUnits;
      i := i + 1;
    }
    assert lines[..i] == lines;
    pieces := Flush(block, maxUnits, pieces, current, currentUnits, shown);
    PiecesMean(block, true, pieces, maxUnits, true, shown + Concat(current));
  }

  /** The lines waiting for the next piece, with the units they will take. */
  ghost predicate Pending(current: seq<string>, units: nat, maxUnits: nat) {
    OneLiners(current) && units == 2 + LinesUnits(current, 48) <= maxUnits
  }

  lemma NoLines(maxUnits: nat)
    requires maxUnits >= 2
    ensures Pending([], 2, maxUnits) && Concat([]) == ""
  {
  }

  lemma OneMoreLine(current: seq<string>, units: nat, maxUnits: nat, line: string)
    requires Pending(current, units, maxUnits) && OneLine(line) && units + LineUnits(line, 48) <= maxUnits
    ensures Pending(current + [line], units + LineUnits(line, 48), maxUnits)
    ensures Concat(current + [line]) == Concat(current) + line
  {
    LinesUnitsAppend(current, line, 48);
    ConcatAppend(current, line);
  }

  lemma LineFits(line: string, maxUnits: nat)
    requires |line| <= 48 * (maxUnits - 2) && maxUnits >= 3
    ensures 1 <= LineUnits(line, 48) <= maxUnits - 2
  {
    CeilBound(|line|, 48, maxUnits - 2);
  }

  /** The waiting lines become one piece. */
  method Flush(block: Block, maxUnits: nat, pieces: seq<Block>, current: seq<string>, units: nat, ghost shown: string)
    returns (more: seq<Block>)
    requires block.kind == Code && Pieces(block, true, pieces, maxUnits, true, shown)
    requires Pending(current, units, maxUnits)
    ensures Pieces(block, true, more, maxUnits, true, shown + Concat(current))
  {
    hide Pieces;
    more := pieces;
    if |current| > 0 {
      UnbrokenJoin(current);
      LinesOfJoin(current);
      AddPiece(block, true, pieces, maxUnits, true, shown, JoinLines(current));
      more := pieces + [block.(text := JoinLines(current))];
    } else {
      assert shown + Concat(current) == shown;
    }
  }

  /** Cuts full pieces off a line that does not fit into one. */
  method CutLine(block: Block, maxUnits: nat, line0: string, pieces0: seq<Block>, current0: seq<string>, units0: nat,
                 ghost shown0: string)
    returns (line: string, pieces: seq<Block>, current: seq<string>, units: nat, ghost shown: string)
    requires block.kind == Code && maxUnits >= 3 && OneLine(line0)
    requires Pieces(block, true, pieces0, maxUnits, true, shown0) && Pending(current0, units0, maxUnits)
    ensures Pieces(block, true, pieces, maxUnits, true, shown) && Pending(current, units, maxUnits)
    ensures |line| <= 48 * (maxUnits - 2) && OneLine(line)
    ensures shown + Concat(current) + line == shown0 + Concat(current0) + line0
  {
    hide Pieces, Pending, OneLine, Units, Filter, Concat;
    line, pieces, current, units, shown := line0, pieces0, current0, units0, shown0;
    var most := 48 * (maxUnits - 2);
    while |line| > most
      invariant OneLine(line) && Pieces(block, true, pieces, maxUnits, true, shown) && Pending(current, units, maxUnits)
      invariant shown + Concat(current) + line == shown0 + Concat(current0) + line0
      decreases |line|
    {
      pieces := Flush(block, maxUnits, pieces, current, units, shown);
      shown := shown + Concat(current);
      current, units := [], 2;
      NoLines(maxUnits);
      CutFits(block.(text := line[..most]), line, maxUnits);
      AddPiece(block, true, pieces, maxUnits, true, shown, line[..most]);
      pieces := pieces + [block.(text := line[..most])];
      assert shown + line == shown + line[..most] + "" + line[most..];
      shown := shown + line[..most];
      line := line[most..];
    }
  }

  lemma CutFits(piece: Block, line: string, maxUnits: nat)
    requires piece.kind == Code && maxUnits >= 3 && OneLine(line) && |line| > 48 * (maxUnits - 2)
    requires piece.text == line[..48 * (maxUnits - 2)]
    ensures Units(piece) <= maxUnits && Unbroken(piece.text) == piece.text && OneLine(line[48 * (maxUnits - 2)..])
  {
    var n := 48 * (maxUnits - 2);
    assert forall c | c in line[..n] :: c in line;
    assert forall c | c in line[n..] :: c in line;
    LinesOfOne(piece.text);
    LinesAreLines(piece.text);
    LineFits(piece.text, maxUnits);
    assert Concat([piece.text]) == piece.text by { assert [piece.text][1..] == []; }
    assert LinesUnits([piece.text], 48) == LineUnits(piece.text, 48) by { assert [piece.text][1..] == []; }
  }

  // ---------------------------------------------------------------- splitting tables

  /** One column read through the fragments of a row. */
  function Column(parts: seq<Row>, c: nat): string
    requires forall i | 0 <= i < |parts| :: c < |parts[i]|
  {
    if parts == [] then "" else parts[0][c] + Column(parts[1..], c)
  }

  lemma {:induction false} ColumnAppend(parts: seq<Row>, part: Row, c: nat)
    requires c < |part| && forall i | 0 <= i < |parts| :: c < |parts[i]|
    ensures Column(parts + [part], c) == Column(parts, c) + part[c]
  {
    if parts == [] {
      assert [part][1..] == [];
    } else {
      ColumnAppend(parts[1..], part, c);
      assert (parts + [part])[1..] == parts[1..] + [part];
    }
  }

  /** The fragments of one row: as wide as the row, and each cell is its fragments in order. */
  ghost predicate Rebuilds(row: Row, parts: seq<Row>) {
    parts != [] && EqualWidth(parts, |row|) && forall c | 0 <= c < |row| :: Column(parts, c) == row[c]
  }

  predicate CellsWithin(row: Row, most: nat) { forall c | 0 <= c < |row| :: |row[c]| <= most }

  function Length(cells: seq<string>): nat { if cells == [] then 0 else |cells[0]| + Length(cells[1..]) }

  lemma {:induction false} Shorter(before: seq<string>, after: seq<string>)
    requires |before| == |after| && forall c | 0 <= c < |before| :: |after[c]| <= |before[c]|
    ensures Length(after) <= Length(before)
    ensures (exists c :: 0 <= c < |before| && |after[c]| < |before[c]|) ==> Length(after) < Length(before)
  {
    if before != [] {
      Shorter(before[1..], after[1..]);
      if c :| 0 <= c < |before| && |after[c]| < |before[c]| {
        if c > 0 { assert before[1..][c - 1] == before[c] && after[1..][c - 1] == after[c]; }
      }
    }
  }

  /** Takes at most `most` characters off every cell. */
  method TakePart(remaining: seq<string>, most: nat) returns (piece: Row, rest: seq<string>, hasContent: bool)
    requires most > 0
    ensures |piece| == |rest| == |remaining| && CellsWithin(piece, most)
    ensures forall c | 0 <= c < |remaining| :: piece[c] + rest[c] == remaining[c]
    ensures hasContent <==> exists c :: 0 <= c < |remaining| && |rest[c]| < |remaining[c]|
    ensures !hasContent <==> forall c | 0 <= c < |remaining| :: remaining[c] == ""
  {
    piece, rest, hasContent := [], [], false;
    var c := 0;
    while c < |remaining|
      invariant 0 <= c <= |remaining| && |piece| == |rest| == c && CellsWithin(piece, most)
      invariant forall d | 0 <= d < c :: piece[d] + rest[d] == remaining[d]
      invariant hasContent <==> exists d :: 0 <= d < c && |rest[d]| < |remaining[d]|
      invariant !hasContent <==> forall d | 0 <= d < c :: remaining[d] == ""
    {
      var cell := remaining[c];
      var end := if |cell| > most then most else |cell|;
      if end > 0 {
        hasContent := true;
      }
      assert cell == cell[..end] + cell[end..];
      piece, rest := piece + [cell[..end]], rest + [cell[end..]];
      assert |rest[c]| < |remaining[c]| <==> end > 0;
      c := c + 1;
    }
  }

  method SplitRow(row: Row, most: nat) returns (parts: seq<Row>)
    requires most > 0
    ensures Rebuilds(row, parts) && forall i | 0 <= i < |parts| :: CellsWithin(parts[i], most)
  {
    var remaining := row;
    parts := [];
    if forall c | 0 <= c < |row| :: row[c] == "" {
      EmptyRow(row);
      assert CellsWithin(row, most);
      return [row];
    }
    hide Length, CellsWithin, Cut, Rebuilds;
    NothingCut(row);
    while true
      invariant Cut(row, parts, remaining)
      invariant forall i | 0 <= i < |parts| :: CellsWithin(parts[i], most)
      invariant parts == [] ==> remaining == row
      decreases Length(remaining)
    {
      var piece, rest, hasContent := TakePart(remaining, most);
      if !hasContent {
        break;
      }
      CutMore(row, parts, remaining, piece, rest);
      parts := parts + [piece];
      remaining := rest;
    }
    AllCut(row, parts, remaining);
  }

  /** The fragments so far and what is left of each cell. */
  ghost predicate Cut(row: Row, parts: seq<Row>, remaining: seq<string>) {
    |remaining| == |row| && EqualWidth(parts, |row|) && forall c | 0 <= c < |row| ::
      Column(parts, c) + remaining[c] == row[c]
  }

  lemma NothingCut(row: Row)
    ensures Cut(row, [], row)
  {
    assert forall c | 0 <= c < |row| :: "" + row[c] == row[c];
  }

  lemma CutMore(row: Row, parts: seq<Row>, remaining: seq<string>, piece: Row, rest: seq<string>)
    requires Cut(row, parts, remaining) && |piece| == |rest| == |remaining|
    requires forall c | 0 <= c < |remaining| :: piece[c] + rest[c] == remaining[c]
    requires exists c :: 0 <= c < |remaining| && |rest[c]| < |remaining[c]|
    ensures Cut(row, parts + [piece], rest) && Length(rest) < Length(remaining)
  {
    Shorter(remaining, rest);
    forall c | 0 <= c < |row| ensures Column(parts + [piece], c) + rest[c] == row[c] {
      ColumnAppend(parts, piece, c);
      assert Column(parts, c) + (piece[c] + rest[c]) == row[c];
    }
  }

  lemma AllCut(row: Row, parts: seq<Row>, remaining: seq<string>)
    requires Cut(row, parts, remaining) && forall c | 0 <= c < |remaining| :: remaining[c] == ""
    requires parts != []
    ensures Rebuilds(row, parts)
  {
    forall c | 0 <= c < |row| ensures Column(parts, c) == row[c] { assert Column(parts, c) + "" == row[c]; }
  }

  lemma EmptyRow(row: Row)
    ensures Rebuilds(row, [row])
  {
    forall c | 0 <= c < |row| ensures Column([row], c) == row[c] {
      assert [row][1..] == [];
      assert row[c] + "" == row[c];
    }
  }

  function Flatten<T>(parts: seq<seq<T>>): seq<T> {
    if parts == [] then [] else parts[0] + Flatten(parts[1..])
  }

  lemma {:induction false} FlattenAppend<T>(parts: seq<seq<T>>, part: seq<T>)
    ensures Flatten(parts + [part]) == Flatten(parts) + part
  {
    if parts == [] {
      assert [part][1..] == [];
    } else {
      FlattenAppend(parts[1..], part);
      assert (parts + [part])[1..] == parts[1..] + [part];
    }
  }

  /** The fragments of all rows, row after row. */
  ghost predicate RebuildsAll(rows: seq<Row>, groups: seq<seq<Row>>) {
    |groups| == |rows| && forall i | 0 <= i < |rows| :: Rebuilds(rows[i], groups[i])
  }

  /** The characters a cell may keep in one piece. */
  function CellLimit(rows: seq<Row>, maxUnits: nat): (n: nat)
    requires maxUnits >= 2
    ensures n >= 16
  {
    Max(16, (maxUnits - 2) / Tracks(Width(rows)) * 16)
  }

  method SplitRows(rows: seq<Row>, maxUnits: nat) returns (result: seq<Row>, ghost groups: seq<seq<Row>>)
    requires maxUnits >= 2
    ensures RebuildsAll(rows, groups) && result == Flatten(groups)
    ensures forall k | 0 <= k < |result| :: CellsWithin(result[k], CellLimit(rows, maxUnits))
    ensures forall w: nat | EqualWidth(rows, w) :: EqualWidth(result, w)
  {
    hide Rebuilds, CellLimit, CellsWithin;
    result, groups := [], [];
    var i := 0;
    while i < |rows|
      invariant 0 <= i <= |rows| && |groups| == i && result == Flatten(groups)
      invariant forall j | 0 <= j < i :: Rebuilds(rows[j], groups[j])
      invariant forall k | 0 <= k < |result| :: CellsWithin(result[k], CellLimit(rows, maxUnits))
      invariant forall w: nat | EqualWidth(rows, w) :: EqualWidth(result, w)
    {
      var parts := SplitRow(rows[i], CellLimit(rows, maxUnits));
      RebuildsWidth(rows[i], parts);
      FlattenAppend(groups, parts);
      result, groups := result + parts, groups + [parts];
      i := i + 1;
    }
  }

  lemma RebuildsWidth(row: Row, parts: seq<Row>)
    requires Rebuilds(row, parts)
    ensures EqualWidth(parts, |row|)
  {
  }

  function TableOf(columns: Row, rows: seq<Row>): Block { Block(Table, "", "", "", columns, rows) }

  function RowsOf(pieces: seq<Block>): seq<seq<Row>> { seq(|pieces|, i requires 0 <= i < |pieces| => pieces[i].rows) }

  /** Tables under the same headings that hold these rows in order, none of them empty. */
  ghost predicate Tables(columns: Row, pieces: seq<Block>, capacity: nat, fits: bool, rows: seq<Row>) {
    && (forall i | 0 <= i < |pieces| :: pieces[i] == TableOf(columns, pieces[i].rows) && pieces[i].rows != [])
    && (fits ==> AllFit(pieces, capacity))
    && Flatten(RowsOf(pieces)) == rows
  }

  lemma AddTable(columns: Row, pieces: seq<Block>, capacity: nat, fits: bool, done: seq<Row>, rows: seq<Row>)
    requires Tables(columns, pieces, capacity, fits, done) && rows != [] && (fits ==> 1 + RowsUnits(rows) <= capacity)
    ensures Tables(columns, pieces + [TableOf(columns, rows)], capacity, fits, done + rows)
  {
    hide RowsUnits;
    var more := pieces + [TableOf(columns, rows)];
    FlattenAppend(RowsOf(pieces), rows);
    assert RowsOf(more) == RowsOf(pieces) + [rows];
  }

  /** Packs rows under a repeated heading while they fit; rows too high for one piece are cut first. */
  method SplitTable(block: Block, maxUnits: nat) returns (pieces: seq<Block>)
    requires block.kind == Table && maxUnits >= 2
    ensures TableKept(block, pieces)
    ensures Regular(block) && maxUnits >= Needed(block) ==> AllFit(pieces, maxUnits)
  {
    hide RowsUnits, AllFit, TableKept, Tables, RebuildsAll, RowUnits;
    pieces := [];
    var current: seq<Row> := [];
    var rows;
    ghost var groups;
    rows, groups := SplitRows(block.rows, maxUnits);
    ghost var fits, done := Regular(block) && maxUnits >= Needed(block), [];
    NoTables(block.columns, maxUnits, fits);
    var i := 0;
    while i < |rows|
      invariant 0 <= i <= |rows| && done + current == rows[..i]
      invariant Tables(block.columns, pieces, maxUnits, fits, done)
      invariant fits && current != [] ==> 1 + RowsUnits(current) <= maxUnits
    {
      if fits { RowFits(block, rows[i], maxUnits); }
      RowsUnitsAppend(current, rows[i]);
      RowsUnitsAppend([], rows[i]);
      if |current| > 0 && 1 + RowsUnits(current + [rows[i]]) > maxUnits {
        AddTable(block.columns, pieces, maxUnits, fits, done, current);
        pieces := pieces + [TableOf(block.columns, current)];
        done, current := done + current, [];
      }
      assert rows[..i + 1] == rows[..i] + [rows[i]] && done + (current + [rows[i]]) == rows[..i + 1];
      assert current == [] ==> current + [rows[i]] == [] + [rows[i]];
      current := current + [rows[i]];
      i := i + 1;
    }
    assert rows[..i] == rows;
    if |current| > 0 {
      AddTable(block.columns, pieces, maxUnits, fits, done, current);
      pieces := pieces + [TableOf(block.columns, current)];
      done := done + current;
    }
    assert done == rows;
    TablesMean(block, pieces, maxUnits, fits, groups);
  }

  /** The pieces hold every row of the table, in order, each rebuilt from its own fragments. */
  ghost predicate TableKept(b: Block, pieces: seq<Block>) {
    exists groups: seq<seq<Row>> :: RebuildsAll(b.rows, groups) && Tables(b.columns, pieces, 0, false, Flatten(groups))
  }

  lemma TablesMean(b: Block, pieces: seq<Block>, capacity: nat, fits: bool, groups: seq<seq<Row>>)
    requires RebuildsAll(b.rows, groups) && Tables(b.columns, pieces, capacity, fits, Flatten(groups))
    ensures TableKept(b, pieces) && (fits ==> AllFit(pieces, capacity))
  {
    hide RebuildsAll;
    assert Tables(b.columns, pieces, 0, false, Flatten(groups));
  }

  lemma NoTables(columns: Row, capacity: nat, fits: bool)
    ensures Tables(columns, [], capacity, fits, []) && RowsUnits([]) == 0
  {
    assert RowsOf([]) == [];
  }

  lemma AtLeastTwo(a: nat, b: nat, q: nat, r: nat)
    requires a == b * q + r && r < b && a >= 2 * b
    ensures q >= 2
  {
    if q == 0 {
    } else if q == 1 {
    }
  }

  lemma RowFits(block: Block, row: Row, capacity: nat)
    requires block.kind == Table && capacity >= Needed(block) && |row| == Width(block.rows)
    requires CellsWithin(row, CellLimit(block.rows, capacity))
    ensures RowUnits(row) + 2 <= capacity
  {
    TrackShare(capacity, Tracks(Width(block.rows)));
    var k := (capacity - 2) / Tracks(Width(block.rows));
    hide RowUnits, Tracks;
    RowUnitsMost(row, k);
  }

  /** The units of a piece shared among the tracks of one row. */
  lemma TrackShare(capacity: nat, tracks: nat)
    requires tracks > 0 && capacity >= 2 * tracks + 2
    ensures var k := (capacity - 2) / tracks; k >= 2 && k * tracks <= capacity - 2
  {
    var k, r := (capacity - 2) / tracks, (capacity - 2) % tracks;
    assert tracks * k + r == capacity - 2;
    AtLeastTwo(capacity - 2, tracks, k, r);
  }

  // ---------------------------------------------------------------- splitting any block

  /** What splitting a block keeps of it. */
  ghost predicate Keeps(b: Block, pieces: seq<Block>) {
    || pieces == [b]
    || (b.kind == Table && TableKept(b, pieces))
    || (b.kind == Code && Retexted(b, pieces) && Shown(true, pieces) == Unbroken(b.text))
    || (b.kind != Code && b.kind != Table && Retexted(b, pieces) && Shown(false, pieces) == Visible(b.text))
  }

  /** A block that fits stays whole; any other becomes pieces that keep its content and fit whenever anything can. */
  method SplitBlock(block: Block, maxUnits: nat) returns (pieces: seq<Block>)
    requires maxUnits >= 3
    ensures Keeps(block, pieces)
    ensures Units(block) <= maxUnits ==> pieces == [block]
    ensures Regular(block) && maxUnits >= Needed(block) ==> AllFit(pieces, maxUnits)
  {
    hide Units, Regular, Needed, Retexted, Shown, TableKept;
    if Units(block) <= maxUnits {
      return [block];
    }
    if block.kind == Table {
      pieces := SplitTable(block, maxUnits);
    } else if block.kind == Code {
      pieces := SplitCode(block, maxUnits);
    } else {
      pieces := SplitText(block, maxUnits);
    }
  }
}

/**
 The CSV line splitter of the KPI spreadsheet import. Quotes only switch
 comma handling on and off; a doubled quote inside a cell (section 2, rule 7 of
 RFC 4180) is not an escape here.
 */
module Csv {

  const QUOTE := '"'
  const COMMA := ','

  /** The cells still to come, in the scanner state (inQuotes, current). */
  function Cells(line: string, inQuotes: bool, current: string): (cells: seq<string>)
    ensures |cells| >= 1
  {
    if line == "" then [current]
    else if line[0] == QUOTE then Cells(line[1..], !inQuotes, current)
    else if line[0] == COMMA && !inQuotes then [current] + Cells(line[1..], false, "")
    else Cells(line[1..], inQuotes, current + [line[0]])
  }

  /** The splitter: one pass over the characters of the line. */
  method SplitCsvLine(line: string) returns (result: seq<string>)
    ensures result == Cells(line, false, "")
    ensures |result| == 1 + |SeparatorPositions(line)|
    ensures Flatten(result) == Kept(line, false)
  {
    result := [];
    var current := "";
    var inQuotes := false;
    var i := 0;
    while i < |line|
      invariant 0 <= i <= |line|
      invariant result + Cells(line[i..], inQuotes, current) == Cells(line, false, "")
    {
      var c := line[i];
      assert line[i..][1..] == line[i + 1..];
      if c == '"' {
        inQuotes := !inQuotes;
      } else if c == ',' && !inQuotes {
        result := result + [current];
        current := "";
      } else {
        current := current + [c];
      }
      i := i + 1;
    }
    result := result + [current];
    CountCells(line, false, "", 0);
    KeptCells(line, false, "");
    assert "" + Kept(line, false) == Kept(line, false);
  }

  // ---- Which characters survive: a description by position -----------------

  function Quotes(s: string): nat {
    if s == "" then 0 else Quotes(s[..|s| - 1]) + (if s[|s| - 1] == QUOTE then 1 else 0)
  }

  /** Position `i` of the line is a comma with an even number of quotes before it. */
  predicate IsSeparator(line: string, i: nat)
    requires i < |line|
  {
    line[i] == COMMA && Quotes(line[..i]) % 2 == 0
  }

  function SeparatorPositions(line: string): set<nat> {
    set i: nat | i < |line| && IsSeparator(line, i)
  }

  function Flatten(cells: seq<string>): string {
    if cells == [] then "" else cells[0] + Flatten(cells[1..])
  }

  /** The line without its quotes and without its unquoted commas. */
  function Kept(line: string, inQuotes: bool): string {
    if line == "" then ""
    else if line[0] == QUOTE then Kept(line[1..], !inQuotes)
    else if line[0] == COMMA && !inQuotes then Kept(line[1..], false)
    else [line[0]] + Kept(line[1..], inQuotes)
  }

  lemma {:induction false} KeptCells(line: string, inQuotes: bool, current: string)
    ensures Flatten(Cells(line, inQuotes, current)) == current + Kept(line, inQuotes)
  {
    if line == "" {
      assert Flatten([]) == "";
      assert [current][1..] == [];
    } else if line[0] == QUOTE {
      KeptCells(line[1..], !inQuotes, current);
    } else if line[0] == COMMA && !inQuotes {
      KeptCells(line[1..], false, "");
      assert ([current] + Cells(line[1..], false, ""))[1..] == Cells(line[1..], false, "");
    } else {
      KeptCells(line[1..], inQuotes, current + [line[0]]);
    }
  }

  /** Separators among the positions from `from` on, counted backwards from the end. */
  function SeparatorsFrom(line: string, from: nat): set<nat>
    requires from <= |line|
  {
    set i: nat | from <= i < |line| && IsSeparator(line, i)
  }

  lemma SeparatorsStep(line: string, from: nat)
    requires from < |line|
    ensures |SeparatorsFrom(line, from)|
            == |SeparatorsFrom(line, from + 1)| + if IsSeparator(line, from) then 1 else 0
    ensures Quotes(line[..from + 1]) == Quotes(line[..from]) + if line[from] == QUOTE then 1 else 0
  {
    assert line[..from + 1][..from] == line[..from];
    assert SeparatorsFrom(line, from)
           == SeparatorsFrom(line, from + 1) + if IsSeparator(line, from) then {from} else {};
  }

  /** In the scanner state at `from`, one more cell is to come than separators. */
  lemma {:induction false} CountCells(line: string, inQuotes: bool, current: string, from: nat)
    requires from <= |line|
    requires inQuotes == (Quotes(line[..from]) % 2 == 1)
    ensures |Cells(line[from..], inQuotes, current)| == 1 + |SeparatorsFrom(line, from)|
    ensures from == 0 ==> SeparatorsFrom(line, from) == SeparatorPositions(line)
    decreases |line| - from
  {
    if from < |line| {
      var c := line[from];
      assert line[from..][1..] == line[from + 1..];
      SeparatorsStep(line, from);
      if c == QUOTE {
        CountCells(line, !inQuotes, current, from + 1);
      } else if c == COMMA && !inQuotes {
        CountCells(line, false, "", from + 1);
      } else {
        CountCells(line, inQuotes, current + [c], from + 1);
      }
    } else {
      assert SeparatorsFrom(line, from) == {};
    }
  }

  // ---- Round trip ----------------------------------------------------------

  function Quoted(cell: string): string {
    [QUOTE] + cell + [QUOTE]
  }

  /** The cells as a spreadsheet writes them when it quotes every cell. */
  function JoinQuoted(cells: seq<string>): string
    requires cells != []
  {
    if |cells| == 1 then Quoted(cells[0]) else Quoted(cells[0]) + [COMMA] + JoinQuoted(cells[1..])
  }

  /** Inside quotes everything up to the closing quote is copied. */
  lemma {:induction false} CopyQuoted(cell: string, rest: string, current: string)
    requires QUOTE !in cell
    ensures Cells(cell + [QUOTE] + rest, true, current) == Cells(rest, false, current + cell)
  {
    var line := cell + [QUOTE] + rest;
    if cell == "" {
      assert line[1..] == rest;
      assert current + cell == current;
    } else {
      assert line[1..] == cell[1..] + [QUOTE] + rest;
      CopyQuoted(cell[1..], rest, current + [cell[0]]);
      assert current + [cell[0]] + cell[1..] == current + cell;
    }
  }

  /** For every nonempty list of quote-free cells, splitting undoes quoting and joining. */
  lemma {:induction false} SplitUndoesJoinQuoted(cells: seq<string>)
    requires cells != []
    requires forall cell :: cell in cells ==> QUOTE !in cell
    ensures Cells(JoinQuoted(cells), false, "") == cells
  {
    var line := JoinQuoted(cells);
    var rest := if |cells| == 1 then "" else [COMMA] + JoinQuoted(cells[1..]);
    assert line == [QUOTE] + (cells[0] + [QUOTE] + rest);
    CopyQuoted(cells[0], rest, "");
    assert "" + cells[0] == cells[0];
    if |cells| > 1 {
      assert rest[1..] == JoinQuoted(cells[1..]);
      SplitUndoesJoinQuoted(cells[1..]);
    }
  }

  /** A cell with a quote in it never survives the trip, so the condition above is exact. */
  lemma QuotesNeverSurvive(line: string)
    ensures forall cell :: cell in Cells(line, false, "") ==> QUOTE !in cell
  {
    NoQuotesCollected(line, false, "");
  }

  lemma {:induction false} NoQuotesCollected(line: string, inQuotes: bool, current: string)
    requires QUOTE !in current
    ensures forall cell :: cell in Cells(line, inQuotes, current) ==> QUOTE !in cell
  {
    if line != "" {
      if line[0] == QUOTE {
        NoQuotesCollected(line[1..], !inQuotes, current);
      } else if line[0] == COMMA && !inQuotes {
        NoQuotesCollected(line[1..], false, "");
      } else {
        NoQuotesCollected(line[1..], inQuotes, current + [line[0]]);
      }
    }
  }

  /** The round trip holds exactly for quote-free cells. */
  lemma RoundTripIffQuoteFree(cells: seq<string>)
    requires cells != []
    ensures Cells(JoinQuoted(cells), false, "") == cells <==> forall cell :: cell in cells ==> QUOTE !in cell
  {
    QuotesNeverSurvive(JoinQuoted(cells));
    if forall cell :: cell in cells ==> QUOTE !in cell {
      SplitUndoesJoinQuoted(cells);
    }
  }
}

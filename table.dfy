/** The text table of the command-line front end (`print_table`): column
    widths, left-justified cells joined by " | ", and a dashed divider. The
    lines are returned instead of printed. */
module Table {

  function Max(a: nat, b: nat): nat {
    if a < b then b else a
  }

  function Repeat(c: char, n: nat): (s: string)
    ensures |s| == n && forall i :: 0 <= i < n ==> s[i] == c
  {
    seq(n, _ => c)
  }

  /** `str.ljust(width)`: pads with spaces on the right, never truncates. */
  function PadRight(s: string, width: nat): (r: string)
    ensures |r| == Max(|s|, width)
    ensures r[..|s|] == s
    ensures forall i :: |s| <= i < |r| ==> r[i] == ' '
  {
    if |s| < width then s + Repeat(' ', width - |s|) else s
  }

  /** `sep.join(parts)`. */
  function Join(sep: string, parts: seq<string>): string {
    if |parts| == 0 then ""
    else if |parts| == 1 then parts[0]
    else parts[0] + sep + Join(sep, parts[1..])
  }

  function Total(ns: seq<nat>): nat {
    if ns == [] then 0 else ns[0] + Total(ns[1..])
  }

  /** The lengths of the parts of a join. */
  function Lengths(parts: seq<string>): (ns: seq<nat>)
    ensures |ns| == |parts| && forall i :: 0 <= i < |parts| ==> ns[i] == |parts[i]|
  {
    seq(|parts|, i requires 0 <= i < |parts| => |parts[i]|)
  }

  /** A join is as long as its parts plus one separator between each two. */
  lemma {:induction false} JoinLength(sep: string, parts: seq<string>)
    requires parts != []
    ensures |Join(sep, parts)| == Total(Lengths(parts)) + |sep| * (|parts| - 1)
  {
    assert Lengths(parts)[1..] == Lengths(parts[1..]);
    if |parts| > 1 {
      JoinLength(sep, parts[1..]);
    } else {
      assert Lengths(parts[1..]) == [];
    }
  }

  /** Two joins whose separators and parts have pairwise equal lengths have
      equal lengths. */
  lemma {:induction false} JoinLengths(sep1: string, parts1: seq<string>, sep2: string, parts2: seq<string>)
    requires |sep1| == |sep2| && |parts1| == |parts2|
    requires forall i :: 0 <= i < |parts1| ==> |parts1[i]| == |parts2[i]|
    ensures |Join(sep1, parts1)| == |Join(sep2, parts2)|
  {
    if |parts1| > 1 {
      JoinLengths(sep1, parts1[1..], sep2, parts2[1..]);
    }
  }

  /** Every row has at most as many cells as there are headers; a longer row
      makes `column_widths[idx]` raise. */
  ghost predicate Fits(headers: seq<string>, rows: seq<seq<string>>) {
    forall k :: 0 <= k < |rows| ==> |rows[k]| <= |headers|
  }

  /** The widths after one more row has been measured. */
  function Widen(widths: seq<nat>, row: seq<string>): (r: seq<nat>)
    requires |row| <= |widths|
    ensures |r| == |widths|
  {
    seq(|widths|, i requires 0 <= i < |widths| => if i < |row| then Max(widths[i], |row[i]|) else widths[i])
  }

  /** `column_widths` once every row has been measured. */
  function Widths(headers: seq<string>, rows: seq<seq<string>>): (w: seq<nat>)
    requires Fits(headers, rows)
    ensures |w| == |headers|
  {
    if rows == [] then seq(|headers|, i requires 0 <= i < |headers| => |headers[i]|)
    else Widen(Widths(headers, rows[..|rows| - 1]), rows[|rows| - 1])
  }

  /** Each width is the largest of the header's length and the lengths of the
      cells in that column. */
  lemma {:induction false} WidthsAreColumnMaxima(headers: seq<string>, rows: seq<seq<string>>, i: nat)
    requires Fits(headers, rows) && i < |headers|
    ensures Widths(headers, rows)[i] >= |headers[i]|
    ensures forall k :: 0 <= k < |rows| && i < |rows[k]| ==> Widths(headers, rows)[i] >= |rows[k][i]|
    ensures || Widths(headers, rows)[i] == |headers[i]|
            || exists k :: 0 <= k < |rows| && i < |rows[k]| && Widths(headers, rows)[i] == |rows[k][i]|
  {
    if rows != [] {
      var n := |rows| - 1;
      var front := rows[..n];
      assert Fits(headers, front) by {
        forall k | 0 <= k < |front| ensures |front[k]| <= |headers| {
          assert front[k] == rows[k];
        }
      }
      WidthsAreColumnMaxima(headers, front, i);
      var before := Widths(headers, front);
      assert Widths(headers, rows)[i] == if i < |rows[n]| then Max(before[i], |rows[n][i]|) else before[i];
      forall k | 0 <= k < |rows| && i < |rows[k]| ensures Widths(headers, rows)[i] >= |rows[k][i]| {
        if k < n {
          assert front[k] == rows[k];
        }
      }
      if Widths(headers, rows)[i] != |headers[i]| && Widths(headers, rows)[i] != before[i] {
        assert Widths(headers, rows)[i] == |rows[n][i]|;
      } else if Widths(headers, rows)[i] != |headers[i]| {
        var k :| 0 <= k < |front| && i < |front[k]| && before[i] == |front[k][i]|;
        assert rows[k] == front[k];
      }
    }
  }

  /** The width loop of `print_table`, run in place on an array. */
  method ColumnWidths(headers: seq<string>, rows: seq<seq<string>>) returns (widths: seq<nat>)
    requires Fits(headers, rows)
    ensures widths == Widths(headers, rows)
  {
    var column := new nat[|headers|](i => if 0 <= i < |headers| then |headers[i]| else 0);
    assert column[..] == Widths(headers, rows[..0]);
    var r := 0;
    while r < |rows|
      invariant 0 <= r <= |rows|
      invariant Fits(headers, rows[..r])
      invariant column[..] == Widths(headers, rows[..r])
    {
      var row := rows[r];
      ghost var before := column[..];
      var idx := 0;
      while idx < |row|
        invariant 0 <= idx <= |row| <= column.Length
        invariant forall i :: 0 <= i < column.Length ==>
                    column[i] == if i < idx then Max(before[i], |row[i]|) else before[i]
      {
        column[idx] := Max(column[idx], |row[idx]|);
        idx := idx + 1;
      }
      assert rows[..r + 1][..r] == rows[..r];
      assert column[..] == Widen(before, row);
      r := r + 1;
    }
    assert rows[..r] == rows;
    widths := column[..];
  }

  /** Each cell of a row left-justified to its column's width. */
  function Cells(row: seq<string>, widths: seq<nat>): (cells: seq<string>)
    requires |row| <= |widths|
    ensures |cells| == |row|
  {
    seq(|row|, i requires 0 <= i < |row| => PadRight(row[i], widths[i]))
  }

  /** `fmt_row`. */
  function FormatRow(row: seq<string>, widths: seq<nat>): (line: string)
    requires |row| <= |widths|
    ensures row != [] ==>
              |line| == Total(seq(|row|, i requires 0 <= i < |row| => Max(|row[i]|, widths[i]))) + 3 * (|row| - 1)
    ensures row == [] ==> line == ""
  {
    var cells := Cells(row, widths);
    if row == [] then Join(" | ", cells)
    else
      JoinLength(" | ", cells);
      assert Lengths(cells) == seq(|row|, i requires 0 <= i < |row| => Max(|row[i]|, widths[i]));
      Join(" | ", cells)
  }

  /** `divider`: per column, that many dashes, joined by "-+-". */
  function Divider(widths: seq<nat>): (line: string)
    ensures widths != [] ==> |line| == Total(widths) + 3 * (|widths| - 1)
    ensures widths == [] ==> line == ""
  {
    var dashes := seq(|widths|, i requires 0 <= i < |widths| => Repeat('-', widths[i]));
    if widths == [] then Join("-+-", dashes)
    else
      JoinLength("-+-", dashes);
      assert Lengths(dashes) == widths;
      Join("-+-", dashes)
  }

  /** In a table's own widths, every cell of the header or of a row is its
      text followed by spaces up to exactly the column's width. */
  lemma {:induction false} CellsFillColumns(headers: seq<string>, rows: seq<seq<string>>, row: seq<string>, i: nat)
    requires Fits(headers, rows) && i < |row|
    requires row == headers || row in rows
    ensures var w := Widths(headers, rows);
      var cell := Cells(row, w)[i];
      && |cell| == w[i]
      && cell[..|row[i]|] == row[i]
      && forall j :: |row[i]| <= j < |cell| ==> cell[j] == ' '
  {
    if row != headers {
      var k :| 0 <= k < |rows| && rows[k] == row;
    }
    WidthsAreColumnMaxima(headers, rows, i);
  }

  /** A row with a cell in every column is exactly as long as the divider. */
  lemma FullRowMatchesDivider(headers: seq<string>, rows: seq<seq<string>>, row: seq<string>)
    requires Fits(headers, rows) && |row| == |headers|
    requires row == headers || row in rows
    ensures |FormatRow(row, Widths(headers, rows))| == |Divider(Widths(headers, rows))|
  {
    var w := Widths(headers, rows);
    var dashes := seq(|w|, i requires 0 <= i < |w| => Repeat('-', w[i]));
    forall i | 0 <= i < |row| ensures |Cells(row, w)[i]| == |dashes[i]| {
      CellsFillColumns(headers, rows, row, i);
    }
    JoinLengths(" | ", Cells(row, w), "-+-", dashes);
  }

  /** `print_table`: the header line, the divider, then one line per row in
      the given order. */
  method PrintTable(headers: seq<string>, rows: seq<seq<string>>) returns (lines: seq<string>)
    requires Fits(headers, rows)
    ensures |lines| == |rows| + 2
    ensures lines[0] == FormatRow(headers, Widths(headers, rows))
    ensures lines[1] == Divider(Widths(headers, rows))
    ensures forall k :: 0 <= k < |rows| ==> lines[k + 2] == FormatRow(rows[k], Widths(headers, rows))
    ensures |lines[0]| == |lines[1]|
    ensures forall k :: 0 <= k < |rows| && |rows[k]| == |headers| ==> |lines[k + 2]| == |lines[1]|
  {
    var widths := ColumnWidths(headers, rows);
    lines := [FormatRow(headers, widths), Divider(widths)];
    for k := 0 to |rows|
      invariant |lines| == k + 2
      invariant lines[0] == FormatRow(headers, widths) && lines[1] == Divider(widths)
      invariant forall j :: 0 <= j < k ==> lines[j + 2] == FormatRow(rows[j], widths)
    {
      lines := lines + [FormatRow(rows[k], widths)];
    }
    FullRowMatchesDivider(headers, rows, headers);
    forall k | 0 <= k < |rows| && |rows[k]| == |headers| ensures |lines[k + 2]| == |lines[1]| {
      FullRowMatchesDivider(headers, rows, rows[k]);
    }
  }
}

/** A player's grid: 10 rows of 10 integer cells, 0 for an empty square and
    1 for a square a ship occupies. This module holds the value view of a
    grid and the facts about runs of cells that placement relies on. */
module Board {

  const Size: nat := 10
  const Empty: int := 0
  const Occupied: int := 1

  /** The shape of every board the engine creates. */
  predicate IsBoard(board: array2<int>) {
    board.Length0 == Size && board.Length1 == Size
  }

  predicate IsGrid(cells: seq<seq<int>>) {
    |cells| == Size && forall r :: 0 <= r < Size ==> |cells[r]| == Size
  }

  /** The rows of `board` as a value. */
  ghost function Cells(board: array2<int>): (cells: seq<seq<int>>)
    reads board
    ensures |cells| == board.Length0
    ensures forall r :: 0 <= r < board.Length0 ==>
      |cells[r]| == board.Length1 && forall c :: 0 <= c < board.Length1 ==> cells[r][c] == board[r, c]
  {
    seq(board.Length0, r requires 0 <= r < board.Length0 reads board =>
      seq(board.Length1, c requires 0 <= c < board.Length1 reads board => board[r, c]))
  }

  /** A board whose every cell agrees with a grid has that grid as its value. */
  lemma CellsAre(board: array2<int>, cells: seq<seq<int>>)
    requires IsBoard(board) && IsGrid(cells)
    requires forall r, c :: 0 <= r < Size && 0 <= c < Size ==> board[r, c] == cells[r][c]
    ensures Cells(board) == cells
  {
    forall r | 0 <= r < Size ensures Cells(board)[r] == cells[r] {
    }
  }

  predicate AllEmpty(cells: seq<seq<int>>) {
    forall r, c :: 0 <= r < |cells| && 0 <= c < |cells[r]| ==> cells[r][c] == Empty
  }

  /** Every cell is either empty or occupied. */
  predicate Binary(cells: seq<seq<int>>) {
    forall r, c :: 0 <= r < |cells| && 0 <= c < |cells[r]| ==> cells[r][c] == Empty || cells[r][c] == Occupied
  }

  /** `length` cells of row `row`, from column `column` rightwards. */
  datatype Run = Run(row: nat, column: nat, length: nat)

  /** The horizontal fit test: the run stays inside its row and every cell of
      it is empty. */
  predicate RowFits(cells: seq<seq<int>>, run: Run)
    requires IsGrid(cells) && run.row < Size
  {
    run.column + run.length <= Size
    && forall j :: run.column <= j < run.column + run.length ==> cells[run.row][j] == Empty
  }

  /** The fit test read directly off a board. */
  lemma RowFitsOnBoard(board: array2<int>, run: Run)
    requires IsBoard(board) && run.row < Size
    ensures RowFits(Cells(board), run) <==>
      run.column + run.length <= Size
      && forall j :: run.column <= j < run.column + run.length ==> board[run.row, j] == Empty
  {
    var cells := Cells(board);
    if run.column + run.length <= Size {
      forall j | run.column <= j < run.column + run.length
        ensures cells[run.row][j] == board[run.row, j]
      {
      }
    }
  }

  /** Every cell of the run is occupied. */
  predicate RunOccupied(cells: seq<seq<int>>, run: Run)
    requires IsGrid(cells) && run.row < Size && run.column + run.length <= Size
  {
    forall j :: run.column <= j < run.column + run.length ==> cells[run.row][j] == Occupied
  }

  /** The two runs share no cell. */
  predicate Disjoint(a: Run, b: Run) {
    a.length == 0 || b.length == 0 || a.row != b.row
    || a.column + a.length <= b.column || b.column + b.length <= a.column
  }

  /** A run whose cells are all occupied shares no cell with a run that fits. */
  lemma OccupiedRunMissesFittingRun(cells: seq<seq<int>>, occupied: Run, free: Run)
    requires IsGrid(cells) && occupied.row < Size && occupied.column + occupied.length <= Size
    requires RunOccupied(cells, occupied)
    requires free.row < Size && RowFits(cells, free)
    ensures Disjoint(occupied, free)
  {
    var shared := if occupied.column < free.column then free.column else occupied.column;
    if shared < Size {
      var cell := cells[free.row][shared];
    }
  }

  function MarkRow(line: seq<int>, column: nat, length: nat): seq<int> {
    seq(|line|, j requires 0 <= j < |line| => if column <= j < column + length then Occupied else line[j])
  }

  /** The grid after the cells of `run` are set to occupied. */
  function Mark(cells: seq<seq<int>>, run: Run): seq<seq<int>>
    requires IsGrid(cells) && run.row < Size
  {
    cells[run.row := MarkRow(cells[run.row], run.column, run.length)]
  }

  /** Marking a run changes exactly the run's cells, to occupied. */
  lemma MarkChangesOnlyTheRun(cells: seq<seq<int>>, run: Run)
    requires IsGrid(cells) && run.row < Size
    ensures IsGrid(Mark(cells, run))
    ensures forall r, c :: 0 <= r < Size && 0 <= c < Size ==>
      Mark(cells, run)[r][c] == if r == run.row && run.column <= c < run.column + run.length then Occupied else cells[r][c]
  {
  }

  /** Number of occupied cells in one row. */
  function CountRow(line: seq<int>): nat {
    if line == [] then 0
    else CountRow(line[..|line| - 1]) + (if line[|line| - 1] == Occupied then 1 else 0)
  }

  /** Number of occupied cells in a grid. */
  function CountGrid(cells: seq<seq<int>>): nat {
    if cells == [] then 0 else CountGrid(cells[..|cells| - 1]) + CountRow(cells[|cells| - 1])
  }

  lemma {:induction false} CountRowEmpty(line: seq<int>)
    requires forall c :: 0 <= c < |line| ==> line[c] == Empty
    ensures CountRow(line) == 0
  {
    if line != [] {
      CountRowEmpty(line[..|line| - 1]);
    }
  }

  /** An empty grid has no occupied cell. */
  lemma {:induction false} CountGridEmpty(cells: seq<seq<int>>)
    requires AllEmpty(cells)
    ensures CountGrid(cells) == 0
  {
    if cells != [] {
      var last := cells[|cells| - 1];
      forall c | 0 <= c < |last| ensures last[c] == Empty {
        assert cells[|cells| - 1][c] == Empty;
      }
      CountRowEmpty(last);
      CountGridEmpty(cells[..|cells| - 1]);
    }
  }

  /** Marking `length` empty cells of a row adds exactly `length` occupied cells. */
  lemma {:induction false} CountRowMarked(line: seq<int>, column: nat, length: nat)
    requires column + length <= |line|
    requires forall j :: column <= j < column + length ==> line[j] == Empty
    ensures CountRow(MarkRow(line, column, length)) == CountRow(line) + length
  {
    var marked := MarkRow(line, column, length);
    if length == 0 {
      assert marked == line;
    } else {
      var n := |line| - 1;
      var shorter := if column + length <= n then length else length - 1;
      assert marked[..n] == MarkRow(line[..n], column, shorter);
      CountRowMarked(line[..n], column, shorter);
    }
  }

  /** Replacing one row changes the grid's count by the difference of the rows' counts. */
  lemma {:induction false} CountGridUpdate(cells: seq<seq<int>>, r: nat, line: seq<int>)
    requires r < |cells|
    ensures CountGrid(cells[r := line]) + CountRow(cells[r]) == CountGrid(cells) + CountRow(line)
  {
    var n := |cells| - 1;
    if r == n {
      assert cells[r := line][..n] == cells[..n];
    } else {
      assert cells[r := line][..n] == cells[..n][r := line];
      CountGridUpdate(cells[..n], r, line);
    }
  }

  /** Placing a run that fits turns exactly `length` empty cells into
      occupied ones. */
  lemma MarkAddsOccupied(cells: seq<seq<int>>, run: Run)
    requires IsGrid(cells) && run.row < Size && RowFits(cells, run)
    ensures CountGrid(Mark(cells, run)) == CountGrid(cells) + run.length
  {
    CountRowMarked(cells[run.row], run.column, run.length);
    CountGridUpdate(cells, run.row, MarkRow(cells[run.row], run.column, run.length));
  }

  /** After a run is placed, a run of the same row that shares a cell with it
      no longer fits. */
  lemma MarkedRunBlocksOverlap(cells: seq<seq<int>>, placed: Run, next: Run)
    requires IsGrid(cells) && placed.row < Size && next.row == placed.row
    requires !Disjoint(placed, next)
    ensures !RowFits(Mark(cells, placed), next)
  {
    var shared := if placed.column < next.column then next.column else placed.column;
    if next.column + next.length <= Size {
      assert Mark(cells, placed)[next.row][shared] == Occupied;
    }
  }
}

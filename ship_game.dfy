/** The game engine of ShipGame.py: two boards, two ship lists, the turn and
    the game state, and horizontal ship placement for the first player. */
module Game {
  import opened Coordinates
  import opened Board

  datatype Option<T> = None | Some(value: T)

  /** The health-only ship record that the engine creates on placement. */
  class Ship {
    const player: string
    /** The coordinate the ship was placed from, as given. */
    const head: string
    const allCoordinates: seq<string>
    const length: int
    var health: int
    /** Number of `TakeDamage` calls so far. */
    ghost var damageTaken: nat

    /** Health starts at the length and each hit lowers it by one. */
    ghost predicate Valid()
      reads this
    {
      health == length - damageTaken
    }

    constructor (player: string, head: string, allCoordinates: seq<string>, length: int)
      ensures Valid()
      ensures this.player == player && this.head == head
      ensures this.allCoordinates == allCoordinates && this.length == length
      ensures health == length && damageTaken == 0
    {
      this.player := player;
      this.head := head;
      this.allCoordinates := allCoordinates;
      this.length := length;
      health := length;
      damageTaken := 0;
    }

    method GetPlayer() returns (owner: string)
      ensures owner == player
    {
      owner := player;
    }

    method GetHealth() returns (current: int)
      ensures current == health
    {
      current := health;
    }

    /** Lowers the health by one; there is no lower bound. */
    method TakeDamage()
      requires Valid()
      modifies this`health, this`damageTaken
      ensures Valid()
      ensures health == old(health) - 1 && damageTaken == old(damageTaken) + 1
    {
      health := health - 1;
      damageTaken := damageTaken + 1;
    }

    method GetAllCoordinates() returns (coordinates: seq<string>)
      ensures coordinates == allCoordinates
    {
      coordinates := allCoordinates;
    }
  }

  /** The run a horizontal placement of `length` cells from `coordinates` covers. */
  function HeadRun(coordinates: string, length: nat): Run
    requires IsRowHead(coordinates)
  {
    Run(RowIndex(coordinates[0]), HeadColumn(coordinates), length)
  }

  /** The cells a placed ship was recorded from: the run of its length from
      its head. */
  function ShipRun(s: Ship): Run
    requires IsRowHead(s.head) && s.length >= 0
  {
    HeadRun(s.head, s.length)
  }

  /** A first-player ship as placement records it: it stands inside its row,
      its coordinate names are those of its run, and its cells are occupied. */
  ghost predicate PlacedOn(s: Ship, cells: seq<seq<int>>)
    requires IsGrid(cells)
  {
    s.player == "first" && IsRowHead(s.head) && s.length >= 0
    && HeadColumn(s.head) + s.length <= Size
    && s.allCoordinates == RunNames(s.head[0], HeadColumn(s.head), s.length)
    && RunOccupied(cells, ShipRun(s))
  }

  /** Sum of the lengths of the ships. */
  function TotalLength(ships: seq<Ship>): int {
    if ships == [] then 0 else TotalLength(ships[..|ships| - 1]) + ships[|ships| - 1].length
  }

  /** The ships lie on the grid, no two share a cell, and the occupied cells
      number exactly the ships' total length: every occupied cell belongs
      to exactly one ship. */
  ghost predicate ShipsOnBoard(ships: seq<Ship>, cells: seq<seq<int>>)
    requires IsGrid(cells)
  {
    (forall i :: 0 <= i < |ships| ==> PlacedOn(ships[i], cells))
    && (forall i, j :: 0 <= i < j < |ships| ==>
          PlacedOn(ships[i], cells) && PlacedOn(ships[j], cells)
          && Disjoint(ShipRun(ships[i]), ShipRun(ships[j])))
    && CountGrid(cells) == TotalLength(ships)
  }

  /** Placing a fitting run and appending its ship keeps the ships on the board. */
  lemma PlacementKeepsShipsOnBoard(ships: seq<Ship>, cells: seq<seq<int>>, s: Ship)
    requires IsGrid(cells) && ShipsOnBoard(ships, cells)
    requires s.player == "first" && IsRowHead(s.head) && s.length >= 0
    requires s.allCoordinates == RunNames(s.head[0], HeadColumn(s.head), s.length)
    requires RowFits(cells, ShipRun(s))
    ensures IsGrid(Mark(cells, ShipRun(s)))
    ensures ShipsOnBoard(ships + [s], Mark(cells, ShipRun(s)))
  {
    var run := ShipRun(s);
    var after := Mark(cells, run);
    var all := ships + [s];
    MarkChangesOnlyTheRun(cells, run);
    forall i | 0 <= i < |all| ensures PlacedOn(all[i], after) {
      if i < |ships| {
        assert PlacedOn(ships[i], cells);
      }
    }
    forall i, j | 0 <= i < j < |all|
      ensures Disjoint(ShipRun(all[i]), ShipRun(all[j]))
    {
      if j == |ships| {
        assert PlacedOn(ships[i], cells);
        OccupiedRunMissesFittingRun(cells, ShipRun(ships[i]), run);
      } else {
        assert Disjoint(ShipRun(ships[i]), ShipRun(ships[j]));
      }
    }
    assert all[..|all| - 1] == ships;
    MarkAddsOccupied(cells, run);
  }

  /** The engine: both players' boards and ship lists, whose turn it is, and
      the game state. */
  class ShipGame {
    const firstBoard: array2<int>
    var firstShips: seq<Ship>
    const secondBoard: array2<int>
    var secondShips: seq<Ship>
    var currentState: Option<string>
    var turn: string
    var winner: Option<string>

    /** What every operation keeps: the first board holds exactly the first
        player's ships; the second board and ship list are never written;
        the state and winner are never set; the turn is "first" or "second". */
    ghost predicate Valid()
      reads this, firstBoard, secondBoard
    {
      IsBoard(firstBoard) && IsBoard(secondBoard) && firstBoard != secondBoard
      && Binary(Cells(firstBoard)) && ShipsOnBoard(firstShips, Cells(firstBoard))
      && AllEmpty(Cells(secondBoard)) && secondShips == []
      && (turn == "first" || turn == "second")
      && currentState == None && winner == None
    }

    constructor ()
      ensures Valid() && fresh(firstBoard) && fresh(secondBoard)
      ensures AllEmpty(Cells(firstBoard)) && AllEmpty(Cells(secondBoard))
      ensures firstShips == [] && secondShips == []
      ensures turn == "first" && currentState == None && winner == None
    {
      firstShips := [];
      secondShips := [];
      currentState := None;
      turn := "first";
      winner := None;
      var first := CreateBoard();
      var second := CreateBoard();
      firstBoard := first;
      secondBoard := second;
      new;
      CountGridEmpty(Cells(firstBoard));
    }

    /** A new 10 x 10 board, every cell empty, filled row by row. */
    static method CreateBoard() returns (board: array2<int>)
      ensures fresh(board) && IsBoard(board) && AllEmpty(Cells(board))
    {
      board := new int[Size, Size];
      for index := 0 to Size
        invariant forall r, c :: 0 <= r < index && 0 <= c < Size ==> board[r, c] == Empty
      {
        for column := 0 to Size
          invariant forall r, c :: 0 <= r < index && 0 <= c < Size ==> board[r, c] == Empty
          invariant forall c :: 0 <= c < column ==> board[index, c] == Empty
        {
          board[index, column] := Empty;
        }
      }
    }

    /** Sets the turn to "second", whatever it was: both branches of the
        turn test do the same. The argument is ignored. */
    method SwitchTurn(playerNumber: string)
      requires Valid()
      modifies this`turn
      ensures Valid() && turn == "second"
    {
      if turn == "first" {
        turn := "second";
      } else {
        turn := "second";
      }
    }

    /** Places a ship for `player`. Only the first player with orientation
        "R" can succeed; for "second" the fit is checked and discarded, and
        any other player is refused. Nothing is written unless the whole run
        fits, and the ship length is not checked against a minimum. */
    method PlaceShip(player: string, shipLength: nat, coordinates: string, orientation: string)
      returns (placed: bool)
      requires Valid()
      requires player == "first" || player == "second" ==> Readable(coordinates, orientation)
      modifies this`firstShips, firstBoard
      ensures Valid()
      ensures placed <==> player == "first" && orientation == "R"
                          && RowFits(old(Cells(firstBoard)), HeadRun(coordinates, shipLength))
      ensures placed ==>
        Cells(firstBoard) == Mark(old(Cells(firstBoard)), HeadRun(coordinates, shipLength))
        && |firstShips| == |old(firstShips)| + 1 && firstShips[..|old(firstShips)|] == old(firstShips)
        && var ship := firstShips[|old(firstShips)|];
           fresh(ship) && ship.player == "first" && ship.head == coordinates
           && ship.allCoordinates == RunNames(coordinates[0], HeadColumn(coordinates), shipLength)
           && ship.length == shipLength && ship.health == shipLength && ship.Valid()
      ensures !placed ==> Cells(firstBoard) == old(Cells(firstBoard)) && firstShips == old(firstShips)
    {
      if player == "first" {
        var fits := CheckShipFits(firstBoard, shipLength, coordinates, orientation);
        if fits {
          ghost var before := Cells(firstBoard);
          var shipCords := PlaceHorizontal(firstBoard, shipLength, coordinates);
          var ship := new Ship("first", coordinates, shipCords, shipLength);
          PlacementKeepsShipsOnBoard(firstShips, before, ship);
          firstShips := firstShips + [ship];
          return true;
        }
      } else if player == "second" {
        var discarded := CheckShipFits(secondBoard, shipLength, coordinates, orientation);
      }
      return false;
    }

    /** Writes the run into the board and returns the names of its squares,
        left to right. The run must stay inside the row: past the row's end
        the write fails. */
    static method PlaceHorizontal(board: array2<int>, shipLength: nat, coordinates: string)
      returns (shipCords: seq<string>)
      requires IsBoard(board) && IsRowHead(coordinates)
      requires HeadColumn(coordinates) + shipLength <= Size
      modifies board
      ensures forall r, c :: 0 <= r < Size && 0 <= c < Size ==>
        board[r, c] == if r == RowIndex(coordinates[0]) && HeadColumn(coordinates) <= c < HeadColumn(coordinates) + shipLength
                       then Occupied else old(board[r, c])
      ensures Cells(board) == Mark(old(Cells(board)), HeadRun(coordinates, shipLength))
      ensures shipCords == RunNames(coordinates[0], HeadColumn(coordinates), shipLength)
    {
      ghost var before := Cells(board);
      var row := coordinates[0];
      var column := HeadColumn(coordinates);
      var boardRow := RowIndex(row);
      shipCords := [];
      var startingIndex := column;
      for i := 0 to shipLength
        invariant startingIndex == column + i
        invariant shipCords == RunNames(row, column, i)
        invariant forall r, c :: 0 <= r < Size && 0 <= c < Size ==>
          board[r, c] == if r == boardRow && column <= c < startingIndex then Occupied else old(board[r, c])
      {
        board[boardRow, startingIndex] := Occupied;
        startingIndex := startingIndex + 1;
        assert RunNames(row, column, i + 1) == RunNames(row, column, i) + [SquareName(row, column + i)];
        shipCords := shipCords + [[row] + NatToString(startingIndex)];
      }
      MarkChangesOnlyTheRun(before, HeadRun(coordinates, shipLength));
      CellsAre(board, Mark(before, HeadRun(coordinates, shipLength)));
    }

    /** True exactly when the orientation is "R" and the run fits its row;
        the column check is a stub whose result is always falsy. */
    static method CheckShipFits(board: array2<int>, shipLength: nat, coordinates: string, orientation: string)
      returns (fits: bool)
      requires IsBoard(board) && Readable(coordinates, orientation)
      ensures fits <==> orientation == "R" && RowFits(Cells(board), HeadRun(coordinates, shipLength))
    {
      fits := false;
      if orientation == "C" {
        // The column check has no body yet and returns None.
      } else if orientation == "R" {
        fits := CheckRow(board, shipLength, coordinates);
      }
    }

    /** Scans the run with two counters and a flag: the longest stretch of
        empty cells seen and whether every cell seen was empty. */
    static method CheckRow(board: array2<int>, shipLength: nat, coordinates: string) returns (fits: bool)
      requires IsBoard(board) && IsRowHead(coordinates)
      ensures fits <==> RowFits(Cells(board), HeadRun(coordinates, shipLength))
    {
      var row := coordinates[0];
      var column := HeadColumn(coordinates);
      var boardRow := RowIndex(row);
      var validPlacement := true;
      var totalAvailableSpace := 0;
      var currentAvailableSpace := 0;
      RowFitsOnBoard(board, HeadRun(coordinates, shipLength));
      var searchableLength := Size - column;
      if searchableLength < shipLength {
        return false;
      }
      for k := 0 to shipLength
        invariant 0 <= currentAvailableSpace <= totalAvailableSpace <= k
        invariant validPlacement <==> forall j :: column <= j < column + k ==> board[boardRow, j] == Empty
        invariant validPlacement ==> currentAvailableSpace == totalAvailableSpace == k
        invariant !validPlacement ==> currentAvailableSpace < k && totalAvailableSpace < k
      {
        var cell := board[boardRow, column + k];
        if cell == Empty {
          currentAvailableSpace := currentAvailableSpace + 1;
          totalAvailableSpace := if totalAvailableSpace < currentAvailableSpace then currentAvailableSpace else totalAvailableSpace;
        }
        if cell != Empty {
          currentAvailableSpace := 0;
          validPlacement := false;
        }
      }
      // The longest empty stretch reaches the ship's length exactly when
      // every scanned cell was empty.
      assert totalAvailableSpace >= shipLength <==> validPlacement;
      fits := totalAvailableSpace >= shipLength && validPlacement;
    }

    method GetCurrentState() returns (state: Option<string>)
      ensures state == currentState
    {
      state := currentState;
    }
  }

  /** What the placement check needs to read the coordinate: the digit
      always, and for orientation "R" also the row letter and a non-zero digit. */
  predicate Readable(coordinates: string, orientation: string) {
    HasDigit(coordinates) && (orientation == "R" ==> IsRowHead(coordinates))
  }

  /** The script at the end of ShipGame.py: a length-5 ship at "A3" is
      placed, a second one at "A6" overlaps it and is refused, and the first
      ship records the squares A3 to A7. */
  method PlacementScenario() returns (first: bool, second: bool, coordinates: seq<string>)
    ensures first && !second
    ensures coordinates == ["A3", "A4", "A5", "A6", "A7"]
  {
    var game := new ShipGame();
    ghost var empty := Cells(game.firstBoard);
    assert HeadRun("A3", 5) == Run(0, 2, 5) && HeadRun("A6", 5) == Run(0, 5, 5);
    first := game.PlaceShip("first", 5, "A3", "R");
    MarkedRunBlocksOverlap(empty, Run(0, 2, 5), Run(0, 5, 5));
    second := game.PlaceShip("first", 5, "A6", "R");
    coordinates := game.firstShips[0].allCoordinates;
    assert RunNames('A', 2, 5) == [SquareName('A', 2), SquareName('A', 3), SquareName('A', 4), SquareName('A', 5), SquareName('A', 6)];
    assert NatToString(3) == "3" && NatToString(4) == "4" && NatToString(5) == "5";
    assert NatToString(6) == "6" && NatToString(7) == "7";
    assert SquareName('A', 2) == "A3" && SquareName('A', 3) == "A4" && SquareName('A', 4) == "A5";
    assert SquareName('A', 5) == "A6" && SquareName('A', 6) == "A7";
  }

  /** Lengths below two are not refused: a length-1 and a length-0 ship are
      both placed. A placement for "second", or with orientation "C", is
      refused. */
  method ShortShipScenario() returns (single: bool, empty: bool, second: bool, column: bool)
    ensures single && empty && !second && !column
  {
    var game := new ShipGame();
    assert HeadRun("B2", 1) == Run(1, 1, 1);
    single := game.PlaceShip("first", 1, "B2", "R");
    empty := game.PlaceShip("first", 0, "C5", "R");
    second := game.PlaceShip("second", 3, "D4", "R");
    column := game.PlaceShip("first", 3, "E1", "C");
  }
}

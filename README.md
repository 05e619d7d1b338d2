# Battleship board and ship placement, modelled in Dafny

This project models the part of the BattleShip repository (a two-player naval
combat game in Python) that the code actually implements:

- **Board construction.** `ShipGame.__init__` builds two 10 x 10 boards of
  integer cells, all 0 (empty). It also sets up two empty ship lists, the turn
  `"first"`, and a current state and winner of `None`.
- **Horizontal placement for the first player.** `place_ship` validates a run
  of cells with `check_ship_fits` / `check_row` before writing anything.
  `place_horizontal` then writes 1 into the run and returns the squares' names
  ("A3", "A4", ...). The engine appends a `Ship` to the first player's list.
- **The two ship records.** The health-only `Ship` class in ShipGame.py, and
  the richer `Ship` class in Ship.py, which also keeps a list of damaged squares.

Files:

- `coordinates.dfy` (module `Coordinates`): square names. This covers the row
  letters, the `letters.index` lookup, the one-digit column read
  (`int(coordinates[1]) - 1`), and `str`/`int` on decimal numbers.
- `board.dfy` (module `Board`): the value view of a board (`Cells`) and runs of
  cells. It defines the fit test (`RowFits`), marking a run (`Mark`) and
  counting occupied cells.
- `ship_game.dfy` (module `Game`): the classes `Ship` and `ShipGame` of
  ShipGame.py.
  - The boards are `array2<int>` fields, which `PlaceHorizontal` updates in
    place.
  - `ShipGame.Valid()` is the invariant every operation keeps:
    - Every first-player ship lies on its run, and every cell of that run is
      occupied.
    - No two ships share a cell.
    - The number of occupied cells equals the ships' total length.
    - The second board and the second ship list are never written.
    - The state and the winner stay `None`.
- `ship.dfy` (module `Ships`): the `Ship` class of Ship.py.

Where the code and its own documentation differ, the model follows the code.

- **Ship length is not checked.** The documentation of `place_ship` and
  `check_ship_fits` says a length below 2 is refused. Nothing checks it, so
  lengths 1 and 0 are placed (`Game.ShortShipScenario`).
- **`switch_turn` does not alternate.** It sets `"second"` in both branches,
  although its documentation says it passes the turn to the other player.
- **Only one column digit is read.** The head's column is
  `int(coordinates[1]) - 1`, so "A10" names column 0. Also, the name recorded
  for a square in the tenth column ("A10") reads back as the first column
  (`Coordinates.TenthColumnReadsAsFirst`).
- **`check_ship_fits` never returns `False`.** It returns `True` or `None`
  (falling off the end), and `check_column` always returns `None`. The model
  returns a `bool`, with `None` read as false, because the only caller tests
  the result for truth.
- **Ship length is an integer.** Ship.py:11 documents `length` as a `str`,
  but the code needs a number: health starts as the length and
  `take_damage` subtracts 1 from it (Ship.py:17, Ship.py:30), and
  `get_health` is documented to return an integer (Ship.py:25). The model
  gives `length` and `health` the type `int`.

Preconditions stand where the source would raise:

- The coordinate must have a second character that is a digit (`int()`).
- For orientation `"R"`, the first character must be a row letter A-J
  (`letters.index`), and the digit must be 1-9. A digit `'0'` gives column -1
  and Python's negative indexing.
- The ship length is a `nat`.
- `PlaceHorizontal` requires the run to stay inside the row, because past the
  row's end the write raises.

## Model

| member | source | states |
|---|---|---|
| `Coordinates.IndexOf` | ShipGame.py:118 | `list.index`: the returned position holds the element and no earlier position does |
| `Coordinates.RowIndex` | ShipGame.py:117-118 | a row letter maps to a row below 10 that holds that letter in the letters list |
| `Coordinates.RowIndexIsLettersIndex` | ShipGame.py:175-176 | the row letters are exactly the members of the letters list, and a letter's row is the position `letters.index` returns |
| `Coordinates.HeadColumn` | ShipGame.py:173 | the column of a row head (one digit 1-9, minus 1) lies in 0..8 |
| `Coordinates.NatToString` | ShipGame.py:125 | `str(n)` is a non-empty string of decimal digits |
| `Coordinates.ParseNatToString` | ShipGame.py:116-125 | `int` reads back what `str` wrote: the round trip is the identity on naturals |
| `Coordinates.RunNamesNameTheRun` | ShipGame.py:120-126 | the recorded names number `ship_length`; each is the row letter followed by the 1-based column `column + i + 1`; they are pairwise distinct |
| `Coordinates.SquareNameReadsBack` | ShipGame.py:115-125 | for the first nine columns, a recorded name parsed as a head gives back the same row and column |
| `Coordinates.TenthColumnReadsAsFirst` | ShipGame.py:116-125 | the name recorded for the tenth column is the letter then "10", and it parses as column 0 |
| `Board.MarkChangesOnlyTheRun` | ShipGame.py:121-124 | marking a run sets exactly the run's cells to 1 and leaves every other cell as it was |
| `Board.OccupiedRunMissesFittingRun` | ShipGame.py:183-196 | a run whose cells are all 1 shares no cell with a run that passes the fit test |
| `Board.CountGridEmpty` | ShipGame.py:53-58 | a board of zeros has no occupied cell |
| `Board.CountRowMarked` | ShipGame.py:122-124 | writing 1 into `n` empty cells of a row adds exactly `n` occupied cells |
| `Board.MarkAddsOccupied` | ShipGame.py:96-104 | placing a run that fits turns exactly `ship_length` previously empty cells into occupied ones |
| `Board.MarkedRunBlocksOverlap` | ShipGame.py:187-196 | after a run is placed, any run of the same row that shares a cell with it fails the fit test |
| `Game.Ship.constructor` | ShipGame.py:8-19 | stores player, head, coordinates and length as given; health starts equal to the length |
| `Game.Ship.GetPlayer` | ShipGame.py:21-23 | returns the stored owner |
| `Game.Ship.GetHealth` | ShipGame.py:25-27 | returns the current health |
| `Game.Ship.TakeDamage` | ShipGame.py:29-31 | health drops by exactly 1, with no lower bound; health stays the length less the number of `take_damage` calls |
| `Game.Ship.GetAllCoordinates` | ShipGame.py:33-34 | returns the stored coordinate names |
| `Game.PlacementKeepsShipsOnBoard` | ShipGame.py:96-106 | appending a ship whose run fits keeps every ship on its occupied run, keeps ships pairwise disjoint, and keeps the occupied-cell count equal to the total ship length |
| `Game.ShipGame.constructor` | ShipGame.py:39-51 | both boards are 10 x 10 and all zero, both ship lists are empty, the turn is "first", and state and winner are None |
| `Game.ShipGame.CreateBoard` | ShipGame.py:53-58 | a fresh 10 x 10 board with every cell 0 |
| `Game.ShipGame.SwitchTurn` | ShipGame.py:71-81 | the turn is "second" afterwards whatever it was before; nothing else changes |
| `Game.ShipGame.PlaceShip` | ShipGame.py:83-111 | succeeds iff the player is "first", the orientation is "R" and the run fits. On success the board is the old board with the run marked, and one fresh ship is appended with the run's names and health equal to its length, satisfying the ship invariant. Otherwise neither board nor list changes. The second player's board and list are never written |
| `Game.ShipGame.PlaceHorizontal` | ShipGame.py:113-126 | sets exactly the cells of the run to 1, leaves every other cell unchanged, and returns the run's names left to right |
| `Game.ShipGame.CheckShipFits` | ShipGame.py:128-147 | true iff the orientation is "R" and the run fits its row; orientation "C" (stub) and any other orientation give false |
| `Game.ShipGame.CheckRow` | ShipGame.py:162-198 | true iff `column + ship_length <= 10` and every cell of the run is 0; the longest empty stretch reaches `ship_length` exactly when every scanned cell is 0; the board is only read |
| `Game.ShipGame.GetCurrentState` | ShipGame.py:202-204 | returns the stored state without changing anything |
| `Game.PlacementScenario` | ShipGame.py:248-252 | "A3" length 5 is placed; "A6" length 5 then overlaps and is refused; the first ship records A3 to A7 |
| `Game.ShortShipScenario` | ShipGame.py:93-111 | lengths 1 and 0 are placed; a placement for "second", or with orientation "C", is refused |
| `Ships.Ship.constructor` | Ship.py:3-18 | stores player, head, coordinates and length as given; health equals the length; the damaged list is empty |
| `Ships.Ship.GetPlayer` | Ship.py:20-22 | returns the stored owner |
| `Ships.Ship.GetHealth` | Ship.py:24-26 | returns the current health |
| `Ships.Ship.TakeDamage` | Ship.py:28-30 | health drops by exactly 1, with no lower bound; the damaged list is unchanged |
| `Ships.Ship.GetAllCoordinates` | Ship.py:32-34 | returns the stored coordinate names |
| `Ships.Ship.GetDamagedSquares` | Ship.py:36-38 | returns the stored damaged list |
| `Ships.Ship.AddDamagedSquare` | Ship.py:40-47 | the damaged list becomes the old list plus the square, duplicates included; health is unchanged and the health invariant is kept |
| `Ships.DamageScenario` | Ship.py:28-47 | a repeated square is listed twice; health goes below zero; health is not the length less the number of damaged squares |

Player, head, coordinates and length are `const` fields in both ship
classes, so no method can change them after construction. Each mutating
method's `modifies` clause names the only fields it changes:

- `TakeDamage` changes only the health and its ghost hit counter.
- `AddDamagedSquare` changes only the damaged list.
- `SwitchTurn` changes only the turn.
- `PlaceShip` changes only the first ship list and the first board.

## Left out

- `display_board`: console printing. It also reads the module-level `game`
  object and prints the first board for both players.
- The module-level script that creates a game and prints results. Its
  placements appear as `Game.PlacementScenario`; the printing is left out.
- `check_column`, `fire_torpedo`, `get_nums_ships_remaining`: stubs whose body
  is `pass`. Where `check_ship_fits` calls `check_column`, the model uses that
  stub's `None` result.
- `hit_ship`, `sink_ship`: they have documentation but no body. Firing, hit
  resolution, sinking, win detection and turn alternation are therefore not
  modelled, because the code does not do them.
- Exceptions from malformed input: `letters.index` on a non-letter, `int()` on
  a non-digit, a coordinate shorter than two characters, and a write past the
  row's end in `place_horizontal`. These are preconditions.
- The column digit `'0'` and negative ship lengths: Python's negative indexing
  and slicing are not modelled. These are excluded by preconditions.
- `Game.ShipGame.CreateBoard`: `create_board` appends ten rows to the list it
  is given. The model returns a newly allocated 10 x 10 array filled with
  zeros. The two agree because both callers pass an empty list.
- `Game.ShipGame.CheckShipFits`: returns `bool`, where the source returns
  `True` or `None`.
- Aliasing of returned lists: the getters return the stored Python list
  itself, which a caller could then mutate. The model returns sequence values.
- The type of the current state and the winner: the code only ever assigns
  `None`, so they are modelled as an optional string.

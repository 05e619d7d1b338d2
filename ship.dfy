/** The ship record of Ship.py: an owner, a head square, the ship's squares
    and length, a health counter and a list of damaged squares. */
module Ships {

  class Ship {
    const player: string
    const head: string
    const allCoordinates: seq<string>
    const length: int
    var health: int
    var damagedSquares: seq<string>
    /** Number of `TakeDamage` calls so far. */
    ghost var damageTaken: nat

    /** Health is the length less one for every `TakeDamage` call. The
        damaged-squares list plays no part: the class never links the two. */
    ghost predicate Valid()
      reads this
    {
      health == length - damageTaken
    }

    constructor (player: string, head: string, allCoordinates: seq<string>, length: int)
      ensures Valid()
      ensures this.player == player && this.head == head
      ensures this.allCoordinates == allCoordinates && this.length == length
      ensures health == length && damagedSquares == [] && damageTaken == 0
    {
      this.player := player;
      this.head := head;
      this.allCoordinates := allCoordinates;
      this.length := length;
      health := length;
      damagedSquares := [];
      damageTaken := 0;
    }

    method GetPlayer() returns (owner: string)
      ensures owner == player
    {
      owner := player;
    }

    method GetHealth() returns (current: int)
      ensures current == health
    {
      current := health;
    }

    /** Lowers the health by one, with no lower bound; the damaged squares
        stay as they are. */
    method TakeDamage()
      requires Valid()
      modifies this`health, this`damageTaken
      ensures Valid()
      ensures health == old(health) - 1 && damageTaken == old(damageTaken) + 1
    {
      health := health - 1;
      damageTaken := damageTaken + 1;
    }

    method GetAllCoordinates() returns (coordinates: seq<string>)
      ensures coordinates == allCoordinates
    {
      coordinates := allCoordinates;
    }

    method GetDamagedSquares() returns (squares: seq<string>)
      ensures squares == damagedSquares
    {
      squares := damagedSquares;
    }

    /** Appends the square, even when it is already listed; the health stays
        as it is. */
    method AddDamagedSquare(square: string)
      requires Valid()
      modifies this`damagedSquares
      ensures Valid()
      ensures damagedSquares == old(damagedSquares) + [square]
    {
      damagedSquares := damagedSquares + [square];
    }
  }

  /** A length-2 ship whose square "B2" is recorded twice and whose health is
      lowered three times: the damaged list keeps the repeat, the health goes
      below zero, and it is not the length less the number of damaged squares. */
  method DamageScenario() returns (health: int, damaged: seq<string>)
    ensures health == -1 && damaged == ["B2", "B2"]
    ensures health != 2 - |damaged|
  {
    var ship := new Ship("first", "B2", ["B2", "B3"], 2);
    ship.AddDamagedSquare("B2");
    ship.AddDamagedSquare("B2");
    ship.TakeDamage();
    ship.TakeDamage();
    ship.TakeDamage();
    health := ship.GetHealth();
    damaged := ship.GetDamagedSquares();
  }
}

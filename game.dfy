/**
 * The game-flow controller: spike and portal tests that latch the lost and won
 * flags, the frame step that runs only while neither flag is set, and the Enter
 * key that restarts the current level or moves to the next one.
 */
module GameFlow {
  import opened Geometry
  import opened Levels
  import opened Physics
  import opened PlayerObject

  /** Strict overlap of the player's box with a spike. */
  predicate HitsSpike(b: Body, s: Rect) {
    b.x < s.x + s.width && b.x + Width > s.x &&
    b.y < s.y + s.height && b.y + Height > s.y
  }

  predicate TouchesSpike(b: Body, spikes: seq<Rect>) {
    exists i :: 0 <= i < |spikes| && HitsSpike(b, spikes[i])
  }

  /** Inclusive overlap of the player's box with the 30-by-30 portal. */
  predicate ReachesPortal(b: Body, portal: Point) {
    b.x + Width >= portal.x && b.x <= portal.x + PortalSize &&
    b.y + Height >= portal.y && b.y <= portal.y + PortalSize
  }

  /** The level index after a win: one on, back to the first after the last. */
  function NextLevel(current: nat, count: nat): (r: nat)
    requires current < count
    ensures r < count
    ensures r == (current + 1) % count
    ensures r == 0 <==> current == count - 1
  {
    if current + 1 >= count then 0 else current + 1
  }

  /** The start position touches no spike and no portal on any level. */
  lemma StartIsSafe(i: nat)
    requires i < |Table|
    ensures !TouchesSpike(Start, Table[i].spikes)
    ensures !ReachesPortal(Start, Table[i].portal)
  {
  }

  class Game {
    const player: Player
    var currentLevel: nat
    var gameWon: bool
    var gameLost: bool

    ghost predicate Valid()
      reads this
    {
      currentLevel < |Table|
    }

    /** Builds the player at its start and runs the first frame with no key held. */
    constructor ()
      ensures Valid() && fresh(player)
      ensures currentLevel == 0 && !gameWon && !gameLost
      ensures player.State() == Start
    {
      player := new Player();
      currentLevel := 0;
      gameWon := false;
      gameLost := false;
      new;
      StartIsAtRest(0);
      StartIsSafe(0);
      var _ := GameLoop(NoKeys);
    }

    /** Spikes latch `gameLost`, the portal latches `gameWon`; neither flag is ever cleared here. */
    method CheckCollisions()
      requires Valid()
      modifies this
      ensures Valid() && currentLevel == old(currentLevel)
      ensures gameLost == (old(gameLost) || TouchesSpike(player.State(), Table[currentLevel].spikes))
      ensures gameWon == (old(gameWon) || ReachesPortal(player.State(), Table[currentLevel].portal))
    {
      var level := Table[currentLevel];
      var spikes := level.spikes;
      var i := 0;
      while i < |spikes|
        invariant 0 <= i <= |spikes|
        invariant currentLevel == old(currentLevel) && gameWon == old(gameWon)
        invariant gameLost == (old(gameLost) || exists j :: 0 <= j < i && HitsSpike(player.State(), spikes[j]))
      {
        var s := spikes[i];
        if player.x < s.x + s.width &&
           player.x + Width > s.x &&
           player.y < s.y + s.height &&
           player.y + Height > s.y {
          gameLost := true;
        }
        i := i + 1;
      }

      var portal := level.portal;
      if player.x + Width >= portal.x &&
         player.x <= portal.x + PortalSize &&
         player.y + Height >= portal.y &&
         player.y <= portal.y + PortalSize {
        gameWon := true;
      }
    }

    /**
     * One frame: the player moves and is tested for spikes and portal only while
     * the game is neither won nor lost. `next` says whether another frame is
     * requested, which stops as soon as a flag is set.
     */
    method GameLoop(keys: Keys) returns (next: bool)
      requires Valid()
      modifies this, player
      ensures Valid() && currentLevel == old(currentLevel)
      ensures old(gameWon || gameLost) ==>
        player.State() == old(player.State()) && gameWon == old(gameWon) && gameLost == old(gameLost)
      ensures !old(gameWon || gameLost) ==>
        player.State() == Step(old(player.State()), keys, Table[currentLevel].platforms).body &&
        gameLost == TouchesSpike(player.State(), Table[currentLevel].spikes) &&
        gameWon == ReachesPortal(player.State(), Table[currentLevel].portal)
      ensures next <==> !gameWon && !gameLost
    {
      var level := Table[currentLevel];
      if !gameWon && !gameLost {
        TableGrounds();
        var ok := player.Update(keys, level.platforms);
        assert ok;  // every shipped level has a ground platform, so `find` never fails
        CheckCollisions();
      }
      next := !gameWon && !gameLost;
    }

    /**
     * The keydown listener. Only Enter after a win or a loss does anything: a win
     * moves to the next level, and either way the player is reset, both flags are
     * cleared and a frame is requested (`restart`).
     */
    method OnKeyDown(key: string) returns (restart: bool)
      requires Valid()
      modifies this, player
      ensures Valid()
      ensures restart <==> (old(gameWon) || old(gameLost)) && key == "Enter"
      ensures !restart ==>
        player.State() == old(player.State()) && currentLevel == old(currentLevel) &&
        gameWon == old(gameWon) && gameLost == old(gameLost)
      ensures restart ==> player.State() == Start && !gameWon && !gameLost
      ensures restart ==>
        currentLevel == if old(gameWon) then NextLevel(old(currentLevel), |Table|) else old(currentLevel)
    {
      restart := (gameWon || gameLost) && key == "Enter";
      if restart {
        if gameWon {
          currentLevel := currentLevel + 1;
          if currentLevel >= |Table| {
            currentLevel := 0;
          }
        }
        player.Reset();
        gameWon := false;
        gameLost := false;
      }
    }
  }
}

/**
 * The mutable game of script.js: the Fish object's `state` and `stateTimer`,
 * `bobber.state` and the globals `gameState`, `message` and `messageTimer`,
 * gathered in one object whose methods update them in place as the source
 * does.  Each method is proved to move the object from one World to the
 * World that the matching function of FishingState computes.
 */
module FishingGame {
  import S = FishingState
  import P = FishingProperties

  class Game {
    var fishState: S.FishState
    var stateTimer: nat
    var bobberState: S.BobberState
    var gameState: S.GameState
    var message: string
    var messageTimer: int

    /** The value of all the fields together. */
    function Snapshot(): (w: S.World)
      reads this
    {
      S.World(fishState, stateTimer, bobberState, gameState, message, messageTimer)
    }

    /** The invariant that holds between any two events. */
    ghost predicate Valid()
      reads this
    {
      S.Inv(Snapshot())
    }

    /** The initial globals and `new Fish()` from the first resize(). */
    constructor ()
      ensures Snapshot() == S.Initial()
      ensures Valid()
    {
      bobberState := S.Floating;
      gameState := S.Playing;
      message := "";
      messageTimer := 0;
      fishState := S.Idle;
      stateTimer := 0;
    }

    /** Fish.reset, its state and timer part. */
    method Reset()
      modifies this
      ensures Snapshot() == S.Reset(old(Snapshot()))
    {
      fishState := S.Idle;
      stateTimer := 0;
    }

    /** Fish.flee. */
    method Flee()
      modifies this
      ensures Snapshot() == S.Flee(old(Snapshot()))
    {
      fishState := S.Fleeing;
      stateTimer := 0;
      bobberState := S.Floating;
    }

    /** Fish.update, its state-machine part; `o` carries the random draws and the distance test. */
    method Update(o: S.Rolls)
      modifies this
      ensures Snapshot() == S.FishUpdate(old(Snapshot()), o)
    {
      stateTimer := stateTimer + 1;
      match fishState
      case Idle =>
        if stateTimer > S.ApproachDwell && o.approach {
          fishState := S.Approaching;
          stateTimer := 0;
        }
      case Approaching =>
        if !o.far {
          if o.nibble {
            fishState := if o.nibbleChoice then S.Nibbling else S.Approaching;
          }
          if stateTimer > S.BiteDwell && o.bite {
            fishState := S.Biting;
            stateTimer := 0;
            bobberState := S.Submerged;
          }
        }
      case Nibbling =>
        if stateTimer > S.NibbleLength {
          fishState := S.Approaching;
          stateTimer := 0;
        }
      case Biting =>
        if stateTimer > S.BiteWindow {
          Flee();
          gameState := S.Missed;
          message := S.TooSlow;
          messageTimer := S.MessageFrames;
          bobberState := S.Floating;
        }
      case Fleeing =>
        if stateTimer > S.FleeLength {
          if gameState == S.Missed {
            gameState := S.Playing;
            Reset();
          }
        }
    }

    /** The keydown listener; `code` is the event's e.code. */
    method OnKeyDown(code: string)
      requires Valid()
      modifies this
      ensures Snapshot() == S.KeyDown(old(Snapshot()), code)
      ensures Valid()
    {
      P.KeyKeepsInv(Snapshot(), code);
      if code == "Space" {
        if gameState == S.Playing {
          if fishState == S.Biting {
            gameState := S.Caught;
            message := S.CaughtText;
            messageTimer := S.MessageFrames;
            bobberState := S.Floating;
          } else {
            Flee();
            gameState := S.Missed;
            message := S.TooEarly;
            messageTimer := S.MessageFrames;
          }
        }
      }
    }

    /** drawUI, its countdown part. */
    method DrawUI()
      modifies this
      ensures Snapshot() == S.DrawUI(old(Snapshot()))
    {
      if messageTimer > 0 {
        messageTimer := messageTimer - 1;
        if messageTimer == 0 && gameState == S.Caught {
          gameState := S.Playing;
          Reset();
        }
      }
    }

    /** One call of loop, without the drawing. */
    method Loop(o: S.Rolls)
      requires Valid()
      modifies this
      ensures Snapshot() == S.Frame(old(Snapshot()), o)
      ensures Valid()
    {
      P.FrameKeepsInv(Snapshot(), o);
      if gameState == S.Playing || gameState == S.Missed {
        Update(o);
      }
      DrawUI();
    }
  }
}

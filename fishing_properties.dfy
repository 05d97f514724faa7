/**
 * Properties of the game flow of script.js, stated over the functions of
 * FishingState: the timer discipline of Fish.update, the conditions of each
 * transition, the outcomes of a Space press, the message countdown, the
 * invariants every event preserves, and how long the bite, catch and miss
 * phases last.
 */
module FishingProperties {
  import opened FishingState

  // ---------------------------------------------------------------------
  // Fish.update, one call at a time
  // ---------------------------------------------------------------------

  /**
   * Every update first increments the timer.  The timer then ends at zero
   * exactly when the state changed, except for the move into NIBBLING,
   * which keeps the incremented value.
   */
  lemma UpdateTimer(w: World, o: Rolls)
    ensures var r := FishUpdate(w, o);
      r.stateTimer == (if r.fish == w.fish || (w.fish == Approaching && r.fish == Nibbling)
                       then w.stateTimer + 1 else 0)
  {
  }

  /** IDLE moves to APPROACHING exactly when the incremented timer exceeds 200 and the draw succeeds. */
  lemma IdleApproach(w: World, o: Rolls)
    requires w.fish == Idle
    ensures var r := FishUpdate(w, o);
      && (r.fish == Approaching <==> w.stateTimer + 1 > ApproachDwell && o.approach)
      && (r.fish == Approaching || r.fish == Idle)
      && r.game == w.game && r.bobber == w.bobber && r.messageTimer == w.messageTimer
  {
  }

  /**
   * BITING is entered only from APPROACHING, only within 60 units, only when
   * the incremented timer exceeds 100 and the bite draw succeeds; and it is
   * then always entered, with a zero timer and the bobber submerged.
   */
  lemma BiteEntry(w: World, o: Rolls)
    requires w.fish != Biting
    ensures var r := FishUpdate(w, o);
      r.fish == Biting <==>
        w.fish == Approaching && !o.far && w.stateTimer + 1 > BiteDwell && o.bite
    ensures var r := FishUpdate(w, o);
      r.fish == Biting ==> r.stateTimer == 0 && r.bobber == Submerged && r.game == w.game
  {
  }

  /**
   * Within range, the nibble decision alone moves APPROACHING to NIBBLING
   * without resetting the timer; when the bite also fires in the same tick,
   * BITING wins.
   */
  lemma NibbleOrBite(w: World, o: Rolls)
    requires w.fish == Approaching && !o.far && o.nibble && o.nibbleChoice
    ensures var r := FishUpdate(w, o);
      if w.stateTimer + 1 > BiteDwell && o.bite then r.fish == Biting && r.stateTimer == 0
      else r.fish == Nibbling && r.stateTimer == w.stateTimer + 1 && r.bobber == w.bobber
  {
  }

  /** A close APPROACHING fish that does not bite stays close by: APPROACHING or NIBBLING. */
  lemma ApproachStays(w: World, o: Rolls)
    requires w.fish == Approaching
    requires !(w.stateTimer + 1 > BiteDwell && o.bite && !o.far)
    ensures var r := FishUpdate(w, o);
      && (r.fish == Approaching || r.fish == Nibbling)
      && (r.fish == Nibbling <==> !o.far && o.nibble && o.nibbleChoice)
      && r.stateTimer == w.stateTimer + 1
  {
  }

  /**
   * Because entering NIBBLING keeps the timer, a fish that starts to nibble
   * after 29 or more updates of APPROACHING is NIBBLING for a single update:
   * the next one returns it to APPROACHING, and the timer values 1 and 10 at
   * which the dart in and out would happen are never seen in NIBBLING.
   */
  lemma LateNibble(w: World, o1: Rolls, o2: Rolls)
    requires w.fish == Approaching && w.stateTimer + 1 >= NibbleLength
    requires !o1.far && o1.nibble && o1.nibbleChoice && !(w.stateTimer + 1 > BiteDwell && o1.bite)
    ensures var r1 := FishUpdate(w, o1);
      && r1.fish == Nibbling && r1.stateTimer > 10
      && FishUpdate(r1, o2) == r1.(fish := Approaching, stateTimer := 0)
  {
  }

  /** NIBBLING lasts until the incremented timer exceeds 30, then it is APPROACHING with timer 0. */
  lemma NibbleEnds(w: World, o: Rolls)
    requires w.fish == Nibbling
    ensures var r := FishUpdate(w, o);
      if w.stateTimer + 1 > NibbleLength then r.fish == Approaching && r.stateTimer == 0
      else r.fish == Nibbling && r.stateTimer == w.stateTimer + 1
  {
  }

  /**
   * FLEEING is left only when the incremented timer exceeds 120 while the
   * round is missed; the fish is then reset and play resumes.
   */
  lemma FleeingExit(w: World, o: Rolls)
    requires w.fish == Fleeing
    ensures var r := FishUpdate(w, o);
      r.fish != Fleeing <==> w.stateTimer + 1 > FleeLength && w.game == Missed
    ensures var r := FishUpdate(w, o);
      r.fish != Fleeing ==> r.fish == Idle && r.stateTimer == 0 && r.game == Playing
    ensures var r := FishUpdate(w, o);
      r.fish == Fleeing ==> r.stateTimer == w.stateTimer + 1 && r.game == w.game
  {
  }

  // ---------------------------------------------------------------------
  // Key presses
  // ---------------------------------------------------------------------

  /**
   * Space while playing: a BITING fish is caught and stays BITING; any other
   * fish flees and the round is missed.  Both arm a 120-frame message.
   */
  lemma SpaceWhilePlaying(w: World)
    requires w.game == Playing
    ensures var r := KeyDown(w, "Space");
      && r.messageTimer == MessageFrames
      && (w.fish == Biting ==>
            r.game == Caught && r.fish == Biting && r.stateTimer == w.stateTimer
            && r.bobber == Floating && r.message == CaughtText)
      && (w.fish != Biting ==>
            r.game == Missed && r.fish == Fleeing && r.stateTimer == 0
            && r.bobber == Floating && r.message == TooEarly)
  {
  }

  /** Space while caught or missed, and any other key at any time, change nothing. */
  lemma KeyIgnored(w: World, code: string)
    requires code != "Space" || w.game != Playing
    ensures KeyDown(w, code) == w
  {
  }

  // ---------------------------------------------------------------------
  // drawUI and the frame gating of loop
  // ---------------------------------------------------------------------

  /**
   * drawUI lowers a positive message timer by one and leaves a zero one
   * alone; reaching zero while caught resumes play with a reset fish.
   */
  lemma Countdown(w: World)
    requires w.messageTimer >= 0
    ensures var r := DrawUI(w);
      && r.messageTimer >= 0
      && r.messageTimer == (if w.messageTimer > 0 then w.messageTimer - 1 else 0)
      && (w.messageTimer == 1 && w.game == Caught ==>
            r.game == Playing && r.fish == Idle && r.stateTimer == 0)
      && (!(w.messageTimer == 1 && w.game == Caught) ==>
            r.game == w.game && r.fish == w.fish && r.stateTimer == w.stateTimer)
  {
  }

  /** While caught, fish.update is not called: a frame does not move the fish unless play resumes. */
  lemma CaughtFreezesFish(w: World, o: Rolls)
    requires Inv(w) && w.game == Caught
    ensures var r := Frame(w, o);
      if w.messageTimer == 1 then r.game == Playing && r.fish == Idle && r.stateTimer == 0
      else (r.game == Caught && r.fish == w.fish && r.stateTimer == w.stateTimer
            && r.messageTimer == w.messageTimer - 1)
  {
  }

  /** Between events a shown message counts down by exactly one per frame. */
  lemma MessageTicks(w: World, o: Rolls)
    requires Inv(w) && w.messageTimer > 0
    ensures Frame(w, o).messageTimer == w.messageTimer - 1
  {
  }

  // ---------------------------------------------------------------------
  // Invariants
  // ---------------------------------------------------------------------

  lemma InitialInv()
    ensures Inv(Initial())
  {
  }

  /** Every frame keeps the invariant. */
  lemma FrameKeepsInv(w: World, o: Rolls)
    requires Inv(w)
    ensures Inv(Frame(w, o))
  {
  }

  /** Every key press keeps the invariant. */
  lemma KeyKeepsInv(w: World, code: string)
    requires Inv(w)
    ensures Inv(KeyDown(w, code))
  {
  }

  /** Any sequence of frames and key presses keeps the invariant. */
  lemma {:induction false} RunKeepsInv(w: World, es: seq<Event>)
    requires Inv(w)
    ensures Inv(Run(w, es))
    decreases |es|
  {
    if es != [] {
      var prefix := es[..|es| - 1];
      RunKeepsInv(w, prefix);
      match es[|es| - 1]
      case Tick(o) => FrameKeepsInv(Run(w, prefix), o);
      case Key(c) => KeyKeepsInv(Run(w, prefix), c);
    }
  }

  /**
   * In every state the game can reach: a submerged bobber means a BITING
   * fish; a missed round means a FLEEING fish; a caught round means a
   * BITING fish and a floating bobber; the message timer is never negative.
   */
  lemma Reachable(es: seq<Event>)
    ensures var w := Run(Initial(), es);
      && (w.bobber == Submerged ==> w.fish == Biting)
      && (w.game == Missed ==> w.fish == Fleeing)
      && (w.game == Caught ==> w.fish == Biting && w.bobber == Floating)
      && w.messageTimer >= 0
  {
    InitialInv();
    RunKeepsInv(Initial(), es);
  }

  // ---------------------------------------------------------------------
  // Phases over several frames
  // ---------------------------------------------------------------------

  lemma {:induction false} BitingFrames(w: World, os: seq<Rolls>)
    requires Inv(w) && w.fish == Biting && w.game == Playing
    requires |os| <= BiteWindow - w.stateTimer
    ensures Frames(w, os) == w.(stateTimer := w.stateTimer + |os|)
    decreases |os|
  {
    if os != [] {
      BitingFrames(w, os[..|os| - 1]);
    }
  }

  /**
   * With no key press a BITING fish leaves on the 31st update after entry:
   * after 31 - stateTimer frames it is FLEEING with timer 0, the round is
   * missed with "Too slow!", the bobber floats, and the message timer is the
   * 120 that update sets less the one frame of drawUI.  Until then it is
   * still BITING and only the timer moves.
   */
  lemma {:induction false} BiteTimeout(w: World, os: seq<Rolls>)
    requires Inv(w) && w.fish == Biting && w.game == Playing
    requires |os| == BiteWindow + 1 - w.stateTimer
    ensures forall k :: 0 <= k < |os| ==> Frames(w, os[..k]) == w.(stateTimer := w.stateTimer + k)
    ensures FishUpdate(Frames(w, os[..|os| - 1]), os[|os| - 1]) ==
      w.(fish := Fleeing, stateTimer := 0, game := Missed, message := TooSlow,
         messageTimer := MessageFrames, bobber := Floating)
    ensures Frames(w, os) ==
      w.(fish := Fleeing, stateTimer := 0, game := Missed, message := TooSlow,
         messageTimer := MessageFrames - 1, bobber := Floating)
  {
    forall k | 0 <= k < |os|
      ensures Frames(w, os[..k]) == w.(stateTimer := w.stateTimer + k)
    {
      BitingFrames(w, os[..k]);
    }
    BitingFrames(w, os[..|os| - 1]);
  }

  lemma {:induction false} CaughtFrames(w: World, os: seq<Rolls>)
    requires Inv(w) && w.game == Caught
    requires |os| < w.messageTimer
    ensures Frames(w, os) == w.(messageTimer := w.messageTimer - |os|)
    decreases |os|
  {
    if os != [] {
      CaughtFrames(w, os[..|os| - 1]);
    }
  }

  /**
   * A caught fish stays BITING, frozen, for as many frames as the message
   * lasts; on the frame the message runs out play resumes with a fresh fish.
   */
  lemma {:induction false} CatchPhase(w: World, os: seq<Rolls>)
    requires Inv(w) && w.game == Caught
    requires |os| == w.messageTimer
    ensures forall k :: 0 <= k < |os| ==>
      Frames(w, os[..k]) == w.(messageTimer := w.messageTimer - k)
    ensures Frames(w, os) == w.(fish := Idle, stateTimer := 0, game := Playing, messageTimer := 0)
  {
    forall k | 0 <= k < |os|
      ensures Frames(w, os[..k]) == w.(messageTimer := w.messageTimer - k)
    {
      CaughtFrames(w, os[..k]);
    }
    CaughtFrames(w, os[..|os| - 1]);
  }

  lemma {:induction false} MissedFrames(w: World, os: seq<Rolls>)
    requires Inv(w) && w.game == Missed
    requires |os| <= FleeLength - w.stateTimer
    ensures Frames(w, os) == w.(stateTimer := w.stateTimer + |os|,
      messageTimer := if w.messageTimer > |os| then w.messageTimer - |os| else 0)
    decreases |os|
  {
    if os != [] {
      MissedFrames(w, os[..|os| - 1]);
    }
  }

  /**
   * A missed round lasts until the fleeing fish has made 121 updates: it
   * stays FLEEING, missed, for 121 - stateTimer frames; on the last of those
   * frames play resumes with a fresh fish, by which time the message has run
   * out.
   */
  lemma {:induction false} MissPhase(w: World, os: seq<Rolls>)
    requires Inv(w) && w.game == Missed
    requires |os| == FleeLength + 1 - w.stateTimer
    ensures forall k :: 0 <= k < |os| ==>
      Frames(w, os[..k]).game == Missed && Frames(w, os[..k]).fish == Fleeing
      && Frames(w, os[..k]).stateTimer == w.stateTimer + k
    ensures Frames(w, os) == w.(fish := Idle, stateTimer := 0, game := Playing, messageTimer := 0)
  {
    forall k | 0 <= k < |os|
      ensures Frames(w, os[..k]).game == Missed && Frames(w, os[..k]).fish == Fleeing
        && Frames(w, os[..k]).stateTimer == w.stateTimer + k
    {
      MissedFrames(w, os[..k]);
    }
    MissedFrames(w, os[..|os| - 1]);
  }
}

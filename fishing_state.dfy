/**
 * The discrete state of the fishing game and one pure function per operation
 * of script.js that changes it.  Every real-valued quantity (positions,
 * velocities, headings, the tail phase, the water and ripple visuals) is
 * abstracted away; every Math.random() gate that decides a change of the
 * discrete state, and the distance test to the bobber, become the booleans
 * of a Rolls value.
 */
module FishingState {

  /** Fish.state: the five behaviours of the fish. */
  datatype FishState = Idle | Approaching | Nibbling | Biting | Fleeing

  /** The global gameState. */
  datatype GameState = Playing | Caught | Missed

  /** bobber.state. */
  datatype BobberState = Floating | Submerged

  /** The feedback texts that are stored in the global `message`. */
  const TooSlow: string := "Too slow!"
  const TooEarly: string := "Too early!"
  const CaughtText: string := "Caught!"

  /** Dwell thresholds and durations, all counted in calls of Fish.update. */
  const ApproachDwell: nat := 200
  const BiteDwell: nat := 100
  const NibbleLength: nat := 30
  const BiteWindow: nat := 30
  const FleeLength: nat := 120
  /** Frames for which a feedback message is shown. */
  const MessageFrames: int := 120

  /**
   * The outcome of every Math.random() gate that decides a change of the
   * discrete state, and of the distance test, in one call of Fish.update:
   *   approach     - Math.random() < 0.005, IDLE decides to approach;
   *   far          - the fish is more than 60 units from the bobber;
   *   nibble       - Math.random() < 0.02, the close fish reconsiders;
   *   nibbleChoice - Math.random() < 0.7, it then nibbles (else hovers);
   *   bite         - Math.random() < 0.01, the close fish bites.
   */
  datatype Rolls = Rolls(approach: bool, far: bool, nibble: bool, nibbleChoice: bool, bite: bool)

  /** Everything the game flow reads and writes, fish and globals together. */
  datatype World = World(
    fish: FishState,
    stateTimer: nat,
    bobber: BobberState,
    game: GameState,
    message: string,
    messageTimer: int)

  /** The state right after start-up: a fresh fish, a floating bobber, playing. */
  function Initial(): (w: World)
    ensures w.fish == Idle && w.stateTimer == 0 && w.game == Playing
    ensures w.bobber == Floating && w.messageTimer == 0
  {
    World(Idle, 0, Floating, Playing, "", 0)
  }

  /** Fish.reset, as far as the discrete state goes: back to IDLE with a zero timer. */
  function Reset(w: World): (r: World)
    ensures r.fish == Idle && r.stateTimer == 0
    ensures r.bobber == w.bobber && r.game == w.game
    ensures r.message == w.message && r.messageTimer == w.messageTimer
  {
    w.(fish := Idle, stateTimer := 0)
  }

  /** Fish.flee: FLEEING with a zero timer and the bobber floating. */
  function Flee(w: World): (r: World)
    ensures r.fish == Fleeing && r.stateTimer == 0 && r.bobber == Floating
    ensures r.game == w.game && r.message == w.message && r.messageTimer == w.messageTimer
  {
    w.(fish := Fleeing, stateTimer := 0, bobber := Floating)
  }

  /**
   * The state machine of Fish.update.  The timer is incremented first; each
   * case then reads the incremented value.
   */
  function FishUpdate(w: World, o: Rolls): (r: World)
    ensures r.stateTimer == 0 || r.stateTimer == w.stateTimer + 1
  {
    var t := w.stateTimer + 1;
    var w1 := w.(stateTimer := t);
    match w.fish
    case Idle =>
      if t > ApproachDwell && o.approach then w1.(fish := Approaching, stateTimer := 0)
      else w1
    case Approaching =>
      if o.far then w1
      else
        // the nibble decision changes the state but not the timer
        var w2 := if o.nibble then w1.(fish := if o.nibbleChoice then Nibbling else Approaching) else w1;
        // the bite check runs in the same tick, whatever the nibble decision was
        if t > BiteDwell && o.bite then w2.(fish := Biting, stateTimer := 0, bobber := Submerged)
        else w2
    case Nibbling =>
      if t > NibbleLength then w1.(fish := Approaching, stateTimer := 0)
      else w1
    case Biting =>
      if t > BiteWindow then
        Flee(w1).(game := Missed, message := TooSlow, messageTimer := MessageFrames, bobber := Floating)
      else w1
    case Fleeing =>
      if t > FleeLength && w.game == Missed then Reset(w1.(game := Playing))
      else w1
  }

  /** The keydown handler; `code` is the event's e.code. */
  function KeyDown(w: World, code: string): (r: World)
    ensures r.stateTimer == w.stateTimer || r.stateTimer == 0
  {
    if code == "Space" && w.game == Playing then
      if w.fish == Biting then
        w.(game := Caught, message := CaughtText, messageTimer := MessageFrames, bobber := Floating)
      else
        Flee(w).(game := Missed, message := TooEarly, messageTimer := MessageFrames)
    else
      w
  }

  /** The state-changing half of drawUI: the message countdown. */
  function DrawUI(w: World): (r: World)
    ensures w.messageTimer >= 0 ==> r.messageTimer >= 0
  {
    if w.messageTimer > 0 then
      var w1 := w.(messageTimer := w.messageTimer - 1);
      if w1.messageTimer == 0 && w1.game == Caught then Reset(w1.(game := Playing))
      else w1
    else
      w
  }

  /** Whether loop calls fish.update in the current frame. */
  predicate FishActive(w: World) {
    w.game == Playing || w.game == Missed
  }

  /** One call of loop: the gated fish update, then drawUI. */
  function Frame(w: World, o: Rolls): (r: World)
  {
    DrawUI(if FishActive(w) then FishUpdate(w, o) else w)
  }

  /** The inputs the game reacts to: a frame with its random draws, or a key press. */
  datatype Event = Tick(rolls: Rolls) | Key(code: string)

  function Step(w: World, e: Event): World
  {
    match e
    case Tick(o) => Frame(w, o)
    case Key(c) => KeyDown(w, c)
  }

  /** The state after a sequence of events, oldest first. */
  function Run(w: World, es: seq<Event>): World
    decreases |es|
  {
    if es == [] then w else Step(Run(w, es[..|es| - 1]), es[|es| - 1])
  }

  /** The state after a sequence of frames with no key press, oldest first. */
  function Frames(w: World, os: seq<Rolls>): World
    decreases |os|
  {
    if os == [] then w else Frame(Frames(w, os[..|os| - 1]), os[|os| - 1])
  }

  /**
   * What holds between any two events: the cross-variable invariants the
   * code keeps without stating them.
   */
  predicate Inv(w: World) {
    && 0 <= w.messageTimer <= MessageFrames
    && (w.bobber == Submerged <==> w.fish == Biting && w.game == Playing)
    && (w.game == Missed <==> w.fish == Fleeing)
    && (w.game == Caught ==>
          w.fish == Biting && w.bobber == Floating && w.messageTimer > 0 && w.message == CaughtText)
    && (w.game == Missed ==>
          w.stateTimer + w.messageTimer <= FleeLength && (w.message == TooSlow || w.message == TooEarly))
    && (w.game == Playing ==> w.messageTimer == 0)
    && (w.fish == Biting && w.game == Playing ==> w.stateTimer <= BiteWindow)
  }
}

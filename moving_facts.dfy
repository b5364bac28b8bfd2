/**
 * What the movement aggregator's step keeps, one move at a time and over a
 * run of moves. A run is replayed from a starting record by folding `Moved`
 * over the observed moves in order.
 */
module MovingFacts {
  import opened PlayerData
  import opened MovingUtil

  /** The record after the moves `ms`, applied in order starting from `m`. */
  function Replay(m: Movement, ms: seq<Move>): Movement
    decreases |ms|
  {
    if ms == [] then m else Moved(Replay(m, ms[..|ms| - 1]), ms[|ms| - 1])
  }

  predicate IsGrounded(mv: Move) { mv.grounded }

  /** The move goes up: a positive vertical distance towards a higher `to`. */
  predicate Ascends(mv: Move) { mv.distance > 0.0 && mv.toY > mv.fromY }

  /** The move goes down: a positive vertical distance towards a lower `to`. */
  predicate Descends(mv: Move) { mv.distance > 0.0 && mv.toY < mv.fromY }

  /**
   * The length of the longest run of moves at the end of `ms` that satisfy
   * `p`: every move in that run does, and the move just before it does not.
   */
  function TrailingRun(ms: seq<Move>, p: Move -> bool): (r: nat)
    ensures r <= |ms|
    ensures forall i :: |ms| - r <= i < |ms| ==> p(ms[i])
    ensures r < |ms| ==> !p(ms[|ms| - 1 - r])
    decreases |ms|
  {
    if ms == [] then 0
    else if p(ms[|ms| - 1]) then TrailingRun(ms[..|ms| - 1], p) + 1
    else 0
  }

  /**
   * The consistency the aggregator keeps between a record's flags and its
   * counters: every counter is non-negative and positive exactly while its
   * flag is set, ice and off-ice time are not both running, the player is not
   * ascending and descending at once, and climbing is exactly "against a
   * climbable while moving vertically".
   */
  predicate Coherent(m: Movement) {
    && m.footing.onGroundTime >= 0 && m.footing.onIceTime >= 0 && m.footing.offIceTime >= 0
    && m.stance.sprintTime >= 0 && m.stance.sneakTime >= 0
    && m.motion.ascendingTime >= 0 && m.motion.descendingTime >= 0
    && (m.footing.onGroundTime > 0 <==> m.footing.onGround)
    && (m.footing.onIceTime > 0 <==> m.footing.onIce)
    && (m.footing.onIce ==> m.footing.offIceTime == 0)
    && (m.stance.sprintTime > 0 <==> m.stance.sprinting)
    && (m.stance.sneakTime > 0 <==> m.stance.sneaking)
    && !(m.motion.ascending && m.motion.descending)
    && (m.motion.ascendingTime > 0 <==> m.motion.ascending)
    && (m.motion.descendingTime > 0 <==> m.motion.descending)
    && (m.surroundings.climbing <==> m.surroundings.hasClimbable && (m.motion.ascending || m.motion.descending))
  }

  // ---- One move ----

  /** The ground flag is the sample at `to`; "was on ground" is set when airborne and otherwise only when the old record was on ground twice over. */
  lemma GroundFlagsAfterMove(m: Movement, mv: Move)
    ensures Moved(m, mv).footing.onGround == mv.grounded
    ensures Moved(m, mv).footing.wasOnGround == (!mv.grounded || (m.footing.onGround && m.footing.wasOnGround))
  {
  }

  /** Ground time grows by one on a grounded move and is reset otherwise; an airborne move leaves every ice field alone. */
  lemma GroundAndIceAfterMove(m: Movement, mv: Move)
    ensures mv.grounded ==> Moved(m, mv).footing.onGroundTime == m.footing.onGroundTime + 1
    ensures !mv.grounded ==> Moved(m, mv).footing.onGroundTime == 0
    ensures !mv.grounded ==>
      Moved(m, mv).footing.onIce == m.footing.onIce
      && Moved(m, mv).footing.onIceTime == m.footing.onIceTime
      && Moved(m, mv).footing.offIceTime == m.footing.offIceTime
    ensures mv.grounded && mv.toOnIce ==>
      Moved(m, mv).footing.onIce && Moved(m, mv).footing.onIceTime == m.footing.onIceTime + 1 && Moved(m, mv).footing.offIceTime == 0
    ensures mv.grounded && !mv.toOnIce ==>
      !Moved(m, mv).footing.onIce && Moved(m, mv).footing.onIceTime == 0
      && Moved(m, mv).footing.offIceTime == (if mv.fromOnIce then m.footing.offIceTime else m.footing.offIceTime + 1)
  {
  }

  /** Sprint and sneak time count on while their flag is set and drop to zero otherwise; the flags are never written. */
  lemma TimersAfterMove(m: Movement, mv: Move)
    ensures Moved(m, mv).stance.sprinting == m.stance.sprinting && Moved(m, mv).stance.sneaking == m.stance.sneaking
    ensures Moved(m, mv).stance.sprintTime == (if m.stance.sprinting then m.stance.sprintTime + 1 else 0)
    ensures Moved(m, mv).stance.sneakTime == (if m.stance.sneaking then m.stance.sneakTime + 1 else 0)
  {
  }

  /** The previous vertical distance moves to `lastVertical`; ascending and descending exclude each other, vanish on a level move and drive their timers. */
  lemma VerticalAfterMove(m: Movement, mv: Move)
    ensures Moved(m, mv).motion.lastVertical == m.motion.vertical && Moved(m, mv).motion.vertical == mv.distance
    ensures !(Moved(m, mv).motion.ascending && Moved(m, mv).motion.descending)
    ensures mv.toY == mv.fromY ==> !Moved(m, mv).motion.ascending && !Moved(m, mv).motion.descending
    ensures Moved(m, mv).motion.ascending <==> Ascends(mv)
    ensures Moved(m, mv).motion.descending <==> Descends(mv)
    ensures Moved(m, mv).motion.ascendingTime == (if Ascends(mv) then m.motion.ascendingTime + 1 else 0)
    ensures Moved(m, mv).motion.descendingTime == (if Descends(mv) then m.motion.descendingTime + 1 else 0)
  {
  }

  /** Climbing holds exactly when a climbable was sampled and the move went up or down. */
  lemma ClimbingAfterMove(m: Movement, mv: Move)
    ensures Moved(m, mv).surroundings.climbing <==> mv.climbable && (Ascends(mv) || Descends(mv))
    ensures Moved(m, mv).surroundings.hasClimbable == mv.climbable && Moved(m, mv).surroundings.inLiquid == mv.inLiquid
    ensures Moved(m, mv).surroundings.lastMovingUpdate == mv.time
  {
  }

  /** A fresh record is coherent. */
  lemma FreshIsCoherent()
    ensures Coherent(FRESH)
  {
  }

  /** One move keeps a coherent record coherent. */
  lemma MovedKeepsCoherent(m: Movement, mv: Move)
    requires Coherent(m)
    ensures Coherent(Moved(m, mv))
  {
  }

  // ---- Runs of moves ----

  /** Any run of moves keeps a coherent record coherent. */
  lemma {:induction false} ReplayKeepsCoherent(m: Movement, ms: seq<Move>)
    requires Coherent(m)
    ensures Coherent(Replay(m, ms))
    decreases |ms|
  {
    if ms != [] {
      ReplayKeepsCoherent(m, ms[..|ms| - 1]);
      MovedKeepsCoherent(Replay(m, ms[..|ms| - 1]), ms[|ms| - 1]);
    }
  }

  /**
   * Ground time counts the grounded moves at the end of the run, continuing
   * from the starting value only when every move of the run was grounded.
   */
  lemma {:induction false} GroundTimeIsGroundedRun(m: Movement, ms: seq<Move>)
    ensures Replay(m, ms).footing.onGroundTime ==
      if TrailingRun(ms, IsGrounded) == |ms| then m.footing.onGroundTime + |ms| else TrailingRun(ms, IsGrounded)
    decreases |ms|
  {
    if ms != [] {
      GroundTimeIsGroundedRun(m, ms[..|ms| - 1]);
      GroundAndIceAfterMove(Replay(m, ms[..|ms| - 1]), ms[|ms| - 1]);
    }
  }

  /** Ascending time counts the ascending moves at the end of the run. */
  lemma {:induction false} AscendingTimeIsAscendingRun(m: Movement, ms: seq<Move>)
    ensures Replay(m, ms).motion.ascendingTime ==
      if TrailingRun(ms, Ascends) == |ms| then m.motion.ascendingTime + |ms| else TrailingRun(ms, Ascends)
    decreases |ms|
  {
    if ms != [] {
      AscendingTimeIsAscendingRun(m, ms[..|ms| - 1]);
      VerticalAfterMove(Replay(m, ms[..|ms| - 1]), ms[|ms| - 1]);
    }
  }

  /** Descending time counts the descending moves at the end of the run. */
  lemma {:induction false} DescendingTimeIsDescendingRun(m: Movement, ms: seq<Move>)
    ensures Replay(m, ms).motion.descendingTime ==
      if TrailingRun(ms, Descends) == |ms| then m.motion.descendingTime + |ms| else TrailingRun(ms, Descends)
    decreases |ms|
  {
    if ms != [] {
      DescendingTimeIsDescendingRun(m, ms[..|ms| - 1]);
      VerticalAfterMove(Replay(m, ms[..|ms| - 1]), ms[|ms| - 1]);
    }
  }

  /** Moves never change the sprint flag, so sprint time grows by the length of the run or drops to zero. */
  lemma {:induction false} SprintTimeOverRun(m: Movement, ms: seq<Move>)
    requires ms != []
    ensures Replay(m, ms).stance.sprinting == m.stance.sprinting
    ensures Replay(m, ms).stance.sprintTime == if m.stance.sprinting then m.stance.sprintTime + |ms| else 0
    decreases |ms|
  {
    if |ms| > 1 {
      SprintTimeOverRun(m, ms[..|ms| - 1]);
    }
    TimersAfterMove(Replay(m, ms[..|ms| - 1]), ms[|ms| - 1]);
  }

  /**
   * The record is on ground with "was on ground" set exactly when it started
   * so and every move of the run was grounded.
   */
  lemma {:induction false} SettledIffAlwaysGrounded(m: Movement, ms: seq<Move>)
    ensures Replay(m, ms).footing.onGround && Replay(m, ms).footing.wasOnGround
        <==> m.footing.onGround && m.footing.wasOnGround && forall i :: 0 <= i < |ms| ==> ms[i].grounded
    decreases |ms|
  {
    if ms != [] {
      var init := ms[..|ms| - 1];
      SettledIffAlwaysGrounded(m, init);
      GroundFlagsAfterMove(Replay(m, init), ms[|ms| - 1]);
      assert forall i :: 0 <= i < |init| ==> init[i] == ms[i];
    }
  }

  /**
   * After at least one move, "was on ground" is set when the last move was
   * airborne, and otherwise only when the starting record was on ground twice
   * over and every earlier move of the run was grounded too.
   */
  lemma WasOnGroundAfterRun(m: Movement, ms: seq<Move>)
    requires ms != []
    ensures Replay(m, ms).footing.wasOnGround ==
      (!ms[|ms| - 1].grounded || (m.footing.onGround && m.footing.wasOnGround && forall i :: 0 <= i < |ms| - 1 ==> ms[i].grounded))
  {
  }

  /**
   * From a fresh record, "was on ground" is after every move exactly the
   * negation of the ground flag: it never stays set across an airborne move
   * sandwiched between grounded ones.
   */
  lemma WasOnGroundFromFresh(ms: seq<Move>)
    requires ms != []
    ensures Replay(FRESH, ms).footing.wasOnGround == !Replay(FRESH, ms).footing.onGround
  {
  }

  /** Grounded, airborne, grounded from a fresh record leaves "was on ground" cleared. */
  lemma NoDebounceAcrossOneAirborneMove(g1: Move, a: Move, g2: Move)
    requires g1.grounded && !a.grounded && g2.grounded
    ensures !Replay(FRESH, [g1, a, g2]).footing.wasOnGround
  {
  }
}

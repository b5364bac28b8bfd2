/**
 * Per-participant records the detectors read and write: movement state,
 * packet counters and combat timestamps. Each is an object whose fields the
 * listeners and checks update in place.
 */
module PlayerData {
  import opened Locations

  /** The ground section of the movement record: ground and ice flags and their timers. */
  datatype FootingState = FootingState(
    onGround: bool, wasOnGround: bool, onGroundTime: int,
    onIce: bool, onIceTime: int, offIceTime: int)

  /** The sprint and sneak flags (set elsewhere) and their timers. */
  datatype StanceState = StanceState(sprinting: bool, sneaking: bool, sprintTime: int, sneakTime: int)

  /** The vertical section: the last two vertical distances and the direction flags with their timers. */
  datatype MotionState = MotionState(
    vertical: real, lastVertical: real,
    ascending: bool, descending: bool, ascendingTime: int, descendingTime: int)

  /** The surroundings section: climbable, climbing, liquid and the time of the last update. */
  datatype SurroundingsState = SurroundingsState(
    hasClimbable: bool, climbing: bool, inLiquid: bool, lastMovingUpdate: int)

  /** A value snapshot of every movement field except the recorded ground location, section by section. */
  datatype Movement = Movement(
    footing: FootingState, stance: StanceState, motion: MotionState, surroundings: SurroundingsState)

  /** The state of a record that no move has touched yet: every flag false, every counter zero. */
  const FRESH := Movement(FootingState(false, false, 0, false, 0, 0),
                          StanceState(false, false, 0, 0),
                          MotionState(0.0, 0.0, false, false, 0, 0),
                          SurroundingsState(false, false, false, 0))

  /**
   * The movement record of one participant. Its fields are kept in four
   * section records, in the order the aggregator writes them, plus the
   * location recorded as the last ground.
   */
  class MovingData {
    var footing: FootingState
    var ground: Location?
    var stance: StanceState
    var motion: MotionState
    var surroundings: SurroundingsState

    function Snapshot(): Movement
      reads this
    {
      Movement(footing, stance, motion, surroundings)
    }

    constructor ()
      ensures Snapshot() == FRESH && ground == null
    {
      footing, ground := FRESH.footing, null;
      stance, motion, surroundings := FRESH.stance, FRESH.motion, FRESH.surroundings;
    }
  }

  /** Packet counters of one window plus the verdict of the last window. */
  class PacketData {
    var swingPacketCount: int
    var cancelSwingPackets: bool

    constructor ()
      ensures swingPacketCount == 0 && !cancelSwingPackets
    {
      swingPacketCount, cancelSwingPackets := 0, false;
    }
  }

  class CombatData {
    var lastSwingTime: int

    constructor ()
      ensures lastSwingTime == 0
    {
      lastSwingTime := 0;
    }
  }
}

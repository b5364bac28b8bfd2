/**
 * The environment sampler and the movement-state aggregator.
 *
 * The sampler answers "on solid ground / on ice / in liquid / against a
 * climbable" for a location by probing the block there and the four
 * horizontal diagonal corners around it. It does so by moving the given
 * `Location` in place and putting it back; the ice and liquid probes leave it
 * one block higher when their direct sample misses. Each sampling method is
 * proved against a pure predicate over coordinates and states where the
 * location is left.
 *
 * The aggregator folds one (from, to) move into a `MovingData` record. Its
 * effect is given by the pure step `Moved` over a snapshot of the record and
 * an observation `Move` of the world, and the lemmas below state what the step
 * keeps and what runs of steps add up to.
 */
module MovingUtil {
  import opened Locations
  import opened Materials
  import opened PlayerData

  /**
   * The host world: the block found at each coordinate. A coordinate the map
   * does not cover (an unloaded region) reads as air.
   */
  type World = imap<Vec, Block>

  const AIR := Block(Other("AIR"), false, false)

  function BlockAt(w: World, v: Vec): Block {
    if v in w then w[v] else AIR
  }

  /** The block predicates the sampler probes with. */
  datatype Kind = SolidKind | ClimbableKind | LiquidKind | IceKind

  predicate Matches(k: Kind, b: Block) {
    match k
    case SolidKind => IsSolid(b)
    case ClimbableKind => IsClimbable(b)
    case LiquidKind => IsLiquid(b)
    case IceKind => IsIce(b)
  }

  /** Corner `i` around `v`; the corners are probed in the order (+x,-z), (-x,+z), (-x,-z), (+x,+z). */
  function Corner(v: Vec, xm: real, ym: real, zm: real, i: nat): Vec
    requires i < 4
  {
    match i
    case 0 => v.Plus(xm, ym, -zm)
    case 1 => v.Plus(-xm, ym, zm)
    case 2 => v.Plus(-xm, ym, -zm)
    case _ => v.Plus(xm, ym, zm)
  }

  /** Index of the first corner from `i` on, in probing order, whose block satisfies `p`; 4 when none does. */
  function FirstCornerFrom(w: World, p: Kind, v: Vec, xm: real, ym: real, zm: real, i: nat): (k: nat)
    requires i <= 4
    ensures i <= k <= 4
    ensures k < 4 ==> Matches(p, BlockAt(w, Corner(v, xm, ym, zm, k)))
    decreases 4 - i
  {
    if i == 4 then 4
    else if Matches(p, BlockAt(w, Corner(v, xm, ym, zm, i))) then i
    else FirstCornerFrom(w, p, v, xm, ym, zm, i + 1)
  }

  function FirstCorner(w: World, p: Kind, v: Vec, xm: real, ym: real, zm: real): nat {
    FirstCornerFrom(w, p, v, xm, ym, zm, 0)
  }

  /** Some corner around `v` holds a block satisfying `p`. */
  predicate AroundHolds(w: World, p: Kind, v: Vec, xm: real, ym: real, zm: real) {
    FirstCorner(w, p, v, xm, ym, zm) < 4
  }

  /** The corner probing finds a hit exactly when some corner has one, and it reports the first. */
  lemma FirstCornerIsFirstHit(w: World, p: Kind, v: Vec, xm: real, ym: real, zm: real)
    ensures AroundHolds(w, p, v, xm, ym, zm) <==> exists i :: 0 <= i < 4 && Matches(p, BlockAt(w, Corner(v, xm, ym, zm, i)))
    ensures var k := FirstCorner(w, p, v, xm, ym, zm);
      k <= 4 && (k < 4 ==> Matches(p, BlockAt(w, Corner(v, xm, ym, zm, k)))) &&
      forall j :: 0 <= j < k ==> !Matches(p, BlockAt(w, Corner(v, xm, ym, zm, j)))
  {
  }

  /** Solid block half a block below, or a solid corner 0.3 out and 0.1 down. */
  predicate GroundedAt(w: World, v: Vec) {
    IsSolid(BlockAt(w, v.Plus(0.0, -0.5, 0.0))) || AroundHolds(w, SolidKind, v, 0.3, -0.1, 0.3)
  }

  /** Climbable block at `v`, or a climbable corner 0.1 out and 0.06 down. */
  predicate ClimbableAt(w: World, v: Vec) {
    IsClimbable(BlockAt(w, v)) || AroundHolds(w, ClimbableKind, v, 0.1, -0.06, 0.1)
  }

  /** Ice at `v` or below it, or an ice corner 0.1 out around the location one block up, 0.01 down. */
  predicate IceAt(w: World, v: Vec) {
    IsIce(BlockAt(w, v)) || IsIce(BlockAt(w, Below(v))) || AroundHolds(w, IceKind, Raised(v), 0.1, -0.01, 0.1)
  }

  /** Liquid at `v` or below it, or a liquid corner 0.3 out around the location one block up, 0.1 down. */
  predicate LiquidAt(w: World, v: Vec) {
    IsLiquid(BlockAt(w, v)) || IsLiquid(BlockAt(w, Below(v))) || AroundHolds(w, LiquidKind, Raised(v), 0.3, -0.1, 0.3)
  }

  /** Where the ice probe leaves a location: raised by one unless the direct sample hit. */
  function AfterIceProbe(w: World, v: Vec): Vec {
    if IsIce(BlockAt(w, v)) then v else Raised(v)
  }

  /** Where the liquid probe leaves a location: raised by one unless the direct sample hit. */
  function AfterLiquidProbe(w: World, v: Vec): Vec {
    if IsLiquid(BlockAt(w, v)) then v else Raised(v)
  }

  method Reset(loc: Location, ox: real, oy: real, oz: real)
    modifies loc
    ensures loc.Pos() == Vec(ox, oy, oz)
  {
    loc.SetX(ox);
    loc.SetY(oy);
    loc.SetZ(oz);
  }

  /** The block at the location shifted by the modifiers; the location is then reset to the originals. */
  method GetBlockFromModifier(loc: Location, w: World, xm: real, ym: real, zm: real, ox: real, oy: real, oz: real)
    returns (b: Block, ghost at: Vec)
    modifies loc
    ensures at == old(loc.Pos()).Plus(xm, ym, zm) && b == BlockAt(w, at)
    ensures loc.Pos() == Vec(ox, oy, oz)
  {
    loc.Add(xm, ym, zm);
    b := BlockAt(w, loc.Pos());
    at := loc.Pos();
    Reset(loc, ox, oy, oz);
  }

  /**
   * Probes the corners (+x,-z), (-x,+z), (-x,-z), (+x,+z) in that order and
   * stops at the first hit; `probes` lists the positions read, in order.
   */
  method CheckBlocksAround(loc: Location, w: World, xm: real, ym: real, zm: real, p: Kind)
    returns (r: bool, ghost probes: seq<Vec>)
    modifies loc
    ensures loc.Pos() == old(loc.Pos())
    ensures r <==> AroundHolds(w, p, old(loc.Pos()), xm, ym, zm)
    ensures |probes| == if r then FirstCorner(w, p, old(loc.Pos()), xm, ym, zm) + 1 else 4
    ensures forall j :: 0 <= j < |probes| ==> probes[j] == Corner(old(loc.Pos()), xm, ym, zm, j)
  {
    var ox, oy, oz := loc.x, loc.y, loc.z;
    ghost var at;
    var b;
    b, at := GetBlockFromModifier(loc, w, xm, ym, -zm, ox, oy, oz);
    probes := [at];
    if Matches(p, b) {
      return true, probes;
    }
    b, at := GetBlockFromModifier(loc, w, -xm, ym, zm, ox, oy, oz);
    probes := probes + [at];
    if Matches(p, b) {
      return true, probes;
    }
    b, at := GetBlockFromModifier(loc, w, -xm, ym, -zm, ox, oy, oz);
    probes := probes + [at];
    if Matches(p, b) {
      return true, probes;
    }
    b, at := GetBlockFromModifier(loc, w, xm, ym, zm, ox, oy, oz);
    probes := probes + [at];
    r := Matches(p, b);
  }

  method OnGround(loc: Location, w: World) returns (r: bool)
    modifies loc
    ensures r == GroundedAt(w, old(loc.Pos()))
    ensures loc.Pos() == old(loc.Pos())
  {
    loc.Subtract(0.0, 0.5, 0.0);
    var self := BlockAt(w, loc.Pos());
    loc.Add(0.0, 0.5, 0.0);
    if IsSolid(self) {
      return true;
    }
    ghost var probes;
    r, probes := CheckBlocksAround(loc, w, 0.3, -0.1, 0.3, SolidKind);
  }

  method HasClimbable(loc: Location, w: World) returns (r: bool)
    modifies loc
    ensures r == ClimbableAt(w, old(loc.Pos()))
    ensures loc.Pos() == old(loc.Pos())
  {
    var self := BlockAt(w, loc.Pos());
    if IsClimbable(self) {
      return true;
    }
    ghost var probes;
    r, probes := CheckBlocksAround(loc, w, 0.1, -0.06, 0.1, ClimbableKind);
  }

  /** Leaves the location one block higher whenever the direct sample misses. */
  method IsInOrOnLiquid(loc: Location, w: World) returns (r: bool)
    modifies loc
    ensures r == LiquidAt(w, old(loc.Pos()))
    ensures loc.Pos() == AfterLiquidProbe(w, old(loc.Pos()))
  {
    if IsLiquid(BlockAt(w, loc.Pos())) {
      return true;
    }
    var liquidRelative := IsLiquid(BlockAt(w, Below(loc.Pos())));
    loc.SetY(loc.y + 1.0);
    if liquidRelative {
      return true;
    }
    ghost var probes;
    r, probes := CheckBlocksAround(loc, w, 0.3, -0.1, 0.3, LiquidKind);
  }

  /** Leaves the location one block higher whenever the direct sample misses. */
  method IsOnIce(loc: Location, w: World) returns (r: bool)
    modifies loc
    ensures r == IceAt(w, old(loc.Pos()))
    ensures loc.Pos() == AfterIceProbe(w, old(loc.Pos()))
  {
    if IsIce(BlockAt(w, loc.Pos())) {
      return true;
    }
    var iceRelative := IsIce(BlockAt(w, Below(loc.Pos())));
    loc.SetY(loc.y + 1.0);
    if iceRelative {
      return true;
    }
    ghost var probes;
    r, probes := CheckBlocksAround(loc, w, 0.1, -0.01, 0.1, IceKind);
  }

  /** What one move observes of the world, as `calculateMovement` samples it. */
  datatype Move = Move(
    grounded: bool,    // ground under `to`
    toOnIce: bool,     // ice at `to` (sampled only when grounded)
    fromOnIce: bool,   // ice at `from` (sampled only when grounded)
    fromY: real, toY: real,
    distance: real,    // vertical distance between the two (possibly raised) clones
    climbable: bool,   // climbable at the `to` clone
    inLiquid: bool,    // liquid at the `to` clone
    time: int)

  /**
   * The observation `calculateMovement` makes. The same `to` clone is handed
   * to every probe, so when grounded the ice probe's leftover raise shifts the
   * vertical distance, the climbable probe and the liquid probe one block up.
   */
  function Observe(w: World, vertical: (Vec, Vec) -> real, from: Vec, to: Vec, now: int): Move {
    var grounded := GroundedAt(w, to);
    var from' := if grounded then AfterIceProbe(w, from) else from;
    var to' := if grounded then AfterIceProbe(w, to) else to;
    Move(grounded, grounded && IceAt(w, to), grounded && IceAt(w, from), from.y, to.y,
         vertical(from', to'), ClimbableAt(w, to'), LiquidAt(w, to'), now)
  }

  /** The position of the `to` clone once every probe is done; a grounded move records that object. */
  function GroundRecorded(w: World, to: Vec): Vec {
    AfterLiquidProbe(w, AfterIceProbe(w, to))
  }

  // The record after one move, section by section in the order the
  // aggregator writes them; a later section reads what an earlier one wrote.

  /** Ice flag and ice timers of a grounded move. */
  function IceStep(f: FootingState, toOnIce: bool, fromOnIce: bool): FootingState {
    f.(onIce := toOnIce,
       onIceTime := if toOnIce then f.onIceTime + 1 else 0,
       offIceTime := if toOnIce then 0 else if !fromOnIce then f.offIceTime + 1 else f.offIceTime)
  }

  /** Ground flags and ground time; the ice fields move only on a grounded move. */
  function GroundStep(f: FootingState, grounded: bool, toOnIce: bool, fromOnIce: bool): FootingState {
    var flagged := f.(onGround := grounded,
                      wasOnGround := !grounded || (f.onGround && f.wasOnGround),
                      onGroundTime := if grounded then f.onGroundTime + 1 else 0);
    if grounded then IceStep(flagged, toOnIce, fromOnIce) else flagged
  }

  /** Sprint and sneak timers: one more while the flag is set, zero otherwise. */
  function TimerStep(s: StanceState): StanceState {
    s.(sprintTime := if s.sprinting then s.sprintTime + 1 else 0,
       sneakTime := if s.sneaking then s.sneakTime + 1 else 0)
  }

  /** Vertical distance, and ascending or descending with their timers. */
  function VerticalStep(v: MotionState, distance: real, fromY: real, toY: real): MotionState {
    var ascending := distance > 0.0 && toY > fromY;
    var descending := distance > 0.0 && toY < fromY;
    MotionState(distance, v.vertical, ascending, descending,
                if ascending then v.ascendingTime + 1 else 0,
                if descending then v.descendingTime + 1 else 0)
  }

  /** Climbable and climbing (from the direction flags of `motion`, just written), liquid, update time. */
  function ClimbingAndLiquidStep(s: SurroundingsState, motion: MotionState, climbable: bool, inLiquid: bool,
                                 time: int): SurroundingsState {
    SurroundingsState(climbable, climbable && (motion.ascending || motion.descending), inLiquid, time)
  }

  /** The movement record after one observed move. */
  function Moved(m: Movement, mv: Move): Movement {
    var motion := VerticalStep(m.motion, mv.distance, mv.fromY, mv.toY);
    Movement(GroundStep(m.footing, mv.grounded, mv.toOnIce, mv.fromOnIce),
             TimerStep(m.stance),
             motion,
             ClimbingAndLiquidStep(m.surroundings, motion, mv.climbable, mv.inLiquid, mv.time))
  }

  /**
   * The sampling half of `calculateMovement`: clone both locations, probe the
   * world on the clones in the order the aggregator does, and measure the
   * vertical distance between the clones once the ice probes are done.
   */
  method Sample(from: Location, to: Location, w: World, vertical: (Vec, Vec) -> real, now: int)
    returns (mv: Move, cloneTo: Location)
    ensures fresh(cloneTo)
    ensures mv == Observe(w, vertical, from.Pos(), to.Pos(), now)
    ensures mv.grounded ==> cloneTo.Pos() == GroundRecorded(w, to.Pos())
  {
    var cloneFrom := from.Clone();
    cloneTo := to.Clone();
    var onGround := OnGround(cloneTo, w);
    var isOnIce, wasOnIce := false, false;
    if onGround {
      isOnIce := IsOnIce(cloneTo, w);
      wasOnIce := IsOnIce(cloneFrom, w);
    }
    var distance := vertical(cloneFrom.Pos(), cloneTo.Pos());
    var hasClimbable := HasClimbable(cloneTo, w);
    var inLiquid := IsInOrOnLiquid(cloneTo, w);
    mv := Move(onGround, isOnIce, wasOnIce, from.y, to.y, distance, hasClimbable, inLiquid, now);
  }

  /** The ground section: ground flags, the recorded ground, ground time and, when grounded, ice. */
  method WriteGround(data: MovingData, mv: Move, cloneTo: Location)
    modifies data`footing, data`ground
    ensures data.footing == GroundStep(old(data.footing), mv.grounded, mv.toOnIce, mv.fromOnIce)
    ensures data.ground == if mv.grounded then cloneTo else old(data.ground)
  {
    var currentOnGround := data.footing.onGround;
    var previousOnGround := data.footing.wasOnGround;
    var onGround := mv.grounded;
    data.footing := data.footing.(onGround := onGround);
    data.footing := data.footing.(wasOnGround := !onGround || (currentOnGround && previousOnGround));

    if onGround {
      data.ground := cloneTo;
      data.footing := data.footing.(onGroundTime := data.footing.onGroundTime + 1);
      WriteIce(data, mv.toOnIce, mv.fromOnIce);
    } else {
      data.footing := data.footing.(onGroundTime := 0);
    }
  }

  /** The ice part of the ground section. */
  method WriteIce(data: MovingData, isOnIce: bool, wasOnIce: bool)
    modifies data`footing
    ensures data.footing == IceStep(old(data.footing), isOnIce, wasOnIce)
  {
    data.footing := data.footing.(onIce := isOnIce);
    if isOnIce {
      data.footing := data.footing.(onIceTime := data.footing.onIceTime + 1);
      data.footing := data.footing.(offIceTime := 0);
    } else {
      data.footing := data.footing.(onIceTime := 0);
      if !wasOnIce {
        data.footing := data.footing.(offIceTime := data.footing.offIceTime + 1);
      }
    }
  }

  /** The sprint and sneak section. */
  method WriteTimers(data: MovingData)
    modifies data`stance
    ensures data.stance == TimerStep(old(data.stance))
  {
    var sprinting := data.stance.sprinting;
    var sneaking := data.stance.sneaking;
    if sprinting {
      data.stance := data.stance.(sprintTime := data.stance.sprintTime + 1);
    } else {
      data.stance := data.stance.(sprintTime := 0);
    }
    if sneaking {
      data.stance := data.stance.(sneakTime := data.stance.sneakTime + 1);
    } else {
      data.stance := data.stance.(sneakTime := 0);
    }
  }

  /** The vertical section: the distance, then ascending and descending. */
  method WriteVertical(data: MovingData, mv: Move)
    modifies data`motion
    ensures data.motion == VerticalStep(old(data.motion), mv.distance, mv.fromY, mv.toY)
  {
    var distance := mv.distance;
    data.motion := data.motion.(lastVertical := data.motion.vertical);
    data.motion := data.motion.(vertical := distance);

    var ascending := distance > 0.0 && mv.toY > mv.fromY;
    var descending := distance > 0.0 && mv.toY < mv.fromY;
    data.motion := data.motion.(ascending := ascending);
    data.motion := data.motion.(descending := descending);
    if ascending {
      data.motion := data.motion.(ascendingTime := data.motion.ascendingTime + 1);
    } else {
      data.motion := data.motion.(ascendingTime := 0);
    }
    if descending {
      data.motion := data.motion.(descendingTime := data.motion.descendingTime + 1);
    } else {
      data.motion := data.motion.(descendingTime := 0);
    }
  }

  /** The climbing and liquid section, and the update time. */
  method WriteClimbingAndLiquid(data: MovingData, mv: Move)
    modifies data`surroundings
    ensures data.surroundings ==
      ClimbingAndLiquidStep(old(data.surroundings), data.motion, mv.climbable, mv.inLiquid, mv.time)
  {
    var hasClimbable := mv.climbable;
    var climbing := hasClimbable && (data.motion.ascending || data.motion.descending);
    data.surroundings := data.surroundings.(hasClimbable := hasClimbable);
    data.surroundings := data.surroundings.(climbing := climbing);
    data.surroundings := data.surroundings.(inLiquid := mv.inLiquid);
    data.surroundings := data.surroundings.(lastMovingUpdate := mv.time);
  }

  /** The writing half of `calculateMovement`: every section in the aggregator's order. */
  method Record(data: MovingData, mv: Move, cloneTo: Location)
    modifies data
    ensures data.Snapshot() == Moved(old(data.Snapshot()), mv)
    ensures data.ground == if mv.grounded then cloneTo else old(data.ground)
  {
    WriteGround(data, mv, cloneTo);
    WriteTimers(data);
    WriteVertical(data, mv);
    WriteClimbingAndLiquid(data, mv);
  }

  /**
   * Folds one move into `data`: the world is sampled on clones of the two
   * locations, then the sections are written in order, section by section. `now`
   * stands for the clock, the world for the block lookup and `vertical` for
   * the vertical-distance helper.
   */
  method CalculateMovement(data: MovingData, from: Location, to: Location, w: World,
                           vertical: (Vec, Vec) -> real, now: int)
    modifies data
    ensures data.Snapshot() == Moved(old(data.Snapshot()), Observe(w, vertical, old(from.Pos()), old(to.Pos()), now))
    ensures GroundedAt(w, old(to.Pos())) ==>
      data.ground != null && fresh(data.ground) && data.ground.Pos() == GroundRecorded(w, old(to.Pos()))
    ensures !GroundedAt(w, old(to.Pos())) ==> data.ground == old(data.ground)
  {
    ghost var before := data.Snapshot();
    var mv, cloneTo := Sample(from, to, w, vertical, now);
    assert (cloneTo as object) != data;
    assert data.Snapshot() == before;
    ghost var recorded := cloneTo.Pos();
    Record(data, mv, cloneTo);
    assert cloneTo.Pos() == recorded;
  }
}

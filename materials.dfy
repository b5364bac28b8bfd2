/**
 * Block classification of the legacy (1.8) materials bridge: pure predicates
 * over the host's material enumeration, used by the environment sampler.
 */
module Materials {

  /** The materials the classification names; every other material is `Other`. */
  datatype Material =
    | Ladder | Vine
    | Ice | PackedIce
    | Fence | BirchFence | DarkOakFence | IronFence | JungleFence | NetherFence | SpruceFence | AcaciaFence
    | CobbleWall
    | Other(name: string)

  /** A block of the world: its material plus the host's own liquid and solid flags. */
  datatype Block = Block(material: Material, liquid: bool, solid: bool)

  /** The fence materials of the legacy enumeration, as the bridge lists them. */
  const FENCES: seq<Material> :=
    [Fence, BirchFence, DarkOakFence, IronFence, JungleFence, NetherFence, SpruceFence, AcaciaFence]

  predicate IsFence(b: Block) {
    match b.material
    case Fence | BirchFence | DarkOakFence | IronFence | JungleFence | NetherFence | SpruceFence | AcaciaFence => true
    case _ => false
  }

  predicate IsClimbable(b: Block) {
    b.material == Ladder || b.material == Vine
  }

  /** Liquid-ness is the host block's own flag, not a property of the material. */
  predicate IsLiquid(b: Block) {
    b.liquid
  }

  predicate IsIce(b: Block) {
    b.material == Ice || b.material == PackedIce
  }

  predicate IsWall(b: Block) {
    b.material == CobbleWall
  }

  /** Solidity as the host reports it (the block utility's `isSolid`). */
  predicate IsSolid(b: Block) {
    b.solid
  }

  /** `isFence` holds exactly for the listed fences. */
  lemma FenceIsExactlyTheListedFences(b: Block)
    ensures IsFence(b) <==> b.material in FENCES
  {
  }

  /** The material classes are pairwise disjoint; in particular nothing is both climbable and ice. */
  lemma ClassesAreDisjoint(b: Block)
    ensures !(IsClimbable(b) && IsIce(b))
    ensures !(IsClimbable(b) && IsFence(b)) && !(IsIce(b) && IsFence(b))
    ensures IsWall(b) ==> !IsFence(b) && !IsIce(b) && !IsClimbable(b)
  {
  }

  /** Classification looks at the material only, except liquid-ness, which looks at the host flag only. */
  lemma ClassificationSources(b: Block, c: Block)
    ensures b.material == c.material ==>
      IsClimbable(b) == IsClimbable(c) && IsIce(b) == IsIce(c) && IsFence(b) == IsFence(c) && IsWall(b) == IsWall(c)
    ensures b.liquid == c.liquid ==> IsLiquid(b) == IsLiquid(c)
    ensures IsClimbable(b) <==> b.material in {Ladder, Vine}
    ensures IsIce(b) <==> b.material in {Ice, PackedIce}
  {
  }
}

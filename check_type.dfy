/**
 * Identity of each detector and the bypass-permission group it belongs to.
 * A check type is modelled as a value carrying its display name and its
 * category. The constants below are the thirteen detectors the registry
 * creates; their names follow the detector classes and their categories the
 * packages those classes live in, both assumed rather than read off the enum.
 */
module CheckTypes {

  /** A check category; `name` is the enum constant's name, as `name()` returns it. */
  datatype CheckCategory = CheckCategory(name: string)

  const COMBAT := CheckCategory("COMBAT")
  const MOVING := CheckCategory("MOVING")
  const NETWORK := CheckCategory("NETWORK")
  const PLAYER := CheckCategory("PLAYER")

  /** A check type: `name` is what `getName()` returns, `category` what `category()` returns. */
  datatype CheckType = CheckType(name: string, category: CheckCategory)

  const CRITICALS := CheckType("Criticals", COMBAT)
  const REACH := CheckType("Reach", COMBAT)
  const NO_SWING := CheckType("NoSwing", COMBAT)
  const KILL_AURA := CheckType("KillAura", COMBAT)
  const MORE_PACKETS := CheckType("MorePackets", MOVING)
  const NO_FALL := CheckType("NoFall", MOVING)
  const JESUS := CheckType("Jesus", MOVING)
  const FLIGHT := CheckType("Flight", MOVING)
  const SPEED := CheckType("Speed", MOVING)
  const PAYLOAD_FREQUENCY := CheckType("PayloadFrequency", NETWORK)
  const SWING_FREQUENCY := CheckType("SwingFrequency", NETWORK)
  const REGENERATION := CheckType("Regeneration", PLAYER)
  const FAST_USE := CheckType("FastUse", PLAYER)
}

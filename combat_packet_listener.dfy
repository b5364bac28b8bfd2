/**
 * The combat packet handlers: arm swings feed the swing-rate detector and
 * record the time of the last swing; attacks on living entities are put to
 * the four combat detectors and cancelled when any of them objects.
 */
module CombatPacketListener {
  import opened CheckTypes
  import opened PlayerData

  /** An incoming packet; handlers can only ever set `cancelled`. */
  class PacketEvent {
    var cancelled: bool

    constructor (cancelled: bool)
      ensures this.cancelled == cancelled
    {
      this.cancelled := cancelled;
    }
  }

  /** The action carried by a use-entity packet. */
  datatype EntityUseAction = Interact | Attack | InteractAt

  /**
   * One combat detector as the handler consults it: its type, whether it is
   * enabled, and the answer its `check` gives for this attack if it is run.
   */
  datatype CombatCheck = CombatCheck(checkType: CheckType, enabled: bool, verdict: bool)

  /** The types a run of one detector adds to the detectors run: none when disabled. */
  function RunOf(c: CombatCheck): seq<CheckType> {
    if c.enabled then [c.checkType] else []
  }

  /** Whether one detector objects to the attack: only a detector that is run can. */
  predicate Objects(c: CombatCheck) {
    c.enabled && c.verdict
  }

  /**
   * An arm swing: count it, then either cancel the packet (swings are being
   * cancelled this window) or record `now` as the time of the last swing.
   */
  method OnArmSwing(event: PacketEvent, data: PacketData, combat: CombatData, now: int)
    modifies event, data`swingPacketCount, combat`lastSwingTime
    ensures data.swingPacketCount == old(data.swingPacketCount) + 1
    ensures event.cancelled == (old(event.cancelled) || data.cancelSwingPackets)
    ensures data.cancelSwingPackets ==> combat.lastSwingTime == old(combat.lastSwingTime)
    ensures !data.cancelSwingPackets ==> combat.lastSwingTime == now
  {
    data.swingPacketCount := data.swingPacketCount + 1;
    if data.cancelSwingPackets {
      event.cancelled := true;
      return;
    }
    combat.lastSwingTime := now;
  }

  /**
   * A use-entity packet: only an attack on a living entity is examined; each
   * enabled detector is run, in order and without short-circuit, and the
   * packet is cancelled when any of them objects. Returns the detectors run.
   */
  method OnUseEntity(event: PacketEvent, action: EntityUseAction, targetIsLiving: bool,
                     killAura: CombatCheck, reach: CombatCheck, noSwing: CombatCheck, criticals: CombatCheck)
    returns (ghost ran: seq<CheckType>)
    modifies event
    ensures action != Attack || !targetIsLiving ==> ran == [] && event.cancelled == old(event.cancelled)
    ensures action == Attack && targetIsLiving ==>
      ran == RunOf(killAura) + RunOf(reach) + RunOf(noSwing) + RunOf(criticals)
      && event.cancelled
         == (old(event.cancelled) || Objects(killAura) || Objects(reach) || Objects(noSwing) || Objects(criticals))
  {
    ran := [];
    if action == Attack {
      if targetIsLiving {
        var checkKillAura, checkCriticals, checkReach, checkNoSwing := false, false, false, false;
        if killAura.enabled {
          checkKillAura := killAura.verdict;
          ran := ran + [killAura.checkType];
        }
        if reach.enabled {
          checkReach := reach.verdict;
          ran := ran + [reach.checkType];
        }
        if noSwing.enabled {
          checkNoSwing := noSwing.verdict;
          ran := ran + [noSwing.checkType];
        }
        if criticals.enabled {
          checkCriticals := criticals.verdict;
          ran := ran + [criticals.checkType];
        }
        if checkKillAura || checkCriticals || checkReach || checkNoSwing {
          event.cancelled := true;
        }
      }
    }
  }
}

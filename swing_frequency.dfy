/**
 * The swing-rate detector. Arm-swing packets are counted per participant;
 * once per window (every 20 ticks) each non-exempt participant's count is
 * compared with the configured maximum, reset, and turned into the flag that
 * decides whether that participant's swings are cancelled in the next window.
 */
module Network {
  import opened CheckTypes
  import opened Checks
  import opened PlayerData

  const MAX_PACKETS_KEY := "max-packets-per-second"
  const KICK_IF_REACHED_KEY := "kick-if-threshold-reached"
  const KICK_THRESHOLD_KEY := "packet-kick-threshold"

  /** The builder values the detector is constructed with. */
  const DEFAULT_SETTINGS := CheckSettings(
    enabled := true,
    cancel := true, cancelLevel := 0,
    notify := true, notifyEvery := 1,
    ban := true, banLevel := 10,
    kick := true, kickLevel := 5)

  /** The detector's own configuration section once its defaults are added. */
  const DEFAULT_CONFIGURATION: Configuration := map[
    MAX_PACKETS_KEY := IntValue(50),
    KICK_IF_REACHED_KEY := BoolValue(false),
    KICK_THRESHOLD_KEY := IntValue(100)]

  const FAILURE_REASON := "Too many swing packets per second."

  /** The three tunables the detector reads from its section. */
  datatype Limits = Limits(maxPacketsPerSecond: int, kickIfThresholdReached: bool, packetKickThreshold: int)

  /** What `load` reads from a configuration section. */
  function LimitsFrom(configuration: Configuration): Limits {
    Limits(GetInt(configuration, MAX_PACKETS_KEY),
           GetBoolean(configuration, KICK_IF_REACHED_KEY),
           GetInt(configuration, KICK_THRESHOLD_KEY))
  }

  /** The verdict on a window in which `count` swings arrived, against `max`. */
  function Judge(count: int, max: int): CheckResult {
    if count >= max then CheckResult(true, FAILURE_REASON, [("packets", count), ("max", max)])
    else PASSED
  }

  /** Whether a window's evaluation asks for an immediate kick. */
  predicate KickRequested(count: int, limits: Limits, pendingKick: bool) {
    count >= limits.maxPacketsPerSecond
    && count >= limits.packetKickThreshold
    && limits.kickIfThresholdReached
    && !pendingKick
  }

  class SwingFrequency {
    const checkType: CheckType
    var settings: CheckSettings
    var configuration: Configuration
    var maxPacketsPerSecond: int
    var packetKickThreshold: int
    var kickIfThresholdReached: bool
    /** Periodic window tasks registered by `load` and not cancelled since. */
    var scheduledTasks: nat

    function CurrentLimits(): Limits
      reads this
    {
      Limits(maxPacketsPerSecond, kickIfThresholdReached, packetKickThreshold)
    }

    /** Builds the detector with its defaults and, being enabled, loads it. */
    constructor ()
      ensures checkType == SWING_FREQUENCY && settings == DEFAULT_SETTINGS
      ensures configuration == DEFAULT_CONFIGURATION
      ensures CurrentLimits() == Limits(50, false, 100)
      ensures scheduledTasks == 1
    {
      checkType := SWING_FREQUENCY;
      settings := DEFAULT_SETTINGS;
      configuration := map[];
      maxPacketsPerSecond := 0;
      packetKickThreshold := 0;
      kickIfThresholdReached := false;
      scheduledTasks := 0;
      new;
      AddConfigurationValue(MAX_PACKETS_KEY, IntValue(50));
      AddConfigurationValue(KICK_IF_REACHED_KEY, BoolValue(false));
      AddConfigurationValue(KICK_THRESHOLD_KEY, IntValue(100));
      if settings.enabled {
        Load();
      }
    }

    method AddConfigurationValue(key: string, value: ConfigValue)
      modifies this
      ensures configuration == old(configuration)[key := value]
      ensures settings == old(settings) && CurrentLimits() == old(CurrentLimits())
      ensures scheduledTasks == old(scheduledTasks)
    {
      configuration := configuration[key := value];
    }

    /** Reads the three tunables from the section and registers the window task. */
    method Load()
      modifies this
      ensures CurrentLimits() == LimitsFrom(configuration)
      ensures scheduledTasks == old(scheduledTasks) + 1
      ensures configuration == old(configuration) && settings == old(settings)
    {
      maxPacketsPerSecond := GetInt(configuration, MAX_PACKETS_KEY);
      kickIfThresholdReached := GetBoolean(configuration, KICK_IF_REACHED_KEY);
      packetKickThreshold := GetInt(configuration, KICK_THRESHOLD_KEY);
      scheduledTasks := scheduledTasks + 1;
    }

    method ReloadConfig()
      modifies this
      ensures CurrentLimits() == LimitsFrom(configuration)
      ensures scheduledTasks == old(scheduledTasks) + 1
      ensures configuration == old(configuration) && settings == old(settings)
    {
      Load();
    }

    /** Cancels the window tasks. */
    method Unload()
      modifies this
      ensures scheduledTasks == 0
      ensures CurrentLimits() == old(CurrentLimits())
      ensures configuration == old(configuration) && settings == old(settings)
    {
      scheduledTasks := 0;
    }

    /**
     * One participant's window: judge the count, reset it, and set the cancel
     * flag from the violation outcome (`violationCancel`) of the result.
     */
    method Check(data: PacketData, pendingKick: bool, violationCancel: CheckResult -> bool)
      returns (result: CheckResult, kick: bool)
      modifies data
      ensures result == Judge(old(data.swingPacketCount), maxPacketsPerSecond)
      ensures kick == KickRequested(old(data.swingPacketCount), CurrentLimits(), pendingKick)
      ensures data.swingPacketCount == 0
      ensures data.cancelSwingPackets == violationCancel(result)
    {
      result := PASSED;
      kick := false;
      var count := data.swingPacketCount;
      if count >= maxPacketsPerSecond {
        result := CheckResult(true, FAILURE_REASON, []);
        result := result.(parameters := result.parameters + [("packets", data.swingPacketCount)]);
        result := result.(parameters := result.parameters + [("max", maxPacketsPerSecond)]);
        if count >= packetKickThreshold && kickIfThresholdReached && !pendingKick {
          kick := true;
        }
      } else {
        data.cancelSwingPackets := false;
      }
      data.swingPacketCount := 0;
      data.cancelSwingPackets := violationCancel(result);
    }

    /**
     * The periodic window task over the online participants, in order:
     * exempt participants are skipped; every other one is checked with
     * its own pending-kick state and violation outcome.
     */
    method RunWindow(players: seq<PacketData>, exempt: seq<bool>, pendingKick: seq<bool>,
                     violationCancel: (nat, CheckResult) -> bool)
      returns (kicks: seq<bool>)
      requires |exempt| == |players| && |pendingKick| == |players|
      requires forall i, j :: 0 <= i < j < |players| ==> players[i] != players[j]
      modifies set i | 0 <= i < |players| :: players[i]
      ensures |kicks| == |players|
      ensures forall i :: 0 <= i < |players| && exempt[i] ==>
        !kicks[i]
        && players[i].swingPacketCount == old(players[i].swingPacketCount)
        && players[i].cancelSwingPackets == old(players[i].cancelSwingPackets)
      ensures forall i :: 0 <= i < |players| && !exempt[i] ==>
        kicks[i] == KickRequested(old(players[i].swingPacketCount), CurrentLimits(), pendingKick[i])
        && players[i].swingPacketCount == 0
        && players[i].cancelSwingPackets
           == violationCancel(i, Judge(old(players[i].swingPacketCount), maxPacketsPerSecond))
    {
      kicks := [];
      for k := 0 to |players|
        invariant |kicks| == k
        invariant forall i :: k <= i < |players| ==>
          players[i].swingPacketCount == old(players[i].swingPacketCount)
          && players[i].cancelSwingPackets == old(players[i].cancelSwingPackets)
        invariant forall i :: 0 <= i < k && exempt[i] ==>
          !kicks[i]
          && players[i].swingPacketCount == old(players[i].swingPacketCount)
          && players[i].cancelSwingPackets == old(players[i].cancelSwingPackets)
        invariant forall i :: 0 <= i < k && !exempt[i] ==>
          kicks[i] == KickRequested(old(players[i].swingPacketCount), CurrentLimits(), pendingKick[i])
          && players[i].swingPacketCount == 0
          && players[i].cancelSwingPackets
             == violationCancel(i, Judge(old(players[i].swingPacketCount), maxPacketsPerSecond))
      {
        var kick := false;
        if !exempt[k] {
          var result;
          result, kick := Check(players[k], pendingKick[k], r => violationCancel(k, r));
        }
        kicks := kicks + [kick];
      }
    }
  }

  // ---- What the detector promises ----

  /** A window fails exactly when the count reaches the maximum, and then reports both numbers. */
  lemma FailsIffMaximumReached(count: int, max: int)
    ensures Judge(count, max).failed <==> count >= max
    ensures Judge(count, max).failed ==> Judge(count, max).parameters == [("packets", count), ("max", max)]
    ensures Judge(max, max).failed && !Judge(max - 1, max).failed
  {
  }

  /** A kick is only ever asked for on a failed window. */
  lemma KickOnlyOnFailure(count: int, limits: Limits, pendingKick: bool)
    requires KickRequested(count, limits, pendingKick)
    ensures Judge(count, limits.maxPacketsPerSecond).failed
    ensures !pendingKick && limits.kickIfThresholdReached && count >= limits.packetKickThreshold
  {
  }

  /** Loading the default section gives 50, false and 100. */
  lemma DefaultLimits()
    ensures LimitsFrom(DEFAULT_CONFIGURATION) == Limits(50, false, 100)
  {
  }

  /** `load` reads only its three keys: sections that agree on them load the same limits. */
  lemma LoadReadsOnlyItsKeys(a: Configuration, b: Configuration)
    requires forall key :: key in {MAX_PACKETS_KEY, KICK_IF_REACHED_KEY, KICK_THRESHOLD_KEY} ==>
      (key in a <==> key in b) && (key in a ==> a[key] == b[key])
    ensures LimitsFrom(a) == LimitsFrom(b)
  {
  }
}

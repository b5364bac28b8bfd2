/**
 * The registry of detectors: a set of checks that is filled once at start-up,
 * looked up by type, told to reload or unload as a whole, and emptied on close.
 */
module CheckManager {
  import opened CheckTypes
  import opened Checks

  /** The thirteen detector types the registry creates, in the order it creates them. */
  const REGISTERED: seq<CheckType> := [
    CRITICALS, MORE_PACKETS, NO_FALL, PAYLOAD_FREQUENCY, SWING_FREQUENCY, REGENERATION,
    FAST_USE, JESUS, REACH, NO_SWING, KILL_AURA, FLIGHT, SPEED]

  /** The outcome of a lookup: the check found, or the not-found error and its message. */
  datatype Lookup = Found(check: Check) | NotFound(message: string)

  class CheckManager {
    var checks: set<Check>

    constructor ()
      ensures checks == {}
    {
      checks := {};
    }

    method Add(check: Check)
      modifies this
      ensures checks == old(checks) + {check}
    {
      checks := checks + {check};
    }

    /** Creates a check of type `t` and adds it. */
    method Register(t: CheckType) returns (check: Check)
      modifies this
      ensures fresh(check) && check.checkType == t && check.reloads == [] && check.unloads == 0
      ensures checks == old(checks) + {check}
    {
      check := new Check(t);
      Add(check);
    }

    /**
     * Creates one check per registered type and adds each, in the order of
     * `REGISTERED`; `created` lists them in that order.
     */
    method Initialize() returns (ghost created: seq<Check>)
      modifies this
      ensures |created| == |REGISTERED|
      ensures forall i :: 0 <= i < |created| ==>
        fresh(created[i]) && created[i].checkType == REGISTERED[i]
        && created[i].reloads == [] && created[i].unloads == 0
      ensures forall i, j :: 0 <= i < j < |created| ==> created[i] != created[j]
      ensures forall c :: c in checks <==> c in old(checks) || c in created
    {
      created := [];
      for i := 0 to |REGISTERED|
        invariant |created| == i
        invariant forall k :: 0 <= k < i ==>
          fresh(created[k]) && created[k].checkType == REGISTERED[k]
          && created[k].reloads == [] && created[k].unloads == 0
        invariant forall k, l :: 0 <= k < l < i ==> created[k] != created[l]
        invariant forall c :: c in checks <==> c in old(checks) || c in created
      {
        var check := Register(REGISTERED[i]);
        created := created + [check];
      }
    }

    /** Hands the same configuration to every registered check, in no particular order. */
    method Reload(configuration: Configuration)
      modifies checks
      ensures forall c :: c in checks ==>
        c.reloads == old(c.reloads) + [configuration] && c.unloads == old(c.unloads)
    {
      var remaining := checks;
      while remaining != {}
        invariant remaining <= checks
        invariant forall c :: c in checks && c !in remaining ==>
          c.reloads == old(c.reloads) + [configuration] && c.unloads == old(c.unloads)
        invariant forall c :: c in remaining ==> c.reloads == old(c.reloads) && c.unloads == old(c.unloads)
        decreases |remaining|
      {
        var c :| c in remaining;
        c.Reload(configuration);
        remaining := remaining - {c};
      }
    }

    /** Some registered check of type `t`, or the not-found error. */
    method GetCheck(t: CheckType) returns (r: Lookup)
      ensures r.Found? ==> r.check in checks && r.check.checkType == t
      ensures r.NotFound? <==> forall c :: c in checks ==> c.checkType != t
      ensures r.NotFound? ==> r.message == "Could not find check " + t.name
    {
      if c :| c in checks && c.checkType == t {
        return Found(c);
      }
      return NotFound("Could not find check " + t.name);
    }

    /** The registered checks. */
    method GetAllChecks() returns (all: set<Check>)
      ensures all == checks
    {
      return checks;
    }

    /** Unloads every registered check, in no particular order, then forgets them all. */
    method Close()
      modifies this, checks
      ensures checks == {}
      ensures forall c :: c in old(checks) ==>
        c.unloads == old(c.unloads) + 1 && c.reloads == old(c.reloads)
    {
      var remaining := checks;
      while remaining != {}
        invariant remaining <= checks == old(checks)
        invariant forall c :: c in checks && c !in remaining ==>
          c.unloads == old(c.unloads) + 1 && c.reloads == old(c.reloads)
        invariant forall c :: c in remaining ==> c.unloads == old(c.unloads) && c.reloads == old(c.reloads)
        decreases |remaining|
      {
        var c :| c in remaining;
        c.Unload();
        remaining := remaining - {c};
      }
      checks := {};
    }
  }

  /** The registered types are thirteen different ones, so `initialize` adds thirteen checks. */
  lemma ThirteenTypes()
    ensures |REGISTERED| == 13
    ensures forall i, j :: 0 <= i < j < |REGISTERED| ==> REGISTERED[i] != REGISTERED[j]
  {
  }
}

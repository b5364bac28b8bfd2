/**
 * The per-participant exemption record: for each check type, a stored 64-bit
 * value that is compared with the current time. A check with no entry, or
 * with the stored value 0, is not exempt; an entry found expired is removed
 * the first time it is looked at.
 */
module Exemptions {
  import opened CheckTypes

  const MIN_LONG: int := -0x8000_0000_0000_0000
  const MAX_LONG: int := 0x7FFF_FFFF_FFFF_FFFF
  const LONG_RANGE: int := 0x1_0000_0000_0000_0000

  /** A value of the host's 64-bit signed `long`. */
  type Long = v: int | MIN_LONG <= v <= MAX_LONG

  /** Two's-complement wrap-around of an exact result into the `long` range. */
  function WrapLong(v: int): (r: Long)
    ensures (r - v) % LONG_RANGE == 0
    ensures MIN_LONG <= v <= MAX_LONG ==> r == v
  {
    var m := (v - MIN_LONG) % LONG_RANGE;
    m + MIN_LONG
  }

  /** `now - stored` as the host computes it on `long`s. */
  function Elapsed(now: Long, stored: Long): Long {
    WrapLong(now - stored)
  }

  /** The stored value for `check`, or 0 when there is none (`getOrDefault(check, 0L)`). */
  function Stored(entries: map<CheckType, Long>, check: CheckType): Long {
    if check in entries then entries[check] else 0
  }

  /** The answer `isExempt` gives for `check` at time `now`. */
  predicate ExemptAt(entries: map<CheckType, Long>, check: CheckType, now: Long) {
    Stored(entries, check) != 0 && Elapsed(now, Stored(entries, check)) <= 0
  }

  /** The entries once `isExempt` has looked at `check`: an expired non-zero entry is dropped. */
  function AfterQuery(entries: map<CheckType, Long>, check: CheckType, now: Long): map<CheckType, Long> {
    if Stored(entries, check) == 0 || ExemptAt(entries, check, now) then entries
    else entries - {check}
  }

  class Exemptions {
    var entries: map<CheckType, Long>

    constructor ()
      ensures entries == map[]
    {
      entries := map[];
    }

    /** Stores `duration` for `check` as given, replacing any earlier value. */
    method AddExemption(check: CheckType, duration: Long)
      modifies this
      ensures entries == old(entries)[check := duration]
    {
      entries := entries[check := duration];
    }

    /** Whether `check` is exempt at `now`; an expired entry is removed on the way. */
    method IsExempt(check: CheckType, now: Long) returns (r: bool)
      modifies this
      ensures r == ExemptAt(old(entries), check, now)
      ensures entries == AfterQuery(old(entries), check, now)
    {
      var time: Long := if check in entries then entries[check] else 0;
      if time == 0 {
        return false;
      }
      r := WrapLong(now - time) <= 0;
      if !r {
        entries := entries - {check};
      }
    }

    /** Forgets every exemption. */
    method Dispose()
      modifies this
      ensures entries == map[]
    {
      entries := map[];
    }
  }

  // ---- What the record promises ----

  /** A check with no entry is not exempt, and looking leaves the entries as they were. */
  lemma MissingIsNotExempt(entries: map<CheckType, Long>, check: CheckType, now: Long)
    requires check !in entries
    ensures !ExemptAt(entries, check, now)
    ensures AfterQuery(entries, check, now) == entries
  {
  }

  /** A stored 0 means "not exempt", and that entry stays. */
  lemma ZeroIsNotExempt(entries: map<CheckType, Long>, check: CheckType, now: Long)
    requires check in entries && entries[check] == 0
    ensures !ExemptAt(entries, check, now)
    ensures AfterQuery(entries, check, now) == entries && check in AfterQuery(entries, check, now)
  {
  }

  /**
   * When `now - stored` does not overflow, a non-zero entry is exempt exactly
   * while `now` has not passed it; an exempt answer keeps the entry, an
   * expired one removes that entry and nothing else.
   */
  lemma ExemptUntilStoredTime(entries: map<CheckType, Long>, check: CheckType, now: Long)
    requires check in entries && entries[check] != 0
    requires MIN_LONG <= now - entries[check] <= MAX_LONG
    ensures ExemptAt(entries, check, now) <==> now <= entries[check]
    ensures now <= entries[check] ==> AfterQuery(entries, check, now) == entries
    ensures now > entries[check] ==>
      check !in AfterQuery(entries, check, now)
      && forall k :: k != check ==>
           (k in AfterQuery(entries, check, now) <==> k in entries)
           && (k in entries ==> AfterQuery(entries, check, now)[k] == entries[k])
  {
  }

  /**
   * The subtraction wraps: an entry far in the past (a large negative value)
   * reads as exempt, since `now - stored` overflows to a negative `long`.
   */
  lemma WrappedSubtractionExempts()
    ensures ExemptAt(map[SPEED := MIN_LONG], SPEED, 1000)
  {
  }

  /** A second look gives the same answer and removes nothing more. */
  lemma QueryIsIdempotent(entries: map<CheckType, Long>, check: CheckType, now: Long)
    ensures ExemptAt(AfterQuery(entries, check, now), check, now) == ExemptAt(entries, check, now)
    ensures AfterQuery(AfterQuery(entries, check, now), check, now) == AfterQuery(entries, check, now)
  {
  }

  /**
   * The added value is itself the expiry: right after `addExemption(check, d)`
   * the check is exempt exactly when `d` is non-zero and `now - d` (wrapped) is
   * not positive; a small duration given at a later time is already expired.
   */
  lemma AddedValueIsTheExpiry(entries: map<CheckType, Long>, check: CheckType, d: Long, now: Long)
    ensures ExemptAt(entries[check := d], check, now) <==> d != 0 && Elapsed(now, d) <= 0
    ensures 0 < d < now ==> !ExemptAt(entries[check := d], check, now)
  {
  }

  /** After `dispose`, no check is exempt at any time. */
  lemma DisposedIsNeverExempt(check: CheckType, now: Long)
    ensures !ExemptAt(map[], check, now)
  {
  }
}

/**
 * What every detector shares: its configuration section, the builder
 * settings it is constructed with, the result one evaluation produces, and
 * the registry's view of a detector (its type plus the reload and unload
 * calls it has received).
 */
module Checks {
  import opened CheckTypes

  /** A configuration entry: the configuration files hold integers and booleans. */
  datatype ConfigValue = IntValue(i: int) | BoolValue(b: bool)

  /** A configuration section, key by key. */
  type Configuration = map<string, ConfigValue>

  /** `getInt(key)`: the integer stored under `key`, or 0 when there is none. */
  function GetInt(configuration: Configuration, key: string): int {
    if key in configuration && configuration[key].IntValue? then configuration[key].i else 0
  }

  /** `getBoolean(key)`: the boolean stored under `key`, or false when there is none. */
  function GetBoolean(configuration: Configuration, key: string): bool {
    key in configuration && configuration[key].BoolValue? && configuration[key].b
  }

  /** The values a detector's builder is given (`enabled(..).cancel(..)...build()`). */
  datatype CheckSettings = CheckSettings(
    enabled: bool,
    cancel: bool, cancelLevel: int,
    notify: bool, notifyEvery: int,
    ban: bool, banLevel: int,
    kick: bool, kickLevel: int)

  /** The outcome of one evaluation: failed or not, a reason, and named integer parameters. */
  datatype CheckResult = CheckResult(failed: bool, information: string, parameters: seq<(string, int)>)

  const PASSED := CheckResult(false, "", [])

  /**
   * A registered detector as the registry sees it: its type, and the
   * configurations it has been reloaded with and the unloads it has received,
   * in order. What a detector does on reload or unload is its own business.
   */
  class Check {
    const checkType: CheckType
    var reloads: seq<Configuration>
    var unloads: nat

    constructor (t: CheckType)
      ensures checkType == t && reloads == [] && unloads == 0
    {
      checkType := t;
      reloads := [];
      unloads := 0;
    }

    method Reload(configuration: Configuration)
      modifies this
      ensures reloads == old(reloads) + [configuration] && unloads == old(unloads)
    {
      reloads := reloads + [configuration];
    }

    method Unload()
      modifies this
      ensures unloads == old(unloads) + 1 && reloads == old(reloads)
    {
      unloads := unloads + 1;
    }
  }
}

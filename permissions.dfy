/**
 * Permission nodes and the bypass rules. A participant's permissions are the
 * set of nodes the host grants them; bypass is granted by the global node
 * `arc.bypass`, by a category node `arc.bypass.<category>`, or by a check node
 * `arc.bypass.<category>.<check>`, both parts lower-cased.
 */
module Permissions {
  import opened CheckTypes

  const ARC_VIOLATIONS := "arc.violations"
  const ARC_BYPASS := "arc.bypass"
  const ARC_ADMINISTRATOR := "arc.administrator"
  const ARC_COMMANDS_BASE := "arc.commands.base"
  const ARC_COMMANDS_TOGGLE_VIOLATIONS := "arc.commands.toggleviolations"
  const ARC_COMMANDS_CANCEL_BAN := "arc.commands.cancelban"
  const ARC_COMMANDS_RELOAD_CONFIG := "arc.commands.reloadconfig"
  const ARC_COMMANDS_ALL := "arc.commands.all"
  const ARC_COMMANDS_SUMMARY := "arc.commands.summary"
  const ARC_COMMANDS_TIMINGS := "arc.commands.timings"

  /** ASCII lower-casing of one character. */
  function LowerChar(c: char): char {
    if 'A' <= c <= 'Z' then (c as int + 32) as char else c
  }

  /** `toLowerCase()` over ASCII text. */
  function Lower(s: string): (r: string)
    ensures |r| == |s|
    ensures forall i :: 0 <= i < |s| ==> r[i] == LowerChar(s[i])
  {
    if s == [] then [] else [LowerChar(s[0])] + Lower(s[1..])
  }

  /** The node that lets a holder bypass every check of `category`. */
  function CategoryNode(category: CheckCategory): string {
    ARC_BYPASS + "." + Lower(category.name)
  }

  /** The node that lets a holder bypass the single check `check`. */
  function CheckNode(check: CheckType): string {
    ARC_BYPASS + "." + Lower(check.category.name) + "." + Lower(check.name)
  }

  predicate CanViewViolations(permissions: set<string>) {
    ARC_VIOLATIONS in permissions
  }

  predicate CanBypassAllChecks(permissions: set<string>) {
    ARC_BYPASS in permissions
  }

  predicate CanBypassCategory(permissions: set<string>, category: CheckCategory) {
    CategoryNode(category) in permissions
  }

  /** Whether the holder of `permissions` may bypass `check` on its own account. */
  predicate BypassesOne(permissions: set<string>, check: CheckType) {
    CanBypassCategory(permissions, check.category) || CheckNode(check) in permissions
  }

  /** The bypass rule for a list of checks: the global node, or a node for one of them. */
  predicate MayBypass(permissions: set<string>, checks: seq<CheckType>) {
    CanBypassAllChecks(permissions) || exists check :: check in checks && BypassesOne(permissions, check)
  }

  /** `canBypassChecks`: the global node first, then each listed check until one is bypassed. */
  method CanBypassChecks(permissions: set<string>, checks: seq<CheckType>) returns (r: bool)
    ensures r == MayBypass(permissions, checks)
  {
    if CanBypassAllChecks(permissions) {
      return true;
    }
    for i := 0 to |checks|
      invariant forall k :: 0 <= k < i ==> !BypassesOne(permissions, checks[k])
    {
      var check := checks[i];
      if CanBypassCategory(permissions, check.category) {
        assert BypassesOne(permissions, check) && check in checks;
        return true;
      }
      if ARC_BYPASS + "." + Lower(check.category.name) + "." + Lower(check.name) in permissions {
        assert BypassesOne(permissions, check) && check in checks;
        return true;
      }
    }
    return false;
  }

  // ---- What the rules promise ----

  /** Lower-casing twice is lower-casing once. */
  lemma LowerIsIdempotent(s: string)
    ensures Lower(Lower(s)) == Lower(s)
  {
  }

  /** Lower-casing only changes capital letters, and never produces one. */
  lemma LowerLeavesNoCapitals(s: string)
    ensures forall i :: 0 <= i < |s| ==> !('A' <= Lower(s)[i] <= 'Z')
    ensures forall i :: 0 <= i < |s| && !('A' <= s[i] <= 'Z') ==> Lower(s)[i] == s[i]
  {
  }

  /** Every bypass node starts with `arc.bypass.`, so none of them is `arc.violations` or `arc.bypass` itself. */
  lemma BypassNodesAreNotOtherNodes(check: CheckType)
    ensures CategoryNode(check.category) != ARC_VIOLATIONS && CheckNode(check) != ARC_VIOLATIONS
    ensures CategoryNode(check.category) != ARC_BYPASS && CheckNode(check) != ARC_BYPASS
  {
    assert CategoryNode(check.category)[4] == 'b' != ARC_VIOLATIONS[4];
    assert CheckNode(check)[4] == 'b';
  }

  /**
   * Viewing violations and bypassing are separate grants: `arc.violations`
   * alone bypasses nothing, and `arc.bypass` alone does not show violations.
   */
  lemma ViewingAndBypassAreSeparate(checks: seq<CheckType>)
    ensures CanViewViolations({ARC_VIOLATIONS}) && !MayBypass({ARC_VIOLATIONS}, checks)
    ensures CanBypassAllChecks({ARC_BYPASS}) && !CanViewViolations({ARC_BYPASS})
  {
    forall check | check in checks
      ensures !BypassesOne({ARC_VIOLATIONS}, check)
    {
      BypassNodesAreNotOtherNodes(check);
    }
  }

  /** Category and check nodes never grant `canBypassAllChecks`: only `arc.bypass` itself does. */
  lemma BypassAllNeedsTheGlobalNode(check: CheckType)
    ensures !CanBypassAllChecks({ARC_VIOLATIONS, CategoryNode(check.category), CheckNode(check)})
  {
    BypassNodesAreNotOtherNodes(check);
  }

  /** Holding `arc.bypass` bypasses any list, the empty one included. */
  lemma GlobalNodeBypassesEverything(permissions: set<string>, checks: seq<CheckType>)
    requires CanBypassAllChecks(permissions)
    ensures MayBypass(permissions, checks)
  {
  }

  /** A category node bypasses any list naming a check of that category. */
  lemma CategoryNodeBypassesItsChecks(permissions: set<string>, category: CheckCategory,
                                      check: CheckType, checks: seq<CheckType>)
    requires CanBypassCategory(permissions, category)
    requires check in checks && check.category == category
    ensures MayBypass(permissions, checks)
  {
  }

  /** Categories whose lower-cased names differ have different nodes. */
  lemma CategoryNodeIsPerCategory(a: CheckCategory, b: CheckCategory)
    requires Lower(a.name) != Lower(b.name)
    ensures CategoryNode(a) != CategoryNode(b)
  {
    var n := |ARC_BYPASS + "."|;
    assert CategoryNode(a)[n..] == Lower(a.name);
    assert CategoryNode(b)[n..] == Lower(b.name);
  }

  /** With nothing listed, only the global node bypasses. */
  lemma EmptyListNeedsGlobalNode(permissions: set<string>)
    ensures MayBypass(permissions, []) <==> ARC_BYPASS in permissions
  {
  }

  /** Only which checks are listed matters, not their order or repetition. */
  lemma OnlyTheListedSetMatters(permissions: set<string>, a: seq<CheckType>, b: seq<CheckType>)
    requires forall check :: check in a <==> check in b
    ensures MayBypass(permissions, a) == MayBypass(permissions, b)
  {
  }

  /**
   * A category node and a check node are different nodes: the check node has
   * the category node followed by a dot as a proper prefix.
   */
  lemma CheckNodeExtendsCategoryNode(check: CheckType)
    ensures CategoryNode(check.category) + "." <= CheckNode(check)
    ensures CategoryNode(check.category) != CheckNode(check)
  {
  }
}

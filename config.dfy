/**
 * The configuration record the quest rewrite reads (Config.cs): the
 * top-level `Config` and its thirteen removal switches `ConditionsConfig`,
 * with the derived master switch `AnyEnabled`.
 */
module Configuration {

  /** The removal switches of `ConditionsConfig`, in declaration order. */
  datatype ConditionsConfig = ConditionsConfig(
    target: bool,
    weapon: bool,
    weaponMods: bool,
    selfGear: bool,
    enemyGear: bool,
    selfHealthEffect: bool,
    enemyHealthEffect: bool,
    bodyPart: bool,
    distance: bool,
    time: bool,
    gameMap: bool,  // the `map` switch (a reserved word in Dafny)
    zone: bool,
    findInRaid: bool)

  /** The C# `Config` record; it is only ever read by the rewrite. */
  datatype Config = Config(
    revealAllQuestObjectives: bool,
    revealUnknownRewards: bool,
    removeTimeGates: bool,
    removeConditions: ConditionsConfig,
    affectRepeatables: bool,
    exemptQuests: set<string>,
    lightkeeperOnlyRequireLevel: int,
    tarkovShooterM10: bool)

  const SwitchCount: nat := 13

  /** `ConditionsConfig.AnyEnabled`: the or of the thirteen switches. */
  predicate AnyEnabled(c: ConditionsConfig) {
    c.target
    || c.weapon
    || c.weaponMods
    || c.selfGear
    || c.enemyGear
    || c.selfHealthEffect
    || c.enemyHealthEffect
    || c.bodyPart
    || c.distance
    || c.time
    || c.gameMap
    || c.zone
    || c.findInRaid
  }

  /** The switches as a sequence, in declaration order. */
  function Switches(c: ConditionsConfig): (s: seq<bool>)
    ensures |s| == SwitchCount
  {
    [c.target, c.weapon, c.weaponMods, c.selfGear, c.enemyGear,
     c.selfHealthEffect, c.enemyHealthEffect, c.bodyPart, c.distance,
     c.time, c.gameMap, c.zone, c.findInRaid]
  }

  /** All thirteen switches off. */
  const AllOff := ConditionsConfig(false, false, false, false, false, false, false,
                                   false, false, false, false, false, false)

  /** The record whose switches, in declaration order, are `s`. */
  function FromSwitches(s: seq<bool>): (c: ConditionsConfig)
    requires |s| == SwitchCount
    ensures Switches(c) == s
  {
    ConditionsConfig(s[0], s[1], s[2], s[3], s[4], s[5], s[6], s[7], s[8], s[9], s[10], s[11], s[12])
  }

  /** `c` with switch number `i` turned on and every other switch as it was. */
  function WithSwitch(c: ConditionsConfig, i: nat): (r: ConditionsConfig)
    requires i < SwitchCount
    ensures Switches(r) == Switches(c)[i := true]
  {
    FromSwitches(Switches(c)[i := true])
  }

  /** Every switch on in `a` is on in `b`. */
  predicate SwitchesBelow(a: ConditionsConfig, b: ConditionsConfig) {
    forall i :: 0 <= i < SwitchCount ==> Switches(a)[i] ==> Switches(b)[i]
  }

  /** AnyEnabled holds exactly when at least one of the thirteen switches is on. */
  lemma AnyEnabledIffSomeSwitch(c: ConditionsConfig)
    ensures AnyEnabled(c) <==> true in Switches(c)
  {
  }

  /** With every switch off, AnyEnabled is false. */
  lemma AnyEnabledFalseWhenAllOff(c: ConditionsConfig)
    requires forall i :: 0 <= i < SwitchCount ==> !Switches(c)[i]
    ensures !AnyEnabled(c)
    ensures c == AllOff
  {
    AnyEnabledIffSomeSwitch(c);
  }

  /** AnyEnabled is monotone: turning switches on never turns it off. */
  lemma AnyEnabledMonotone(a: ConditionsConfig, b: ConditionsConfig)
    requires SwitchesBelow(a, b)
    ensures AnyEnabled(a) ==> AnyEnabled(b)
  {
    AnyEnabledIffSomeSwitch(a);
    AnyEnabledIffSomeSwitch(b);
  }

  /** Turning any single switch on makes AnyEnabled true. */
  lemma AnyEnabledAfterSwitchOn(c: ConditionsConfig, i: nat)
    requires i < SwitchCount
    ensures AnyEnabled(WithSwitch(c, i))
    ensures SwitchesBelow(c, WithSwitch(c, i))
  {
    AnyEnabledIffSomeSwitch(WithSwitch(c, i));
  }

  /**
   * AnyEnabled reads none of the top-level fields: changing any of them,
   * with the removal switches kept, gives the same verdict.
   */
  lemma AnyEnabledIgnoresTopLevel(cfg: Config, other: Config)
    requires other.removeConditions == cfg.removeConditions
    ensures AnyEnabled(other.removeConditions) == AnyEnabled(cfg.removeConditions)
  {
  }
}

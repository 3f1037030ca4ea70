/**
 * Where the TypeScript version (src/mod.ts) and the C# version (Mod.cs) of
 * the quest rewrite part ways, and where they agree, stated over the two
 * models side by side.
 */
module Divergences {
  import opened Configuration
  import opened QuestData
  import opened QuestRules
  import TsMod
  import CsMod

  /** The TypeScript configuration with the same switches and patches as the C# one. */
  predicate SameSettings(ts: TsMod.ModConfig, cs: Config) {
    && ts.revealAllQuestObjectives == cs.revealAllQuestObjectives
    && ts.revealUnknownRewards == cs.revealUnknownRewards
    && ts.removeTimeGates == cs.removeTimeGates
    && ts.removeConditions == cs.removeConditions
    && ts.affectRepeatables == cs.affectRepeatables
    && ts.lightkeeperOnlyRequireLevel == cs.lightkeeperOnlyRequireLevel
    && ts.tarkovShooterM10 == cs.tarkovShooterM10
  }

  /**
   * The truthiness test of src/mod.ts and the null test of Mod.cs give the
   * same start conditions: a delay of 0 set to 0 is still 0.
   */
  lemma TimeGatesAgree(prereqs: seq<Condition>)
    ensures TsMod.ClearTimeGates(prereqs) == CsMod.ClearTimeGates(prereqs)
  {
    var a, b := TsMod.ClearTimeGates(prereqs), CsMod.ClearTimeGates(prereqs);
    forall i | 0 <= i < |prereqs| ensures a[i] == b[i] {
      if prereqs[i].availableAfter == Some(0) {
        assert prereqs[i].(availableAfter := Some(0)) == prereqs[i];
      }
    }
  }

  /** A counter without InZone leaves passes both zone stages unchanged. */
  lemma NoZoneNoConversion(
    remove: ConditionsConfig, locale: map<string, string>, key: string, questLocation: string,
    tsLocations: seq<TsMod.TsLocation>, csLocations: seq<CsMod.LocationInfo>, leaves: seq<Leaf>)
    requires FindFirst(leaves, {InZone}).None?
    ensures TsMod.ZoneStage(remove, locale, key, questLocation, tsLocations, leaves) == leaves
    ensures CsMod.ZoneStage(remove, locale, key, questLocation, csLocations, leaves) == leaves
  {
    var r := CsMod.ZoneStage(remove, locale, key, questLocation, csLocations, leaves);
    assert forall i :: 0 <= i < |leaves| ==> r[i] == leaves[i];
  }

  /**
   * A Kills/Shots leaf that is not the first one is relaxed by the C#
   * version and kept as it was by the TypeScript version.
   */
  lemma RelaxFirstVersusAll(
    ts: TsMod.ModConfig, cs: Config, items: map<string, Item>, locale: map<string, string>,
    tsLocations: seq<TsMod.TsLocation>, csLocations: seq<CsMod.LocationInfo>, questLocation: string,
    o: Condition, j: nat)
    requires SameSettings(ts, cs)
    requires o.kind == CounterCreator && FindFirst(o.counter, {InZone}).None?
    requires var filtered := RemoveToggled(cs.removeConditions, o.counter);
             && !OnlyRestrictive(filtered)
             && j < |filtered| && filtered[j].kind in KillKinds
             && FindFirst(filtered, KillKinds) != Some(j)
    ensures var filtered := RemoveToggled(cs.removeConditions, o.counter);
            var tsCounter := TsMod.RewrittenObjective(ts, items, locale, tsLocations, questLocation, o).counter;
            var csCounter := CsMod.RewrittenObjective(cs.removeConditions, locale, csLocations, questLocation, o).counter;
            && |tsCounter| == |csCounter| == |filtered|
            && tsCounter[j] == filtered[j]
            && csCounter[j] == Relax(cs.removeConditions, filtered[j])
  {
    NoZoneNoConversion(cs.removeConditions, locale, o.id, questLocation, tsLocations, csLocations, o.counter);
    TsMod.RelaxesOnlyFirstKillLeaf(ts, items, locale, tsLocations, questLocation, o, j);
    CsMod.CounterObjectiveRules(cs.removeConditions, locale, csLocations, questLocation, o);
  }

  /** A leaf of kind `k` makes the count positive. */
  lemma CountKindPositive(leaves: seq<Leaf>, k: LeafKind, i: nat)
    requires i < |leaves| && leaves[i].kind == k
    ensures CountKind(leaves, k) >= 1
  {
    CountKindZero(leaves, k);
  }

  /** Two leaves of kind `k` make the count at least two. */
  lemma {:induction false} CountKindTwo(leaves: seq<Leaf>, k: LeafKind, i: nat, j: nat)
    requires i < j < |leaves| && leaves[i].kind == k && leaves[j].kind == k
    ensures CountKind(leaves, k) >= 2
  {
    if i == 0 {
      CountKindPositive(leaves[1..], k, j - 1);
    } else {
      CountKindTwo(leaves[1..], k, i - 1, j - 1);
    }
  }

  /**
   * With two InZone leaves, no Location leaf and a matching location, the
   * C# version ends with at least two Location leaves; the TypeScript
   * version never with more than one.
   */
  lemma ZoneConversionCounts(
    remove: ConditionsConfig, locale: map<string, string>, key: string, questLocation: string,
    tsLocations: seq<TsMod.TsLocation>, csLocations: seq<CsMod.LocationInfo>, leaves: seq<Leaf>, i: nat, j: nat)
    requires remove.zone && !remove.gameMap
    requires i < j < |leaves| && leaves[i].kind == InZone && leaves[j].kind == InZone
    requires FindFirst(leaves, {Location}).None?
    requires TsMod.TextAvailable(locale, key, questLocation, tsLocations)
    requires CsMod.TextAvailable(locale, key, questLocation, csLocations)
    requires CsMod.FirstMatch(locale, key, questLocation, csLocations).Some?
    ensures CountKind(CsMod.ZoneStage(remove, locale, key, questLocation, csLocations, leaves), Location) >= 2
    ensures CountKind(TsMod.ZoneStage(remove, locale, key, questLocation, tsLocations, leaves), Location) <= 1
  {
    CsMod.ZoneStageConvertsEveryZone(remove, locale, key, questLocation, csLocations, leaves, i);
    CsMod.ZoneStageConvertsEveryZone(remove, locale, key, questLocation, csLocations, leaves, j);
    CountKindTwo(CsMod.ZoneStage(remove, locale, key, questLocation, csLocations, leaves), Location, i, j);
    TsMod.ZoneStageConvertsFirstZoneOnly(remove, locale, key, questLocation, tsLocations, leaves);
  }

  /**
   * Exempt quests are honoured by the TypeScript version only: a Kills leaf
   * with a specific target keeps it there and loses it in the C# version
   * when target removal is on.
   */
  lemma ExemptionIgnoredByCs(
    ts: TsMod.ModConfig, cs: Config, items: map<string, Item>, locale: map<string, string>,
    tsLocations: seq<TsMod.TsLocation>, csLocations: seq<CsMod.LocationInfo>, q: Quest, i: nat)
    requires SameSettings(ts, cs) && q.id in ts.exemptQuests
    requires cs.removeConditions.target
    requires CsMod.QuestReady(cs, locale, csLocations, q)
    requires i < |q.availableForFinish|
    requires var o := q.availableForFinish[i];
             && o.kind == CounterCreator && |o.counter| == 1
             && o.counter[0].kind == Kills && o.counter[0].target != Single(AnyTarget)
    ensures var r := TsMod.RewrittenQuest(ts, items, locale, tsLocations, q).availableForFinish;
            i < |r| && r[i].counter == q.availableForFinish[i].counter
    ensures var r := CsMod.RewrittenQuest(cs, locale, csLocations, q).availableForFinish;
            i < |r| && |r[i].counter| == 1 && r[i].counter[0].target == Single(AnyTarget)
  {
    var o := q.availableForFinish[i];
    var remove := cs.removeConditions;
    TsMod.ExemptQuestObjectivesUntouched(ts, items, locale, tsLocations, q);
    NoZoneNoConversion(remove, locale, o.id, q.location, tsLocations, csLocations, o.counter);
    assert RemoveToggled(remove, o.counter) == o.counter;
    assert !OnlyRestrictive(o.counter);
    var g := CsMod.GlobalRules(cs, q).availableForFinish[i];
    assert SameShape(g, o);
    NoZoneNoConversion(remove, locale, g.id, q.location, tsLocations, csLocations, g.counter);
    assert RemoveToggled(remove, g.counter) == g.counter;
    CsMod.CounterObjectiveRules(remove, locale, csLocations, q.location, g);
  }

  /**
   * Tarkov Shooter patch: the TypeScript version adds the rifle to Kills
   * leaves only, the C# version to Shots leaves as well.
   */
  lemma M10ShotsDivergence(ts: TsMod.ModConfig, cs: Config, quests: map<string, Quest>, n: nat, a: nat, b: nat)
    requires SameSettings(ts, cs) && cs.tarkovShooterM10
    requires PatchTargetsPresent(cs.lightkeeperOnlyRequireLevel, cs.tarkovShooterM10, quests)
    requires n < |TarkovShooter|
    requires var q := quests[TarkovShooter[n]];
             && a < |q.availableForFinish| && q.availableForFinish[a].kind == CounterCreator
             && b < |q.availableForFinish[a].counter| && q.availableForFinish[a].counter[b].kind == Shots
    ensures var k := TarkovShooter[n];
            TsMod.PatchedQuests(ts, quests)[k]
            == quests[k].(availableForFinish := ObjectivesWithWeapon(quests[k].availableForFinish, TrgM10, {Kills}))
    ensures var k := TarkovShooter[n];
            CsMod.PatchedQuests(cs, quests)[k]
            == quests[k].(availableForFinish := ObjectivesWithWeapon(quests[k].availableForFinish, TrgM10, KillKinds))
    ensures var objectives := quests[TarkovShooter[n]].availableForFinish;
            && ObjectivesWithWeapon(objectives, TrgM10, {Kills})[a].counter[b] == objectives[a].counter[b]
            && ObjectivesWithWeapon(objectives, TrgM10, KillKinds)[a].counter[b].weapon
               == objectives[a].counter[b].weapon + [TrgM10]
  {
    TarkovShooterPatched(cs.lightkeeperOnlyRequireLevel, quests, {Kills}, n);
    TarkovShooterPatched(cs.lightkeeperOnlyRequireLevel, quests, KillKinds, n);
  }

  /**
   * The elimination blocks of a template with elimination blocks are
   * relaxed by the TypeScript version and left as they were by the C#
   * version, whose guard skips them.
   */
  lemma EliminationsDiverge(ts: TsMod.ModConfig, cs: Config, templates: seq<RepeatableTemplate>, i: nat)
    requires SameSettings(ts, cs) && AnyEnabled(cs.removeConditions) && cs.affectRepeatables
    requires cs.removeConditions.distance
    requires i < |templates| && templates[i].elimination.Some? && |templates[i].elimination.value| > 0
    requires templates[i].elimination.value[0].distProb != 0.0
    ensures TsMod.TemplatesAfter(ts, templates)[i].elimination.value[0].distProb == 0.0
    ensures CsMod.TemplatesAfter(cs, templates)[i].elimination == templates[i].elimination
  {
  }

  /**
   * The hand-in count exists only in the TypeScript configuration: with a
   * count configured, an ordinary hand-in item gets it there, whichever
   * removal switches are on, while the C# version never changes a hand-in
   * objective's value.
   */
  lemma HandoverCountTsOnly(
    ts: TsMod.ModConfig, cs: Config, items: map<string, Item>, locale: map<string, string>,
    tsLocations: seq<TsMod.TsLocation>, csLocations: seq<CsMod.LocationInfo>, q: Quest, i: nat)
    requires SameSettings(ts, cs)
    requires ts.handoverItemCount >= 0 && q.id !in ts.exemptQuests
    requires TsMod.QuestReady(ts, items, locale, tsLocations, q)
    requires CsMod.QuestReady(cs, locale, csLocations, q)
    requires i < |q.availableForFinish|
    requires var o := q.availableForFinish[i];
             IsHandover(o) && TsMod.ItemKnown(items, o) && TsMod.CountOverridable(items[TsMod.ItemKey(o.target)])
    ensures TsMod.RewrittenQuest(ts, items, locale, tsLocations, q).availableForFinish[i].value == ts.handoverItemCount
    ensures CsMod.RewrittenQuest(cs, locale, csLocations, q).availableForFinish[i].value == q.availableForFinish[i].value
  {
    var g := TsMod.GlobalRules(ts, q).availableForFinish[i];
    assert SameShape(g, q.availableForFinish[i]);
    TsMod.HandoverOverride(ts, items, locale, tsLocations, q.location, g);
    var c := CsMod.GlobalRules(cs, q).availableForFinish[i];
    assert SameShape(c, q.availableForFinish[i]);
    CsMod.HandoverObjectiveRules(cs.removeConditions, locale, csLocations, q.location, c);
  }
}

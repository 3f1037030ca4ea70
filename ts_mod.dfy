/**
 * The TypeScript version of the quest rewrite (src/mod.ts, `Mod.postDBLoad`):
 * the location table, the global per-quest rules, the Network Provider and
 * Tarkov Shooter patches, the per-objective pipeline (hand-in override, zone
 * conversion, leaf removal, auto-complete, relaxation of the first kill/shot
 * leaf) and the repeatable-template rules.
 */
module TsMod {
  import opened Configuration
  import opened QuestData
  import opened QuestRules

  /** The configuration record as src/mod.ts reads it. */
  datatype ModConfig = ModConfig(
    revealAllQuestObjectives: bool,
    revealUnknownRewards: bool,
    removeTimeGates: bool,
    removeConditions: ConditionsConfig,
    affectRepeatables: bool,
    exemptQuests: set<string>,
    lightkeeperOnlyRequireLevel: int,
    handoverItemCount: int,
    eliminationCount: int,
    tarkovShooterM10: bool)

  /** Parent classes of keys (the host's BaseClasses KEY, KEY_MECHANICAL, KEYCARD), kept opaque. */
  const KeyClasses: set<string> :=
    {"BaseClasses.KEY", "BaseClasses.KEY_MECHANICAL", "BaseClasses.KEYCARD"}

  /** Items whose hand-in count is never overridden (host ItemTpl ids, kept opaque). */
  const HandoverCountItemBlacklist: set<string> := {
    "ItemTpl.RADIOTRANSMITTER_DIGITAL_SECURE_DSP_RADIO_TRANSMITTER",
    "ItemTpl.BARTER_KOSA_UAV_ELECTRONIC_JAMMING_DEVICE",
    "ItemTpl.INFO_NOTE_WITH_CODE_WORD_VORON"
  }

  /** `shouldModifyConditions`: a removal switch is on or a count override is configured. */
  predicate ShouldModifyConditions(cfg: ModConfig) {
    AnyEnabled(cfg.removeConditions) || cfg.handoverItemCount >= 0 || cfg.eliminationCount >= 0
  }

  // ---------------------------------------------------------------------
  // Location table
  // ---------------------------------------------------------------------

  /** A `[name, id, mongoId]` row; the name may be undefined. */
  datatype TsLocation = TsLocation(name: Option<string>, id: string, mongoId: string)

  /** `enLocale[key]`: the text, or undefined. */
  function LocaleText(locale: map<string, string>, key: string): Option<string> {
    if key in locale then Some(locale[key]) else None
  }

  /**
   * `enLocale[base.Id] || enLocale[base._Id + " Name"]`: an undefined or
   * empty first lookup falls back to the second.
   */
  function DisplayName(locale: map<string, string>, b: LocationBase): Option<string> {
    var first := LocaleText(locale, b.id);
    if first.Some? && first.value != "" then first else LocaleText(locale, b.mongoId + " Name")
  }

  function Row(locale: map<string, string>, b: LocationBase): TsLocation {
    TsLocation(DisplayName(locale, b), b.id, b.mongoId)
  }

  /** The enabled locations, in order, as rows. */
  function EnabledLocations(entries: seq<LocationEntry>, locale: map<string, string>): seq<TsLocation> {
    if entries == [] then []
    else (if IsEnabled(entries[0]) then [Row(locale, entries[0].base.value)] else [])
         + EnabledLocations(entries[1..], locale)
  }

  const FactoryNightKey := "factory4_night"

  /** The `base` of the first entry named `key`. */
  function BaseOf(entries: seq<LocationEntry>, key: string): Option<LocationBase> {
    if entries == [] then None
    else if entries[0].key == key then entries[0].base
    else BaseOf(entries[1..], key)
  }

  /** The location table: the enabled locations, then night Factory named "Factory". */
  function LocationTable(entries: seq<LocationEntry>, locale: map<string, string>): seq<TsLocation>
    requires BaseOf(entries, FactoryNightKey).Some?
  {
    var night := BaseOf(entries, FactoryNightKey).value;
    EnabledLocations(entries, locale) + [TsLocation(Some("Factory"), night.id, night.mongoId)]
  }

  /** Some enabled entry of `entries` produced the row `r`. */
  predicate RowOfEnabledEntry(entries: seq<LocationEntry>, locale: map<string, string>, r: TsLocation) {
    exists j :: 0 <= j < |entries| && IsEnabled(entries[j]) && r == Row(locale, entries[j].base.value)
  }

  /** A row is in the enabled part exactly when some enabled entry produced it. */
  lemma {:induction false} EnabledLocationsExactly(entries: seq<LocationEntry>, locale: map<string, string>)
    ensures |EnabledLocations(entries, locale)| <= |entries|
    ensures forall r :: r in EnabledLocations(entries, locale) <==>
              exists j :: 0 <= j < |entries| && IsEnabled(entries[j]) && r == Row(locale, entries[j].base.value)
  {
    if entries != [] {
      EnabledLocationsExactly(entries[1..], locale);
      forall r | (exists j :: 0 <= j < |entries| && IsEnabled(entries[j]) && r == Row(locale, entries[j].base.value))
        ensures r in EnabledLocations(entries, locale)
      {
        var j :| 0 <= j < |entries| && IsEnabled(entries[j]) && r == Row(locale, entries[j].base.value);
        if j > 0 {
          assert entries[1..][j - 1] == entries[j];
        }
      }
      forall r | r in EnabledLocations(entries[1..], locale)
        ensures exists j :: 0 <= j < |entries| && IsEnabled(entries[j]) && r == Row(locale, entries[j].base.value)
      {
        var j :| 0 <= j < |entries[1..]| && IsEnabled(entries[1..][j]) && r == Row(locale, entries[1..][j].base.value);
        assert entries[j + 1] == entries[1..][j];
      }
    }
  }

  /**
   * The table holds one row per enabled location, then night Factory under
   * the literal name "Factory".
   */
  lemma LocationTableShape(entries: seq<LocationEntry>, locale: map<string, string>)
    requires BaseOf(entries, FactoryNightKey).Some?
    ensures 1 <= |LocationTable(entries, locale)| <= |entries| + 1
    ensures var t, night := LocationTable(entries, locale), BaseOf(entries, FactoryNightKey).value;
            t[|t| - 1] == TsLocation(Some("Factory"), night.id, night.mongoId)
    ensures forall i :: 0 <= i < |LocationTable(entries, locale)| - 1 ==>
              RowOfEnabledEntry(entries, locale, LocationTable(entries, locale)[i])
  {
    EnabledLocationsExactly(entries, locale);
    var t, enabled := LocationTable(entries, locale), EnabledLocations(entries, locale);
    forall i | 0 <= i < |t| - 1 ensures RowOfEnabledEntry(entries, locale, t[i]) {
      assert t[i] == enabled[i];
      assert enabled[i] in enabled;
    }
  }

  // ---------------------------------------------------------------------
  // Zone conversion
  // ---------------------------------------------------------------------

  /** `text.includes(name)`: an undefined name is searched for as the string "undefined". */
  predicate Includes(text: string, name: Option<string>) {
    Contains(text, if name.Some? then name.value else "undefined")
  }

  /**
   * The objective's text `enLocale[key]` is defined wherever the scan reads
   * it: the scan reads it for every location whose mongo id is not the
   * quest's location.
   */
  predicate TextAvailable(locale: map<string, string>, key: string, questLocation: string, locations: seq<TsLocation>) {
    key in locale || forall i :: 0 <= i < |locations| ==> locations[i].mongoId == questLocation
  }

  /** The quest is on the location's map, or the objective text names the location. */
  predicate Matches(locale: map<string, string>, key: string, questLocation: string, loc: TsLocation)
    requires loc.mongoId == questLocation || key in locale
  {
    questLocation == loc.mongoId || Includes(locale[key], loc.name)
  }

  /** The ids of all matching locations, in table order. */
  function MatchingIds(locale: map<string, string>, key: string, questLocation: string, locations: seq<TsLocation>)
    : seq<string>
    requires TextAvailable(locale, key, questLocation, locations)
    decreases |locations|
  {
    if locations == [] then []
    else
      var init, last := locations[..|locations| - 1], locations[|locations| - 1];
      assert forall i :: 0 <= i < |init| ==> init[i] == locations[i];
      MatchingIds(locale, key, questLocation, init)
      + (if Matches(locale, key, questLocation, last) then [last.id] else [])
  }

  /** An id is listed exactly when some location with that id matches. */
  lemma {:induction false} MatchingIdsExactly(
    locale: map<string, string>, key: string, questLocation: string, locations: seq<TsLocation>)
    requires TextAvailable(locale, key, questLocation, locations)
    ensures forall id :: id in MatchingIds(locale, key, questLocation, locations) <==>
              exists j :: 0 <= j < |locations| && locations[j].id == id
                          && Matches(locale, key, questLocation, locations[j])
  {
    if locations != [] {
      var init := locations[..|locations| - 1];
      assert forall i :: 0 <= i < |init| ==> init[i] == locations[i];
      MatchingIdsExactly(locale, key, questLocation, init);
    }
  }

  /** The zone leaf rewritten for the matched ids; unchanged when nothing matched. */
  function ZoneToLocation(zone: Leaf, ids: seq<string>): Leaf {
    if ids == [] then zone else zone.(kind := Location, zoneIds := None, target := Many(ids))
  }

  /**
   * The scan over the location table for one InZone leaf: the first match
   * turns it into a Location leaf targeting that location, each later match
   * appends its id to the target list.
   */
  method ConvertZoneLeaf(
    locale: map<string, string>, key: string, questLocation: string, locations: seq<TsLocation>, zone: Leaf)
    returns (leaf: Leaf)
    requires zone.kind == InZone
    requires TextAvailable(locale, key, questLocation, locations)
    ensures leaf == ZoneToLocation(zone, MatchingIds(locale, key, questLocation, locations))
  {
    leaf := zone;
    for i := 0 to |locations|
      invariant TextAvailable(locale, key, questLocation, locations[..i])
      invariant leaf == ZoneToLocation(zone, MatchingIds(locale, key, questLocation, locations[..i]))
    {
      assert locations[..i + 1][..i] == locations[..i];
      assert locations[..i + 1][i] == locations[i];
      var loc := locations[i];
      assert MatchingIds(locale, key, questLocation, locations[..i + 1])
          == MatchingIds(locale, key, questLocation, locations[..i])
             + (if Matches(locale, key, questLocation, loc) then [loc.id] else []);
      ghost var ids := MatchingIds(locale, key, questLocation, locations[..i]);
      if questLocation == loc.mongoId || Includes(locale[key], loc.name) {
        if leaf.kind == Location {
          assert ids != [] && leaf.target == Many(ids);
          leaf := leaf.(target := Many(leaf.target.ids + [loc.id]));
        } else {
          assert ids == [] && leaf == zone && ids + [loc.id] == [loc.id];
          leaf := leaf.(zoneIds := None, kind := Location, target := Many([loc.id]));
        }
        assert Matches(locale, key, questLocation, loc);
        assert leaf == ZoneToLocation(zone, ids + [loc.id]);
      } else {
        assert !Matches(locale, key, questLocation, loc);
        assert ids + [] == ids;
      }
    }
    assert locations[..|locations|] == locations;
  }

  /** Zone on, map off, some InZone leaf and no Location leaf: the scan runs. */
  predicate ScansZone(remove: ConditionsConfig, leaves: seq<Leaf>) {
    remove.zone && !remove.gameMap && FindFirst(leaves, {InZone}).Some? && FindFirst(leaves, {Location}).None?
  }

  /** The counter after the zone-conversion step. */
  function ZoneStage(
    remove: ConditionsConfig, locale: map<string, string>, key: string, questLocation: string,
    locations: seq<TsLocation>, leaves: seq<Leaf>): seq<Leaf>
    requires ScansZone(remove, leaves) ==> TextAvailable(locale, key, questLocation, locations)
  {
    if ScansZone(remove, leaves) then
      var z := FindFirst(leaves, {InZone}).value;
      leaves[z := ZoneToLocation(leaves[z], MatchingIds(locale, key, questLocation, locations))]
    else leaves
  }

  /**
   * Zone conversion rewrites at most the first InZone leaf, only when the
   * scan runs, and never leaves more than one Location leaf.
   */
  lemma ZoneStageConvertsFirstZoneOnly(
    remove: ConditionsConfig, locale: map<string, string>, key: string, questLocation: string,
    locations: seq<TsLocation>, leaves: seq<Leaf>)
    requires ScansZone(remove, leaves) ==> TextAvailable(locale, key, questLocation, locations)
    ensures var r := ZoneStage(remove, locale, key, questLocation, locations, leaves);
            && |r| == |leaves|
            && (!ScansZone(remove, leaves) ==> r == leaves)
            && (ScansZone(remove, leaves) ==>
                  var z, ids := FindFirst(leaves, {InZone}).value, MatchingIds(locale, key, questLocation, locations);
                  && (forall j :: 0 <= j < |leaves| && j != z ==> r[j] == leaves[j])
                  && (ids == [] ==> r[z] == leaves[z])
                  && (ids != [] ==> r[z].kind == Location && r[z].target == Many(ids) && r[z].zoneIds == None)
                  && CountKind(r, Location) <= 1)
  {
    if ScansZone(remove, leaves) {
      var z := FindFirst(leaves, {InZone}).value;
      var ids := MatchingIds(locale, key, questLocation, locations);
      CountKindZero(leaves, Location);
      CountKindUpdate(leaves, z, ZoneToLocation(leaves[z], ids), Location);
    }
  }

  // ---------------------------------------------------------------------
  // Hand-in override
  // ---------------------------------------------------------------------

  /**
   * `target[0]` used as a property key: a list target's first id, a string
   * target's first character, or "undefined" (the key JavaScript makes of
   * an undefined index) when the target is empty.
   */
  function ItemKey(t: Target): string {
    match t
    case Many(ids) => if ids == [] then "undefined" else ids[0]
    case Single(s) => if s == "" then "undefined" else s[..1]
  }

  /** The item is neither a quest item, nor a key, nor blacklisted. */
  predicate CountOverridable(item: Item) {
    !item.questItem && item.parent !in KeyClasses && item.id !in HandoverCountItemBlacklist
  }

  /** `items[objective.target[0]]` is an item, not undefined. */
  predicate ItemKnown(items: map<string, Item>, o: Condition) {
    ItemKey(o.target) in items
  }

  /**
   * The source reads the item's properties only once the configured count
   * is non-negative: with a negative count an unknown item is harmless.
   */
  predicate HandoverReady(cfg: ModConfig, items: map<string, Item>, o: Condition) {
    IsHandover(o) && cfg.handoverItemCount >= 0 ==> ItemKnown(items, o)
  }

  function HandoverStage(cfg: ModConfig, items: map<string, Item>, o: Condition): Condition
    requires HandoverReady(cfg, items, o)
  {
    if IsHandover(o) then
      var o := if cfg.removeConditions.findInRaid then o.(onlyFoundInRaid := false) else o;
      if cfg.handoverItemCount >= 0 && CountOverridable(items[ItemKey(o.target)])
      then o.(value := cfg.handoverItemCount)
      else o
    else o
  }

  // ---------------------------------------------------------------------
  // The per-objective pipeline
  // ---------------------------------------------------------------------

  /** The lookups the pipeline makes for this objective are defined. */
  predicate ObjectiveReady(
    cfg: ModConfig, items: map<string, Item>, locale: map<string, string>,
    locations: seq<TsLocation>, questLocation: string, o: Condition)
  {
    && HandoverReady(cfg, items, o)
    && (o.kind == CounterCreator && ScansZone(cfg.removeConditions, o.counter) ==>
          TextAvailable(locale, o.id, questLocation, locations))
  }

  /** The auto-complete test and the relaxation of the first Kills/Shots leaf. */
  function RelaxStage(cfg: ModConfig, o: Condition, leaves: seq<Leaf>): Condition {
    if OnlyRestrictive(leaves) then o.(counter := leaves, value := 0)
    else match FindFirst(leaves, KillKinds)
      case None => o.(counter := leaves)
      case Some(k) =>
        o.(counter := leaves[k := Relax(cfg.removeConditions, leaves[k])],
           value := if cfg.eliminationCount >= 0 && leaves[k].kind == Kills then cfg.eliminationCount else o.value)
  }

  /** The leaves left after zone conversion and removal. */
  function FilteredLeaves(
    cfg: ModConfig, locale: map<string, string>, locations: seq<TsLocation>, questLocation: string, o: Condition)
    : seq<Leaf>
    requires ScansZone(cfg.removeConditions, o.counter) ==> TextAvailable(locale, o.id, questLocation, locations)
  {
    RemoveToggled(cfg.removeConditions,
                  ZoneStage(cfg.removeConditions, locale, o.id, questLocation, locations, o.counter))
  }

  /** One finish objective after the per-objective pipeline. */
  function RewrittenObjective(
    cfg: ModConfig, items: map<string, Item>, locale: map<string, string>,
    locations: seq<TsLocation>, questLocation: string, o: Condition): Condition
    requires ObjectiveReady(cfg, items, locale, locations, questLocation, o)
  {
    if o.kind != CounterCreator then HandoverStage(cfg, items, o)
    else RelaxStage(cfg, o, FilteredLeaves(cfg, locale, locations, questLocation, o))
  }

  /** The hand-in branch of the objective loop: found-in-raid, then the count override. */
  method OverrideHandover(cfg: ModConfig, items: map<string, Item>, objective: Condition) returns (o: Condition)
    requires IsHandover(objective) && HandoverReady(cfg, items, objective)
    ensures o == HandoverStage(cfg, items, objective)
  {
    o := objective;
    if cfg.removeConditions.findInRaid {
      o := o.(onlyFoundInRaid := false);
    }
    if cfg.handoverItemCount >= 0 {
      var item := items[ItemKey(o.target)];
      if !item.questItem && item.parent !in KeyClasses && item.id !in HandoverCountItemBlacklist {
        o := o.(value := cfg.handoverItemCount);
      }
    }
  }

  /** The zone branch: find the InZone and Location leaves, scan if only the former exists. */
  method ConvertZones(
    remove: ConditionsConfig, locale: map<string, string>, key: string, questLocation: string,
    locations: seq<TsLocation>, leaves: seq<Leaf>)
    returns (r: seq<Leaf>)
    requires ScansZone(remove, leaves) ==> TextAvailable(locale, key, questLocation, locations)
    ensures r == ZoneStage(remove, locale, key, questLocation, locations, leaves)
  {
    r := leaves;
    if remove.zone && !remove.gameMap {
      var zoneIndex := FindFirst(leaves, {InZone});
      var mapIndex := FindFirst(leaves, {Location});
      if zoneIndex.Some? && mapIndex.None? {
        var converted := ConvertZoneLeaf(locale, key, questLocation, locations, leaves[zoneIndex.value]);
        r := leaves[zoneIndex.value := converted];
      }
    }
  }

  /** The auto-complete test, then the relaxation of the first Kills/Shots leaf. */
  method RelaxFirstKill(cfg: ModConfig, objective: Condition, conditions: seq<Leaf>) returns (o: Condition)
    ensures o == RelaxStage(cfg, objective, conditions)
  {
    o := objective.(counter := conditions);
    if OnlyRestrictive(conditions) {
      o := o.(value := 0);
      return;
    }
    var killIndex := FindFirst(conditions, KillKinds);
    if killIndex.None? {
      return;
    }
    var k := killIndex.value;
    if cfg.eliminationCount >= 0 && conditions[k].kind == Kills {
      o := o.(value := cfg.eliminationCount);
    }
    o := o.(counter := conditions[k := Relax(cfg.removeConditions, conditions[k])]);
  }

  /** The body of the objective loop. */
  method RewriteObjective(
    cfg: ModConfig, items: map<string, Item>, locale: map<string, string>,
    locations: seq<TsLocation>, questLocation: string, objective: Condition)
    returns (o: Condition)
    requires ObjectiveReady(cfg, items, locale, locations, questLocation, objective)
    ensures o == RewrittenObjective(cfg, items, locale, locations, questLocation, objective)
  {
    if objective.kind == HandoverItem || objective.kind == FindItem {
      o := OverrideHandover(cfg, items, objective);
      return;
    }
    o := objective;
    if o.kind != CounterCreator {
      return;
    }
    var converted := ConvertZones(cfg.removeConditions, locale, o.id, questLocation, locations, o.counter);
    var conditions := RemoveToggled(cfg.removeConditions, converted);
    o := RelaxFirstKill(cfg, o, conditions);
  }

  // ---------------------------------------------------------------------
  // Properties of the per-objective pipeline
  // ---------------------------------------------------------------------

  /**
   * A hand-in objective gets the configured count exactly when the count is
   * non-negative and the item may be overridden; its counter is untouched
   * and found-in-raid is cleared when configured.
   */
  lemma HandoverOverride(
    cfg: ModConfig, items: map<string, Item>, locale: map<string, string>,
    locations: seq<TsLocation>, questLocation: string, o: Condition)
    requires IsHandover(o) && HandoverReady(cfg, items, o)
    ensures var r := RewrittenObjective(cfg, items, locale, locations, questLocation, o);
            && (cfg.handoverItemCount < 0 ==> r.value == o.value)
            && (cfg.handoverItemCount >= 0 && CountOverridable(items[ItemKey(o.target)]) ==>
                  r.value == cfg.handoverItemCount)
            && (cfg.handoverItemCount >= 0 && !CountOverridable(items[ItemKey(o.target)]) ==>
                  r.value == o.value)
            && r.onlyFoundInRaid == (o.onlyFoundInRaid && !cfg.removeConditions.findInRaid)
            && r.counter == o.counter && r.kind == o.kind && r.target == o.target
  {
  }

  /** A quest item, key or blacklisted item keeps its count, whatever count is configured. */
  lemma HandoverNeverOverridesProtectedItems(
    cfg: ModConfig, items: map<string, Item>, locale: map<string, string>,
    locations: seq<TsLocation>, questLocation: string, o: Condition)
    requires IsHandover(o) && ItemKnown(items, o)
    requires var item := items[ItemKey(o.target)];
             item.questItem || item.parent in KeyClasses || item.id in HandoverCountItemBlacklist
    ensures RewrittenObjective(cfg, items, locale, locations, questLocation, o).value == o.value
  {
  }

  /**
   * After the pipeline no leaf of a counter is of a kind a switched-on
   * toggle removes; the surviving leaves are those of the zone stage
   * that no toggle selects, in order, up to the relaxation of one leaf.
   */
  lemma NoToggledLeafSurvives(
    cfg: ModConfig, items: map<string, Item>, locale: map<string, string>,
    locations: seq<TsLocation>, questLocation: string, o: Condition)
    requires o.kind == CounterCreator
    requires ObjectiveReady(cfg, items, locale, locations, questLocation, o)
    ensures var r := RewrittenObjective(cfg, items, locale, locations, questLocation, o);
            var filtered := FilteredLeaves(cfg, locale, locations, questLocation, o);
            && SameKinds(r.counter, filtered)
            && (forall i :: 0 <= i < |r.counter| ==> !Toggled(cfg.removeConditions, r.counter[i]))
  {
    var filtered := FilteredLeaves(cfg, locale, locations, questLocation, o);
    RemoveToggledSound(cfg.removeConditions,
      ZoneStage(cfg.removeConditions, locale, o.id, questLocation, locations, o.counter));
    var r := RewrittenObjective(cfg, items, locale, locations, questLocation, o);
    assert r == RelaxStage(cfg, o, filtered);
    RelaxStageKeepsKinds(cfg, o, filtered);
    assert forall i :: 0 <= i < |r.counter| ==> r.counter[i].kind == filtered[i].kind;
  }

  /** The auto-complete and relaxation step changes no leaf's kind. */
  lemma RelaxStageKeepsKinds(cfg: ModConfig, o: Condition, leaves: seq<Leaf>)
    ensures SameKinds(RelaxStage(cfg, o, leaves).counter, leaves)
  {
  }

  /**
   * Auto-complete: when only Equipment/Location/InZone leaves survive (or
   * none), the required value becomes 0 and no leaf is relaxed.
   */
  lemma AutoCompleteWhenOnlyRestrictive(
    cfg: ModConfig, items: map<string, Item>, locale: map<string, string>,
    locations: seq<TsLocation>, questLocation: string, o: Condition)
    requires o.kind == CounterCreator
    requires ObjectiveReady(cfg, items, locale, locations, questLocation, o)
    requires OnlyRestrictive(FilteredLeaves(cfg, locale, locations, questLocation, o))
    ensures var r := RewrittenObjective(cfg, items, locale, locations, questLocation, o);
            r.value == 0 && r.counter == FilteredLeaves(cfg, locale, locations, questLocation, o)
  {
  }

  /**
   * Only the first Kills/Shots leaf is relaxed; every other surviving leaf
   * is kept as it was.
   */
  lemma RelaxesOnlyFirstKillLeaf(
    cfg: ModConfig, items: map<string, Item>, locale: map<string, string>,
    locations: seq<TsLocation>, questLocation: string, o: Condition, j: nat)
    requires o.kind == CounterCreator
    requires ObjectiveReady(cfg, items, locale, locations, questLocation, o)
    requires j < |FilteredLeaves(cfg, locale, locations, questLocation, o)|
    ensures var r, filtered := RewrittenObjective(cfg, items, locale, locations, questLocation, o),
                               FilteredLeaves(cfg, locale, locations, questLocation, o);
            var first := FindFirst(filtered, KillKinds);
            && |r.counter| == |filtered|
            && (!OnlyRestrictive(filtered) && first == Some(j) ==> r.counter[j] == Relax(cfg.removeConditions, filtered[j]))
            && (OnlyRestrictive(filtered) || first != Some(j) ==> r.counter[j] == filtered[j])
  {
  }

  /**
   * The elimination count replaces the value exactly when it is configured
   * and the relaxed leaf is a Kills leaf (a Shots leaf keeps the value);
   * otherwise only the auto-complete changes it.
   */
  lemma EliminationCountOnlyForKills(
    cfg: ModConfig, items: map<string, Item>, locale: map<string, string>,
    locations: seq<TsLocation>, questLocation: string, o: Condition)
    requires o.kind == CounterCreator
    requires ObjectiveReady(cfg, items, locale, locations, questLocation, o)
    ensures var r, filtered := RewrittenObjective(cfg, items, locale, locations, questLocation, o),
                               FilteredLeaves(cfg, locale, locations, questLocation, o);
            r.value != o.value ==>
              (OnlyRestrictive(filtered) && r.value == 0)
              || (cfg.eliminationCount >= 0 && r.value == cfg.eliminationCount
                  && FindFirst(filtered, KillKinds).Some?
                  && filtered[FindFirst(filtered, KillKinds).value].kind == Kills)
    ensures var r, filtered := RewrittenObjective(cfg, items, locale, locations, questLocation, o),
                               FilteredLeaves(cfg, locale, locations, questLocation, o);
            var first := FindFirst(filtered, KillKinds);
            !OnlyRestrictive(filtered) && cfg.eliminationCount >= 0 && first.Some?
              && filtered[first.value].kind == Kills ==>
              r.value == cfg.eliminationCount
  {
  }

  // ---------------------------------------------------------------------
  // Global rules and the per-quest loop
  // ---------------------------------------------------------------------

  /** `if (prereq.availableAfter) prereq.availableAfter = 0`: a truthy delay becomes 0. */
  function ClearTimeGates(prereqs: seq<Condition>): seq<Condition> {
    seq(|prereqs|, i requires 0 <= i < |prereqs| =>
      if prereqs[i].availableAfter.Some? && prereqs[i].availableAfter.value != 0
      then prereqs[i].(availableAfter := Some(0))
      else prereqs[i])
  }

  /** The three global rules, each under its own switch. */
  function GlobalRules(cfg: ModConfig, q: Quest): Quest {
    q.(availableForFinish := if cfg.revealAllQuestObjectives then RevealObjectives(q.availableForFinish)
                             else q.availableForFinish,
       successRewards := if cfg.revealUnknownRewards then RevealRewards(q.successRewards) else q.successRewards,
       availableForStart := if cfg.removeTimeGates then ClearTimeGates(q.availableForStart)
                            else q.availableForStart)
  }

  /** The quest is not exempt and the per-objective pipeline runs at all. */
  predicate PipelineRuns(cfg: ModConfig, q: Quest) {
    q.id !in cfg.exemptQuests && ShouldModifyConditions(cfg)
  }

  /** Every lookup the pipeline makes for this quest is defined. */
  predicate QuestReady(
    cfg: ModConfig, items: map<string, Item>, locale: map<string, string>, locations: seq<TsLocation>, q: Quest)
  {
    PipelineRuns(cfg, q) ==>
      forall i :: 0 <= i < |q.availableForFinish| ==>
        ObjectiveReady(cfg, items, locale, locations, q.location, q.availableForFinish[i])
  }

  /** One quest after the body of the quest loop. */
  function RewrittenQuest(
    cfg: ModConfig, items: map<string, Item>, locale: map<string, string>, locations: seq<TsLocation>, q: Quest)
    : Quest
    requires QuestReady(cfg, items, locale, locations, q)
  {
    var g := GlobalRules(cfg, q);
    if !PipelineRuns(cfg, q) then g
    else
      var objectives := g.availableForFinish;
      assert forall i :: 0 <= i < |objectives| ==> SameShape(objectives[i], q.availableForFinish[i]);
      g.(availableForFinish := seq(|objectives|, i requires 0 <= i < |objectives| =>
           RewrittenObjective(cfg, items, locale, locations, q.location, objectives[i])))
  }

  /** The loop zeroing every truthy start delay. */
  method ClearTimeGatesLoop(prereqs: seq<Condition>) returns (r: seq<Condition>)
    ensures r == ClearTimeGates(prereqs)
  {
    r := prereqs;
    var i := 0;
    while i < |r|
      invariant 0 <= i <= |r| == |prereqs|
      invariant forall j :: 0 <= j < i ==> r[j] == ClearTimeGates(prereqs)[j]
      invariant forall j :: i <= j < |r| ==> r[j] == prereqs[j]
    {
      if r[i].availableAfter.Some? && r[i].availableAfter.value != 0 {
        r := r[i := r[i].(availableAfter := Some(0))];
      }
      i := i + 1;
    }
  }

  /** The objective loop of one quest. */
  method RewriteObjectives(
    cfg: ModConfig, items: map<string, Item>, locale: map<string, string>, locations: seq<TsLocation>,
    questLocation: string, objectives: seq<Condition>)
    returns (r: seq<Condition>)
    requires forall i :: 0 <= i < |objectives| ==>
               ObjectiveReady(cfg, items, locale, locations, questLocation, objectives[i])
    ensures |r| == |objectives|
    ensures forall i :: 0 <= i < |objectives| ==>
              r[i] == RewrittenObjective(cfg, items, locale, locations, questLocation, objectives[i])
  {
    r := objectives;
    var i := 0;
    while i < |r|
      invariant 0 <= i <= |r| == |objectives|
      invariant forall j :: 0 <= j < i ==>
                  r[j] == RewrittenObjective(cfg, items, locale, locations, questLocation, objectives[j])
      invariant forall j :: i <= j < |r| ==> r[j] == objectives[j]
    {
      var o := RewriteObjective(cfg, items, locale, locations, questLocation, r[i]);
      r := r[i := o];
      i := i + 1;
    }
  }

  /** The body of the quest loop: the global rules, then the objective pipeline. */
  method RewriteQuest(
    cfg: ModConfig, items: map<string, Item>, locale: map<string, string>, locations: seq<TsLocation>, quest: Quest)
    returns (q: Quest)
    requires QuestReady(cfg, items, locale, locations, quest)
    ensures q == RewrittenQuest(cfg, items, locale, locations, quest)
  {
    q := quest;
    if cfg.revealAllQuestObjectives {
      var objectives := RevealObjectivesLoop(q.availableForFinish);
      q := q.(availableForFinish := objectives);
    }
    if cfg.revealUnknownRewards {
      var rewards := RevealRewardsLoop(q.successRewards);
      q := q.(successRewards := rewards);
    }
    if cfg.removeTimeGates {
      var prereqs := ClearTimeGatesLoop(q.availableForStart);
      q := q.(availableForStart := prereqs);
    }
    assert q == GlobalRules(cfg, quest);

    if quest.id in cfg.exemptQuests || !ShouldModifyConditions(cfg) {
      return;
    }
    forall i | 0 <= i < |q.availableForFinish|
      ensures ObjectiveReady(cfg, items, locale, locations, quest.location, q.availableForFinish[i])
    {
      ObjectiveReadyByShape(cfg, items, locale, locations, quest.location,
                            q.availableForFinish[i], quest.availableForFinish[i]);
    }
    var objectives := RewriteObjectives(cfg, items, locale, locations, quest.location, q.availableForFinish);
    q := q.(availableForFinish := objectives);
  }

  /**
   * The three global rules reach every quest, exempt or not: objectives
   * visible, Success rewards known, truthy start delays zeroed.
   */
  lemma GlobalRulesReachEveryQuest(
    cfg: ModConfig, items: map<string, Item>, locale: map<string, string>, locations: seq<TsLocation>, q: Quest)
    requires QuestReady(cfg, items, locale, locations, q)
    ensures var r := RewrittenQuest(cfg, items, locale, locations, q);
            && |r.availableForFinish| == |q.availableForFinish|
            && (cfg.revealAllQuestObjectives ==>
                  forall i :: 0 <= i < |r.availableForFinish| ==> r.availableForFinish[i].visibilityConditions == [])
            && |r.successRewards| == |q.successRewards|
            && (cfg.revealUnknownRewards ==> forall i :: 0 <= i < |r.successRewards| ==> !r.successRewards[i].unknown)
            && |r.availableForStart| == |q.availableForStart|
            && (cfg.removeTimeGates ==>
                  forall i :: 0 <= i < |r.availableForStart| ==>
                    r.availableForStart[i].availableAfter ==
                      if q.availableForStart[i].availableAfter.None? then None else Some(0))
  {
    var g, r := GlobalRules(cfg, q), RewrittenQuest(cfg, items, locale, locations, q);
    assert r.successRewards == g.successRewards && r.availableForStart == g.availableForStart;
    if PipelineRuns(cfg, q) {
      forall i | 0 <= i < |g.availableForFinish|
        ensures r.availableForFinish[i].visibilityConditions == g.availableForFinish[i].visibilityConditions
      {
        assert SameShape(g.availableForFinish[i], q.availableForFinish[i]);
        ObjectiveKeepsVisibility(cfg, items, locale, locations, q.location, g.availableForFinish[i]);
      }
    }
  }

  /** The objective pipeline never touches an objective's visibility conditions. */
  lemma ObjectiveKeepsVisibility(
    cfg: ModConfig, items: map<string, Item>, locale: map<string, string>,
    locations: seq<TsLocation>, questLocation: string, o: Condition)
    requires ObjectiveReady(cfg, items, locale, locations, questLocation, o)
    ensures RewrittenObjective(cfg, items, locale, locations, questLocation, o).visibilityConditions
            == o.visibilityConditions
  {
  }

  /**
   * An exempt quest, or any quest in a run that modifies no conditions,
   * keeps every objective's counter, value and found-in-raid flag.
   */
  lemma ExemptQuestObjectivesUntouched(
    cfg: ModConfig, items: map<string, Item>, locale: map<string, string>, locations: seq<TsLocation>, q: Quest)
    requires q.id in cfg.exemptQuests || !ShouldModifyConditions(cfg)
    ensures var r := RewrittenQuest(cfg, items, locale, locations, q);
            && |r.availableForFinish| == |q.availableForFinish|
            && forall i :: 0 <= i < |q.availableForFinish| ==>
                 && r.availableForFinish[i].counter == q.availableForFinish[i].counter
                 && r.availableForFinish[i].value == q.availableForFinish[i].value
                 && r.availableForFinish[i].onlyFoundInRaid == q.availableForFinish[i].onlyFoundInRaid
  {
  }

  // ---------------------------------------------------------------------
  // Hard-coded patches
  // ---------------------------------------------------------------------

  /** The quests the patches look up by id are present. */
  predicate PatchesReady(cfg: ModConfig, quests: map<string, Quest>) {
    PatchTargetsPresent(cfg.lightkeeperOnlyRequireLevel, cfg.tarkovShooterM10, quests)
  }

  /** The quest table after the Network Provider and Tarkov Shooter patches. */
  function PatchedQuests(cfg: ModConfig, quests: map<string, Quest>): (r: map<string, Quest>)
    requires PatchesReady(cfg, quests)
    ensures r.Keys == quests.Keys
  {
    var quests := LevelGated(cfg.lightkeeperOnlyRequireLevel, quests);
    if cfg.tarkovShooterM10 then QuestsWithWeapon(quests, TarkovShooter, TrgM10, {Kills}) else quests
  }

  /** The patches touch no field the pipeline's lookups depend on. */
  lemma PatchesKeepReady(
    cfg: ModConfig, items: map<string, Item>, locale: map<string, string>, locations: seq<TsLocation>,
    quests: map<string, Quest>, k: string)
    requires PatchesReady(cfg, quests)
    requires k in quests && QuestReady(cfg, items, locale, locations, quests[k])
    ensures QuestReady(cfg, items, locale, locations, PatchedQuests(cfg, quests)[k])
  {
    var afterLevel := LevelGated(cfg.lightkeeperOnlyRequireLevel, quests);
    assert QuestReady(cfg, items, locale, locations, afterLevel[k]);
    if cfg.tarkovShooterM10 {
      QuestsWithWeaponKeepsShape(afterLevel, TarkovShooter, TrgM10, {Kills}, k);
      var before, after := afterLevel[k], PatchedQuests(cfg, quests)[k];
      forall i | 0 <= i < |after.availableForFinish| && PipelineRuns(cfg, after)
        ensures ObjectiveReady(cfg, items, locale, locations, after.location, after.availableForFinish[i])
      {
        ObjectiveReadyByShape(cfg, items, locale, locations, after.location,
                              after.availableForFinish[i], before.availableForFinish[i]);
      }
    }
  }

  /** Whether an objective's lookups are defined depends only on its shape. */
  lemma ObjectiveReadyByShape(
    cfg: ModConfig, items: map<string, Item>, locale: map<string, string>,
    locations: seq<TsLocation>, questLocation: string, a: Condition, b: Condition)
    requires SameShape(a, b)
    requires ObjectiveReady(cfg, items, locale, locations, questLocation, b)
    ensures ObjectiveReady(cfg, items, locale, locations, questLocation, a)
  {
    FindFirstByKinds(a.counter, b.counter, {InZone});
    FindFirstByKinds(a.counter, b.counter, {Location});
  }

  /** Every quest of the table after the body of the quest loop. */
  function RewrittenQuests(
    cfg: ModConfig, items: map<string, Item>, locale: map<string, string>, locations: seq<TsLocation>,
    quests: map<string, Quest>): (r: map<string, Quest>)
    requires forall k :: k in quests ==> QuestReady(cfg, items, locale, locations, quests[k])
    ensures r.Keys == quests.Keys
  {
    map k | k in quests :: RewrittenQuest(cfg, items, locale, locations, quests[k])
  }

  /** The whole quest table after the pass: the patches, then every quest rewritten. */
  function QuestsAfter(
    cfg: ModConfig, items: map<string, Item>, locale: map<string, string>, locations: seq<TsLocation>,
    quests: map<string, Quest>): (r: map<string, Quest>)
    requires PatchesReady(cfg, quests)
    requires forall k :: k in quests ==> QuestReady(cfg, items, locale, locations, quests[k])
    ensures r.Keys == quests.Keys
  {
    var p := PatchedQuests(cfg, quests);
    assert forall k :: k in p ==> QuestReady(cfg, items, locale, locations, p[k]) by {
      forall k | k in p ensures QuestReady(cfg, items, locale, locations, p[k]) {
        PatchesKeepReady(cfg, items, locale, locations, quests, k);
      }
    }
    RewrittenQuests(cfg, items, locale, locations, p)
  }

  /**
   * With a positive level, Network Provider ends the pass with exactly one
   * start condition: Level >= level, reusing the old first condition's id,
   * with no parent and no visibility conditions.
   */
  lemma NetworkProviderGate(
    cfg: ModConfig, items: map<string, Item>, locale: map<string, string>, locations: seq<TsLocation>,
    quests: map<string, Quest>)
    requires PatchesReady(cfg, quests)
    requires forall k :: k in quests ==> QuestReady(cfg, items, locale, locations, quests[k])
    requires cfg.lightkeeperOnlyRequireLevel > 0
    ensures var start := QuestsAfter(cfg, items, locale, locations, quests)[NetworkProviderPart1].availableForStart;
            && |start| == 1
            && start[0].kind == Level && start[0].compareMethod == ">="
            && start[0].value == cfg.lightkeeperOnlyRequireLevel
            && start[0].id == quests[NetworkProviderPart1].availableForStart[0].id
            && start[0].parentId == "" && start[0].visibilityConditions == []
  {
    var afterLevel := LevelGated(cfg.lightkeeperOnlyRequireLevel, quests);
    if cfg.tarkovShooterM10 {
      QuestsWithWeaponKeepsShape(afterLevel, TarkovShooter, TrgM10, {Kills}, NetworkProviderPart1);
    }
    var patched := PatchedQuests(cfg, quests)[NetworkProviderPart1];
    assert patched.availableForStart == afterLevel[NetworkProviderPart1].availableForStart;
    PatchesKeepReady(cfg, items, locale, locations, quests, NetworkProviderPart1);
    assert QuestsAfter(cfg, items, locale, locations, quests)[NetworkProviderPart1]
           == RewrittenQuest(cfg, items, locale, locations, patched);
    LevelGateSurvivesGlobalRules(cfg, patched);
  }

  /** The global rules keep a lone Level start condition as it is. */
  lemma LevelGateSurvivesGlobalRules(cfg: ModConfig, q: Quest)
    requires |q.availableForStart| == 1 && q.availableForStart[0].availableAfter.None?
    ensures GlobalRules(cfg, q).availableForStart == q.availableForStart
  {
  }

  /** The two hard-coded patches, applied to the database in place. */
  method ApplyPatches(db: QuestDatabase, cfg: ModConfig)
    requires PatchesReady(cfg, db.quests)
    modifies db
    ensures db.quests == PatchedQuests(cfg, old(db.quests))
  {
    ApplyLevelGate(db, cfg.lightkeeperOnlyRequireLevel);
    if cfg.tarkovShooterM10 {
      AppendWeaponToQuests(db, TarkovShooter, TrgM10, {Kills});
    }
  }

  /** The loop over the quest table, one quest at a time. */
  method RewriteEachQuest(
    db: QuestDatabase, cfg: ModConfig, items: map<string, Item>, locale: map<string, string>,
    locations: seq<TsLocation>)
    requires forall k :: k in db.quests ==> QuestReady(cfg, items, locale, locations, db.quests[k])
    modifies db
    ensures db.quests == RewrittenQuests(cfg, items, locale, locations, old(db.quests))
  {
    var remaining := db.quests.Keys;
    while remaining != {}
      invariant remaining <= old(db.quests).Keys == db.quests.Keys
      invariant forall k :: k in old(db.quests) && k !in remaining ==>
                  db.quests[k] == RewrittenQuest(cfg, items, locale, locations, old(db.quests)[k])
      invariant forall k :: k in remaining ==> db.quests[k] == old(db.quests)[k]
      decreases remaining
    {
      var k :| k in remaining;
      var q := RewriteQuest(cfg, items, locale, locations, db.quests[k]);
      db.quests := db.quests[k := q];
      remaining := remaining - {k};
    }
  }

  /** The pass over the quest table, as `postDBLoad` runs it. */
  method RewriteQuests(
    db: QuestDatabase, cfg: ModConfig, items: map<string, Item>, locale: map<string, string>,
    locations: seq<TsLocation>)
    requires PatchesReady(cfg, db.quests)
    requires forall k :: k in db.quests ==> QuestReady(cfg, items, locale, locations, db.quests[k])
    modifies db
    ensures db.quests == QuestsAfter(cfg, items, locale, locations, old(db.quests))
  {
    ApplyPatches(db, cfg);
    forall k | k in db.quests ensures QuestReady(cfg, items, locale, locations, db.quests[k]) {
      PatchesKeepReady(cfg, items, locale, locations, old(db.quests), k);
    }
    RewriteEachQuest(db, cfg, items, locale, locations);
  }

  // ---------------------------------------------------------------------
  // Repeatable-quest templates
  // ---------------------------------------------------------------------

  /** The elimination block with the toggled requirements lifted. */
  function RelaxElimination(remove: ConditionsConfig, e: EliminationConfig): EliminationConfig {
    var e := if remove.target then e.(targets := [ProbabilityObject(AnyTarget, 1.0, false, false)]) else e;
    var e := if remove.weapon then e.(weaponCategoryRequirementProb := 0.0, weaponRequirementProb := 0.0) else e;
    var e := if remove.bodyPart then e.(bodyPartProb := 0.0) else e;
    if remove.distance then e.(distProb := 0.0) else e
  }

  function RelaxEliminations(remove: ConditionsConfig, elims: seq<EliminationConfig>): seq<EliminationConfig> {
    seq(|elims|, i requires 0 <= i < |elims| => RelaxElimination(remove, elims[i]))
  }

  /** One template after the loop body: settings, then elimination blocks if present. */
  function RelaxedTemplate(remove: ConditionsConfig, t: RepeatableTemplate): RepeatableTemplate {
    var t := RelaxTemplateSettings(remove, t);
    if t.elimination.None? then t
    else t.(elimination := Some(RelaxEliminations(remove, t.elimination.value)))
  }

  /** The template list after the pass; untouched unless conditions are modified and repeatables affected. */
  function TemplatesAfter(cfg: ModConfig, templates: seq<RepeatableTemplate>): seq<RepeatableTemplate> {
    if !(ShouldModifyConditions(cfg) && cfg.affectRepeatables) then templates
    else seq(|templates|, i requires 0 <= i < |templates| => RelaxedTemplate(cfg.removeConditions, templates[i]))
  }

  /** The loop over one template's elimination blocks. */
  method RelaxEliminationBlocks(remove: ConditionsConfig, elims: seq<EliminationConfig>)
    returns (r: seq<EliminationConfig>)
    ensures r == RelaxEliminations(remove, elims)
  {
    r := elims;
    var i := 0;
    while i < |r|
      invariant 0 <= i <= |r| == |elims|
      invariant forall j :: 0 <= j < i ==> r[j] == RelaxElimination(remove, elims[j])
      invariant forall j :: i <= j < |r| ==> r[j] == elims[j]
    {
      var e := r[i];
      if remove.target {
        e := e.(targets := [ProbabilityObject(AnyTarget, 1.0, false, false)]);
      }
      if remove.weapon {
        e := e.(weaponCategoryRequirementProb := 0.0, weaponRequirementProb := 0.0);
      }
      if remove.bodyPart {
        e := e.(bodyPartProb := 0.0);
      }
      if remove.distance {
        e := e.(distProb := 0.0);
      }
      r := r[i := e];
      i := i + 1;
    }
  }

  /** The repeatable-template stage of `postDBLoad`. */
  method RelaxTemplates(store: QuestConfigStore, cfg: ModConfig)
    modifies store
    ensures store.repeatableQuests == TemplatesAfter(cfg, old(store.repeatableQuests))
  {
    if !(ShouldModifyConditions(cfg) && cfg.affectRepeatables) {
      return;
    }
    var remove := cfg.removeConditions;
    var templates := store.repeatableQuests;
    var i := 0;
    while i < |templates|
      invariant 0 <= i <= |templates| == |old(store.repeatableQuests)|
      invariant forall j :: 0 <= j < i ==> templates[j] == RelaxedTemplate(remove, old(store.repeatableQuests)[j])
      invariant forall j :: i <= j < |templates| ==> templates[j] == old(store.repeatableQuests)[j]
    {
      var t := RelaxTemplateSettings(remove, templates[i]);
      if t.elimination.Some? {
        var elims := RelaxEliminationBlocks(remove, t.elimination.value);
        t := t.(elimination := Some(elims));
      }
      templates := templates[i := t];
      i := i + 1;
    }
    store.repeatableQuests := templates;
  }

  /**
   * Templates are edited only when conditions are modified and repeatables
   * are affected; then map removal leaves only the "any" location and a zero
   * specific-exit probability, and target removal leaves each elimination
   * block the single "Any" target.
   */
  lemma TemplateRules(cfg: ModConfig, templates: seq<RepeatableTemplate>, i: nat)
    requires i < |templates|
    ensures var r := TemplatesAfter(cfg, templates);
            var remove, on := cfg.removeConditions, ShouldModifyConditions(cfg) && cfg.affectRepeatables;
            && |r| == |templates|
            && (!on ==> r[i] == templates[i])
            && (on && remove.gameMap ==>
                  r[i].locations == AnyLocation
                  && (r[i].exploration.Some? ==> r[i].exploration.value.specificExitsProbability == 0.0))
            && (on && remove.target && r[i].elimination.Some? ==>
                  forall j :: 0 <= j < |r[i].elimination.value| ==>
                    r[i].elimination.value[j].targets == [ProbabilityObject(AnyTarget, 1.0, false, false)])
            && (r[i].elimination.Some? <==> templates[i].elimination.Some?)
  {
  }

  // ---------------------------------------------------------------------
  // postDBLoad
  // ---------------------------------------------------------------------

  /** The whole pass: location table, quest table, repeatable templates. */
  method PostDbLoad(
    db: QuestDatabase, questConfig: QuestConfigStore, cfg: ModConfig,
    items: map<string, Item>, locale: map<string, string>, entries: seq<LocationEntry>)
    requires BaseOf(entries, FactoryNightKey).Some?
    requires PatchesReady(cfg, db.quests)
    requires forall k :: k in db.quests ==>
               QuestReady(cfg, items, locale, LocationTable(entries, locale), db.quests[k])
    modifies db, questConfig
    ensures db.quests == QuestsAfter(cfg, items, locale, LocationTable(entries, locale), old(db.quests))
    ensures questConfig.repeatableQuests == TemplatesAfter(cfg, old(questConfig.repeatableQuests))
  {
    var locations := EnabledLocations(entries, locale);
    var factoryNight := BaseOf(entries, FactoryNightKey).value;
    locations := locations + [TsLocation(Some("Factory"), factoryNight.id, factoryNight.mongoId)];
    RewriteQuests(db, cfg, items, locale, locations);
    RelaxTemplates(questConfig, cfg);
  }
}

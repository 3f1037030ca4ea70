/**
 * The C# version of the quest rewrite (Mod.cs, `QuestTweaks.OnLoad`): the
 * same pipeline as the TypeScript version with its own choices. Every
 * InZone leaf is converted to the first matching location, every Kills/Shots
 * leaf is relaxed, the master switch is `AnyEnabled` alone, exempt quests are
 * not honoured, and the elimination stage of the repeatable templates is
 * guarded by a test that skips every template that has elimination blocks.
 */
module CsMod {
  import opened Configuration
  import opened QuestData
  import opened QuestRules

  // ---------------------------------------------------------------------
  // Location table
  // ---------------------------------------------------------------------

  /** `LocationInfo`: the English name, the location id and its mongo id. */
  datatype LocationInfo = LocationInfo(name: string, id: string, mongoId: string)

  /** `enLocale[loc.Base.Id]` is defined for every enabled location. */
  predicate NamesKnown(entries: seq<LocationEntry>, locale: map<string, string>) {
    forall i :: 0 <= i < |entries| && IsEnabled(entries[i]) ==> entries[i].base.value.id in locale
  }

  function Info(locale: map<string, string>, b: LocationBase): LocationInfo
    requires b.id in locale
  {
    LocationInfo(locale[b.id], b.id, b.mongoId)
  }

  /** The enabled locations, in order, each named by its English text (no Factory entry). */
  function LocationTable(entries: seq<LocationEntry>, locale: map<string, string>): seq<LocationInfo>
    requires NamesKnown(entries, locale)
  {
    if entries == [] then []
    else (if IsEnabled(entries[0]) then [Info(locale, entries[0].base.value)] else [])
         + LocationTable(entries[1..], locale)
  }

  /** Some enabled entry produced the row `r`. */
  predicate InfoOfEnabledEntry(entries: seq<LocationEntry>, locale: map<string, string>, r: LocationInfo)
    requires NamesKnown(entries, locale)
  {
    exists j :: 0 <= j < |entries| && IsEnabled(entries[j]) && r == Info(locale, entries[j].base.value)
  }

  /** Every row of the table comes from an enabled entry, and the table is no longer than the entries. */
  lemma {:induction false} LocationTableRows(entries: seq<LocationEntry>, locale: map<string, string>)
    requires NamesKnown(entries, locale)
    ensures |LocationTable(entries, locale)| <= |entries|
    ensures forall i :: 0 <= i < |LocationTable(entries, locale)| ==>
              InfoOfEnabledEntry(entries, locale, LocationTable(entries, locale)[i])
  {
    if entries != [] {
      var rest := LocationTable(entries[1..], locale);
      LocationTableRows(entries[1..], locale);
      var t := LocationTable(entries, locale);
      var head := if IsEnabled(entries[0]) then [Info(locale, entries[0].base.value)] else [];
      forall i | 0 <= i < |t| ensures InfoOfEnabledEntry(entries, locale, t[i]) {
        if i < |head| {
          assert t[i] == Info(locale, entries[0].base.value);
        } else {
          assert t[i] == rest[i - |head|];
          assert InfoOfEnabledEntry(entries[1..], locale, rest[i - |head|]);
          var j :| 0 <= j < |entries[1..]| && IsEnabled(entries[1..][j])
                   && rest[i - |head|] == Info(locale, entries[1..][j].base.value);
          assert entries[j + 1] == entries[1..][j];
        }
      }
    }
  }

  /** The number of enabled entries. */
  function EnabledCount(entries: seq<LocationEntry>): nat {
    if entries == [] then 0 else (if IsEnabled(entries[0]) then 1 else 0) + EnabledCount(entries[1..])
  }

  /**
   * The table lists every enabled entry, in entry order: it has one row per
   * enabled entry, and the row of enabled entry `j` sits after the rows of
   * the enabled entries before it.
   */
  lemma {:induction false} LocationTableComplete(entries: seq<LocationEntry>, locale: map<string, string>)
    requires NamesKnown(entries, locale)
    ensures |LocationTable(entries, locale)| == EnabledCount(entries)
    ensures forall j :: 0 <= j < |entries| && IsEnabled(entries[j]) ==>
              EnabledCount(entries[..j]) < |LocationTable(entries, locale)|
              && LocationTable(entries, locale)[EnabledCount(entries[..j])] == Info(locale, entries[j].base.value)
  {
    if entries != [] {
      var rest := LocationTable(entries[1..], locale);
      LocationTableComplete(entries[1..], locale);
      var t := LocationTable(entries, locale);
      var h := if IsEnabled(entries[0]) then 1 else 0;
      assert t == (if IsEnabled(entries[0]) then [Info(locale, entries[0].base.value)] else []) + rest;
      forall j | 0 <= j < |entries| && IsEnabled(entries[j])
        ensures EnabledCount(entries[..j]) < |t| && t[EnabledCount(entries[..j])] == Info(locale, entries[j].base.value)
      {
        if j == 0 {
          assert entries[..j] == [];
        } else {
          assert entries[..j][1..] == entries[1..][..j - 1];
          assert EnabledCount(entries[..j]) == h + EnabledCount(entries[1..][..j - 1]);
          assert entries[1..][j - 1] == entries[j];
        }
      }
    }
  }

  // ---------------------------------------------------------------------
  // Zone conversion
  // ---------------------------------------------------------------------

  /**
   * `enLocale[objective.Id]` is defined wherever the scan reads it: the scan
   * stops at the first match, so the text is read unless the first location
   * is the quest's own map.
   */
  predicate TextAvailable(locale: map<string, string>, key: string, questLocation: string, locations: seq<LocationInfo>) {
    key in locale || |locations| == 0 || locations[0].mongoId == questLocation
  }

  /**
   * The quest is on the location's map, or the objective text contains the
   * location's name (the text is only consulted when the maps differ).
   */
  predicate Matches(locale: map<string, string>, key: string, questLocation: string, loc: LocationInfo) {
    questLocation == loc.mongoId || (key in locale && Contains(locale[key], loc.name))
  }

  /** The location does not match (and the objective text is defined to tell). */
  predicate Misses(locale: map<string, string>, key: string, questLocation: string, loc: LocationInfo) {
    loc.mongoId != questLocation && key in locale && !Contains(locale[key], loc.name)
  }

  /** Index of the first matching location, if any. */
  function FirstMatch(locale: map<string, string>, key: string, questLocation: string, locations: seq<LocationInfo>)
    : (r: Option<nat>)
    requires TextAvailable(locale, key, questLocation, locations)
    ensures r.Some? ==> r.value < |locations| && Matches(locale, key, questLocation, locations[r.value])
    ensures r.Some? ==> forall j :: 0 <= j < r.value ==> Misses(locale, key, questLocation, locations[j])
    ensures r.None? ==> forall j :: 0 <= j < |locations| ==> Misses(locale, key, questLocation, locations[j])
  {
    if locations == [] then None
    else if Matches(locale, key, questLocation, locations[0]) then Some(0)
    else match FirstMatch(locale, key, questLocation, locations[1..])
      case None => None
      case Some(k) => Some(k + 1)
  }

  /** The leaf rewritten for one location: a Location leaf targeting that single id, zones cleared. */
  function ToLocation(leaf: Leaf, loc: LocationInfo): Leaf {
    leaf.(zoneIds := None, kind := Location, target := Single(loc.id))
  }

  /** An InZone leaf converted for the first matching location; any other leaf unchanged. */
  function ConvertedLeaf(
    locale: map<string, string>, key: string, questLocation: string, locations: seq<LocationInfo>, leaf: Leaf): Leaf
    requires leaf.kind == InZone ==> TextAvailable(locale, key, questLocation, locations)
  {
    if leaf.kind != InZone then leaf
    else match FirstMatch(locale, key, questLocation, locations)
      case None => leaf
      case Some(i) => ToLocation(leaf, locations[i])
  }

  /** Zone on, map off, and the counter holds an InZone leaf: the scan runs. */
  predicate ScansZone(remove: ConditionsConfig, leaves: seq<Leaf>) {
    remove.zone && !remove.gameMap && FindFirst(leaves, {InZone}).Some?
  }

  /** The counter after the zone-conversion step: every InZone leaf converted. */
  function ZoneStage(
    remove: ConditionsConfig, locale: map<string, string>, key: string, questLocation: string,
    locations: seq<LocationInfo>, leaves: seq<Leaf>): seq<Leaf>
    requires ScansZone(remove, leaves) ==> TextAvailable(locale, key, questLocation, locations)
  {
    if remove.zone && !remove.gameMap then
      seq(|leaves|, i requires 0 <= i < |leaves| => ConvertedLeaf(locale, key, questLocation, locations, leaves[i]))
    else leaves
  }

  /** The scan for one InZone leaf: the first matching location converts it, then the scan stops. */
  method ConvertZoneLeaf(
    locale: map<string, string>, key: string, questLocation: string, locations: seq<LocationInfo>, cond: Leaf)
    returns (leaf: Leaf)
    requires cond.kind == InZone
    requires TextAvailable(locale, key, questLocation, locations)
    ensures leaf == ConvertedLeaf(locale, key, questLocation, locations, cond)
  {
    leaf := cond;
    var i := 0;
    while i < |locations|
      invariant 0 <= i <= |locations|
      invariant forall j :: 0 <= j < i ==> Misses(locale, key, questLocation, locations[j])
    {
      var loc := locations[i];
      if questLocation == loc.mongoId || Contains(locale[key], loc.name) {
        leaf := leaf.(zoneIds := None, kind := Location, target := Single(loc.id));
        return;
      }
      i := i + 1;
    }
  }

  /** The loop over a counter's leaves, converting each InZone leaf. */
  method ConvertZones(
    remove: ConditionsConfig, locale: map<string, string>, key: string, questLocation: string,
    locations: seq<LocationInfo>, leaves: seq<Leaf>)
    returns (r: seq<Leaf>)
    requires ScansZone(remove, leaves) ==> TextAvailable(locale, key, questLocation, locations)
    ensures r == ZoneStage(remove, locale, key, questLocation, locations, leaves)
  {
    r := leaves;
    if !(remove.zone && !remove.gameMap) {
      return;
    }
    var i := 0;
    while i < |r|
      invariant 0 <= i <= |r| == |leaves|
      invariant forall j :: 0 <= j < i ==> r[j] == ConvertedLeaf(locale, key, questLocation, locations, leaves[j])
      invariant forall j :: i <= j < |r| ==> r[j] == leaves[j]
    {
      if r[i].kind == InZone {
        var leaf := ConvertZoneLeaf(locale, key, questLocation, locations, r[i]);
        r := r[i := leaf];
      }
      i := i + 1;
    }
  }

  /**
   * Every InZone leaf is converted to the first matching location (all of
   * them to the same one); with no match, or with the scan off, the counter
   * is unchanged.
   */
  lemma ZoneStageConvertsEveryZone(
    remove: ConditionsConfig, locale: map<string, string>, key: string, questLocation: string,
    locations: seq<LocationInfo>, leaves: seq<Leaf>, i: nat)
    requires ScansZone(remove, leaves) ==> TextAvailable(locale, key, questLocation, locations)
    requires i < |leaves|
    ensures var r := ZoneStage(remove, locale, key, questLocation, locations, leaves);
            && |r| == |leaves|
            && (leaves[i].kind != InZone || !(remove.zone && !remove.gameMap) ==> r[i] == leaves[i])
            && (leaves[i].kind == InZone && remove.zone && !remove.gameMap ==>
                  var m := FirstMatch(locale, key, questLocation, locations);
                  && (m.None? ==> r[i] == leaves[i])
                  && (m.Some? ==> r[i].kind == Location && r[i].zoneIds == None
                                  && r[i].target == Single(locations[m.value].id)))
  {
  }

  // ---------------------------------------------------------------------
  // Relaxation of every kill/shot leaf
  // ---------------------------------------------------------------------

  /** The loop relaxing every Kills/Shots leaf of a counter. */
  method RelaxKillLeaves(remove: ConditionsConfig, leaves: seq<Leaf>) returns (r: seq<Leaf>)
    ensures r == RelaxAll(remove, leaves)
  {
    r := leaves;
    var i := 0;
    while i < |r|
      invariant 0 <= i <= |r| == |leaves|
      invariant forall j :: 0 <= j < i ==> r[j] == RelaxAll(remove, leaves)[j]
      invariant forall j :: i <= j < |r| ==> r[j] == leaves[j]
    {
      if r[i].kind == Shots || r[i].kind == Kills {
        r := r[i := Relax(remove, r[i])];
      }
      i := i + 1;
    }
  }

  /** Every Kills/Shots leaf has every toggled restriction lifted; every other leaf is unchanged. */
  lemma RelaxAllLiftsEveryKill(remove: ConditionsConfig, leaves: seq<Leaf>)
    ensures |RelaxAll(remove, leaves)| == |leaves|
    ensures SameKinds(RelaxAll(remove, leaves), leaves)
    ensures forall i :: 0 <= i < |leaves| && leaves[i].kind in KillKinds ==>
              Lifted(remove, RelaxAll(remove, leaves)[i]) && AgreeOffToggles(remove, leaves[i], RelaxAll(remove, leaves)[i])
    ensures forall i :: 0 <= i < |leaves| && leaves[i].kind !in KillKinds ==> RelaxAll(remove, leaves)[i] == leaves[i]
  {
  }

  // ---------------------------------------------------------------------
  // The per-objective pipeline
  // ---------------------------------------------------------------------

  /** The objective text is defined wherever the zone scan reads it. */
  predicate ObjectiveReady(
    remove: ConditionsConfig, locale: map<string, string>, locations: seq<LocationInfo>, questLocation: string,
    o: Condition)
  {
    o.kind == CounterCreator && ScansZone(remove, o.counter) ==> TextAvailable(locale, o.id, questLocation, locations)
  }

  /** The leaves left after zone conversion and removal. */
  function FilteredLeaves(
    remove: ConditionsConfig, locale: map<string, string>, locations: seq<LocationInfo>, questLocation: string,
    o: Condition): seq<Leaf>
    requires ScansZone(remove, o.counter) ==> TextAvailable(locale, o.id, questLocation, locations)
  {
    RemoveToggled(remove, ZoneStage(remove, locale, o.id, questLocation, locations, o.counter))
  }

  /** One finish objective after the objective loop body. */
  function RewrittenObjective(
    remove: ConditionsConfig, locale: map<string, string>, locations: seq<LocationInfo>, questLocation: string,
    o: Condition): Condition
    requires ObjectiveReady(remove, locale, locations, questLocation, o)
  {
    var o := if remove.findInRaid && IsHandover(o) then o.(onlyFoundInRaid := false) else o;
    if o.kind != CounterCreator then o
    else
      var leaves := FilteredLeaves(remove, locale, locations, questLocation, o);
      if OnlyRestrictive(leaves) then o.(counter := leaves, value := 0)
      else o.(counter := RelaxAll(remove, leaves))
  }

  /** The body of the objective loop. */
  method RewriteObjective(
    remove: ConditionsConfig, locale: map<string, string>, locations: seq<LocationInfo>, questLocation: string,
    objective: Condition)
    returns (o: Condition)
    requires ObjectiveReady(remove, locale, locations, questLocation, objective)
    ensures o == RewrittenObjective(remove, locale, locations, questLocation, objective)
  {
    o := objective;
    if remove.findInRaid && (o.kind == HandoverItem || o.kind == FindItem) {
      o := o.(onlyFoundInRaid := false);
    }
    if o.kind != CounterCreator {
      return;
    }
    var converted := ConvertZones(remove, locale, o.id, questLocation, locations, o.counter);
    var conditions := RemoveToggled(remove, converted);
    o := o.(counter := conditions);
    if OnlyRestrictive(conditions) {
      o := o.(value := 0);
      return;
    }
    var relaxed := RelaxKillLeaves(remove, conditions);
    o := o.(counter := relaxed);
  }

  /**
   * A counter objective loses every toggled leaf; when only restrictive
   * leaves remain its value becomes 0 and they are kept as they are;
   * otherwise every Kills/Shots leaf is relaxed and the value is kept.
   */
  lemma CounterObjectiveRules(
    remove: ConditionsConfig, locale: map<string, string>, locations: seq<LocationInfo>, questLocation: string,
    o: Condition)
    requires o.kind == CounterCreator
    requires ObjectiveReady(remove, locale, locations, questLocation, o)
    ensures var r, filtered := RewrittenObjective(remove, locale, locations, questLocation, o),
                               FilteredLeaves(remove, locale, locations, questLocation, o);
            && SameKinds(r.counter, filtered)
            && (forall i :: 0 <= i < |r.counter| ==> !Toggled(remove, r.counter[i]))
            && (OnlyRestrictive(filtered) ==> r.value == 0 && r.counter == filtered)
            && (!OnlyRestrictive(filtered) ==>
                  r.value == o.value
                  && forall i :: 0 <= i < |filtered| && filtered[i].kind in KillKinds ==>
                       r.counter[i] == Relax(remove, filtered[i]))
  {
    var filtered := FilteredLeaves(remove, locale, locations, questLocation, o);
    RemoveToggledSound(remove, ZoneStage(remove, locale, o.id, questLocation, locations, o.counter));
    var r := RewrittenObjective(remove, locale, locations, questLocation, o);
    if OnlyRestrictive(filtered) {
      assert r.counter == filtered && r.value == 0;
    } else {
      assert r.counter == RelaxAll(remove, filtered) && r.value == o.value;
      RelaxAllLiftsEveryKill(remove, filtered);
      assert forall i :: 0 <= i < |r.counter| ==> r.counter[i].kind == filtered[i].kind;
    }
  }

  /** A hand-in objective only has its found-in-raid flag cleared, when that switch is on. */
  lemma HandoverObjectiveRules(
    remove: ConditionsConfig, locale: map<string, string>, locations: seq<LocationInfo>, questLocation: string,
    o: Condition)
    requires IsHandover(o)
    ensures RewrittenObjective(remove, locale, locations, questLocation, o)
            == o.(onlyFoundInRaid := o.onlyFoundInRaid && !remove.findInRaid)
  {
  }

  // ---------------------------------------------------------------------
  // Global rules and the per-quest loop
  // ---------------------------------------------------------------------

  /** `if (prereq.AvailableAfter is not null) prereq.AvailableAfter = 0`: every present delay becomes 0. */
  function ClearTimeGates(prereqs: seq<Condition>): seq<Condition> {
    seq(|prereqs|, i requires 0 <= i < |prereqs| =>
      if prereqs[i].availableAfter.Some? then prereqs[i].(availableAfter := Some(0)) else prereqs[i])
  }

  /** The loop zeroing every present start delay. */
  method ClearTimeGatesLoop(prereqs: seq<Condition>) returns (r: seq<Condition>)
    ensures r == ClearTimeGates(prereqs)
  {
    r := prereqs;
    var i := 0;
    while i < |r|
      invariant 0 <= i <= |r| == |prereqs|
      invariant forall j :: 0 <= j < i ==> r[j] == ClearTimeGates(prereqs)[j]
      invariant forall j :: i <= j < |r| ==> r[j] == prereqs[j]
    {
      if r[i].availableAfter.Some? {
        r := r[i := r[i].(availableAfter := Some(0))];
      }
      i := i + 1;
    }
  }

  /** The three global rules, each under its own switch. */
  function GlobalRules(cfg: Config, q: Quest): Quest {
    q.(availableForFinish := if cfg.revealAllQuestObjectives then RevealObjectives(q.availableForFinish)
                             else q.availableForFinish,
       successRewards := if cfg.revealUnknownRewards then RevealRewards(q.successRewards) else q.successRewards,
       availableForStart := if cfg.removeTimeGates then ClearTimeGates(q.availableForStart)
                            else q.availableForStart)
  }

  /** Every lookup the objective loop makes for this quest is defined. */
  predicate QuestReady(cfg: Config, locale: map<string, string>, locations: seq<LocationInfo>, q: Quest) {
    AnyEnabled(cfg.removeConditions) ==>
      forall i :: 0 <= i < |q.availableForFinish| ==>
        ObjectiveReady(cfg.removeConditions, locale, locations, q.location, q.availableForFinish[i])
  }

  /** One quest after the body of the quest loop; exemptions play no part. */
  function RewrittenQuest(cfg: Config, locale: map<string, string>, locations: seq<LocationInfo>, q: Quest): Quest
    requires QuestReady(cfg, locale, locations, q)
  {
    var g := GlobalRules(cfg, q);
    if !AnyEnabled(cfg.removeConditions) then g
    else
      var objectives := g.availableForFinish;
      assert forall i :: 0 <= i < |objectives| ==> SameShape(objectives[i], q.availableForFinish[i]);
      g.(availableForFinish := seq(|objectives|, i requires 0 <= i < |objectives| =>
           RewrittenObjective(cfg.removeConditions, locale, locations, q.location, objectives[i])))
  }

  /** The objective loop of one quest. */
  method RewriteObjectives(
    remove: ConditionsConfig, locale: map<string, string>, locations: seq<LocationInfo>, questLocation: string,
    objectives: seq<Condition>)
    returns (r: seq<Condition>)
    requires forall i :: 0 <= i < |objectives| ==>
               ObjectiveReady(remove, locale, locations, questLocation, objectives[i])
    ensures |r| == |objectives|
    ensures forall i :: 0 <= i < |objectives| ==>
              r[i] == RewrittenObjective(remove, locale, locations, questLocation, objectives[i])
  {
    r := objectives;
    var i := 0;
    while i < |r|
      invariant 0 <= i <= |r| == |objectives|
      invariant forall j :: 0 <= j < i ==>
                  r[j] == RewrittenObjective(remove, locale, locations, questLocation, objectives[j])
      invariant forall j :: i <= j < |r| ==> r[j] == objectives[j]
    {
      var o := RewriteObjective(remove, locale, locations, questLocation, r[i]);
      r := r[i := o];
      i := i + 1;
    }
  }

  /** The body of the quest loop. */
  method RewriteQuest(cfg: Config, locale: map<string, string>, locations: seq<LocationInfo>, quest: Quest)
    returns (q: Quest)
    requires QuestReady(cfg, locale, locations, quest)
    ensures q == RewrittenQuest(cfg, locale, locations, quest)
  {
    q := quest;
    if cfg.revealAllQuestObjectives {
      var objectives := RevealObjectivesLoop(q.availableForFinish);
      q := q.(availableForFinish := objectives);
    }
    if cfg.revealUnknownRewards {
      var rewards := RevealRewardsLoop(q.successRewards);
      q := q.(successRewards := rewards);
    }
    if cfg.removeTimeGates {
      var prereqs := ClearTimeGatesLoop(q.availableForStart);
      q := q.(availableForStart := prereqs);
    }
    assert q == GlobalRules(cfg, quest);
    if !AnyEnabled(cfg.removeConditions) {
      return;
    }
    assert forall i :: 0 <= i < |q.availableForFinish| ==>
             SameShape(q.availableForFinish[i], quest.availableForFinish[i]);
    var objectives := RewriteObjectives(cfg.removeConditions, locale, locations, quest.location, q.availableForFinish);
    q := q.(availableForFinish := objectives);
  }

  /**
   * With every removal switch off, no objective loses a leaf or changes its
   * value or found-in-raid flag; only the global rules apply.
   */
  lemma NothingEnabledKeepsObjectives(cfg: Config, locale: map<string, string>, locations: seq<LocationInfo>, q: Quest)
    requires !AnyEnabled(cfg.removeConditions)
    ensures var r := RewrittenQuest(cfg, locale, locations, q);
            && r == GlobalRules(cfg, q)
            && |r.availableForFinish| == |q.availableForFinish|
            && forall i :: 0 <= i < |q.availableForFinish| ==>
                 r.availableForFinish[i].(visibilityConditions := q.availableForFinish[i].visibilityConditions)
                 == q.availableForFinish[i]
  {
  }

  /** The time-gate rule zeroes exactly the present delays and keeps absent ones absent. */
  lemma TimeGatesCleared(cfg: Config, locale: map<string, string>, locations: seq<LocationInfo>, q: Quest)
    requires QuestReady(cfg, locale, locations, q)
    requires cfg.removeTimeGates
    ensures var start := RewrittenQuest(cfg, locale, locations, q).availableForStart;
            && |start| == |q.availableForStart|
            && forall i :: 0 <= i < |start| ==>
                 start[i].availableAfter == (if q.availableForStart[i].availableAfter.Some? then Some(0) else None)
                 && start[i].(availableAfter := q.availableForStart[i].availableAfter) == q.availableForStart[i]
  {
  }

  // ---------------------------------------------------------------------
  // Hard-coded patches and the whole quest table
  // ---------------------------------------------------------------------

  /** The quest table after the Network Provider and Tarkov Shooter patches (both leaf kinds get the rifle). */
  function PatchedQuests(cfg: Config, quests: map<string, Quest>): (r: map<string, Quest>)
    requires PatchTargetsPresent(cfg.lightkeeperOnlyRequireLevel, cfg.tarkovShooterM10, quests)
    ensures r.Keys == quests.Keys
  {
    var quests := LevelGated(cfg.lightkeeperOnlyRequireLevel, quests);
    if cfg.tarkovShooterM10 then QuestsWithWeapon(quests, TarkovShooter, TrgM10, KillKinds) else quests
  }

  /** The patches touch no field the objective loop's lookups depend on. */
  lemma PatchesKeepReady(
    cfg: Config, locale: map<string, string>, locations: seq<LocationInfo>, quests: map<string, Quest>, k: string)
    requires PatchTargetsPresent(cfg.lightkeeperOnlyRequireLevel, cfg.tarkovShooterM10, quests)
    requires k in quests && QuestReady(cfg, locale, locations, quests[k])
    ensures QuestReady(cfg, locale, locations, PatchedQuests(cfg, quests)[k])
  {
    var afterLevel := LevelGated(cfg.lightkeeperOnlyRequireLevel, quests);
    assert QuestReady(cfg, locale, locations, afterLevel[k]);
    if cfg.tarkovShooterM10 {
      QuestsWithWeaponKeepsShape(afterLevel, TarkovShooter, TrgM10, KillKinds, k);
      var before, after := afterLevel[k], PatchedQuests(cfg, quests)[k];
      forall i | 0 <= i < |after.availableForFinish| && AnyEnabled(cfg.removeConditions)
        ensures ObjectiveReady(cfg.removeConditions, locale, locations, after.location, after.availableForFinish[i])
      {
        FindFirstByKinds(after.availableForFinish[i].counter, before.availableForFinish[i].counter, {InZone});
      }
    }
  }

  /** Every quest of the table after the body of the quest loop. */
  function RewrittenQuests(cfg: Config, locale: map<string, string>, locations: seq<LocationInfo>,
                           quests: map<string, Quest>): (r: map<string, Quest>)
    requires forall k :: k in quests ==> QuestReady(cfg, locale, locations, quests[k])
    ensures r.Keys == quests.Keys
  {
    map k | k in quests :: RewrittenQuest(cfg, locale, locations, quests[k])
  }

  /** The whole quest table after the pass: the patches, then every quest rewritten. */
  function QuestsAfter(cfg: Config, locale: map<string, string>, locations: seq<LocationInfo>,
                       quests: map<string, Quest>): (r: map<string, Quest>)
    requires PatchTargetsPresent(cfg.lightkeeperOnlyRequireLevel, cfg.tarkovShooterM10, quests)
    requires forall k :: k in quests ==> QuestReady(cfg, locale, locations, quests[k])
    ensures r.Keys == quests.Keys
  {
    var p := PatchedQuests(cfg, quests);
    assert forall k :: k in p ==> QuestReady(cfg, locale, locations, p[k]) by {
      forall k | k in p ensures QuestReady(cfg, locale, locations, p[k]) {
        PatchesKeepReady(cfg, locale, locations, quests, k);
      }
    }
    RewrittenQuests(cfg, locale, locations, p)
  }

  /**
   * With a positive level, Network Provider ends the pass with exactly one
   * start condition, Level >= level, reusing the old first condition's id.
   */
  lemma NetworkProviderGate(cfg: Config, locale: map<string, string>, locations: seq<LocationInfo>,
                            quests: map<string, Quest>)
    requires PatchTargetsPresent(cfg.lightkeeperOnlyRequireLevel, cfg.tarkovShooterM10, quests)
    requires forall k :: k in quests ==> QuestReady(cfg, locale, locations, quests[k])
    requires cfg.lightkeeperOnlyRequireLevel > 0
    ensures var start := QuestsAfter(cfg, locale, locations, quests)[NetworkProviderPart1].availableForStart;
            && |start| == 1
            && start[0].kind == Level && start[0].compareMethod == ">="
            && start[0].value == cfg.lightkeeperOnlyRequireLevel
            && start[0].id == quests[NetworkProviderPart1].availableForStart[0].id
  {
    var afterLevel := LevelGated(cfg.lightkeeperOnlyRequireLevel, quests);
    if cfg.tarkovShooterM10 {
      QuestsWithWeaponKeepsShape(afterLevel, TarkovShooter, TrgM10, KillKinds, NetworkProviderPart1);
    }
    var patched := PatchedQuests(cfg, quests)[NetworkProviderPart1];
    assert patched.availableForStart == afterLevel[NetworkProviderPart1].availableForStart;
    PatchesKeepReady(cfg, locale, locations, quests, NetworkProviderPart1);
    assert QuestsAfter(cfg, locale, locations, quests)[NetworkProviderPart1].availableForStart
           == GlobalRules(cfg, patched).availableForStart;
  }

  /** The two hard-coded patches, applied to the database in place. */
  method ApplyPatches(db: QuestDatabase, cfg: Config)
    requires PatchTargetsPresent(cfg.lightkeeperOnlyRequireLevel, cfg.tarkovShooterM10, db.quests)
    modifies db
    ensures db.quests == PatchedQuests(cfg, old(db.quests))
  {
    ApplyLevelGate(db, cfg.lightkeeperOnlyRequireLevel);
    if cfg.tarkovShooterM10 {
      AppendWeaponToQuests(db, TarkovShooter, TrgM10, KillKinds);
    }
  }

  /** The loop over the quest table, one quest at a time. */
  method RewriteEachQuest(db: QuestDatabase, cfg: Config, locale: map<string, string>, locations: seq<LocationInfo>)
    requires forall k :: k in db.quests ==> QuestReady(cfg, locale, locations, db.quests[k])
    modifies db
    ensures db.quests == RewrittenQuests(cfg, locale, locations, old(db.quests))
  {
    var remaining := db.quests.Keys;
    while remaining != {}
      invariant remaining <= old(db.quests).Keys == db.quests.Keys
      invariant forall k :: k in old(db.quests) && k !in remaining ==>
                  db.quests[k] == RewrittenQuest(cfg, locale, locations, old(db.quests)[k])
      invariant forall k :: k in remaining ==> db.quests[k] == old(db.quests)[k]
      decreases remaining
    {
      var k :| k in remaining;
      var q := RewriteQuest(cfg, locale, locations, db.quests[k]);
      db.quests := db.quests[k := q];
      remaining := remaining - {k};
    }
  }

  // ---------------------------------------------------------------------
  // Repeatable-quest templates
  // ---------------------------------------------------------------------

  /** The template stage runs: some removal switch is on and repeatables are affected. */
  predicate TemplatesStageRuns(cfg: Config) {
    AnyEnabled(cfg.removeConditions) && cfg.affectRepeatables
  }

  /**
   * Every template has elimination blocks. A template without them would
   * reach the loop over its (null) elimination list, which the source
   * dereferences.
   */
  predicate EliminationsPresent(templates: seq<RepeatableTemplate>) {
    forall i :: 0 <= i < |templates| ==> templates[i].elimination.Some?
  }

  /** The template list after the pass: only the map and found-in-raid edits. */
  function TemplatesAfter(cfg: Config, templates: seq<RepeatableTemplate>): seq<RepeatableTemplate> {
    if !TemplatesStageRuns(cfg) then templates
    else seq(|templates|, i requires 0 <= i < |templates| => RelaxTemplateSettings(cfg.removeConditions, templates[i]))
  }

  /** The template loop; its elimination-block guard skips every template that has blocks. */
  method RelaxTemplates(store: QuestConfigStore, cfg: Config)
    requires TemplatesStageRuns(cfg) ==> EliminationsPresent(store.repeatableQuests)
    modifies store
    ensures store.repeatableQuests == TemplatesAfter(cfg, old(store.repeatableQuests))
  {
    if !TemplatesStageRuns(cfg) {
      return;
    }
    var remove := cfg.removeConditions;
    var templates := store.repeatableQuests;
    var i := 0;
    while i < |templates|
      invariant 0 <= i <= |templates| == |old(store.repeatableQuests)|
      invariant forall j :: 0 <= j < i ==> templates[j] == RelaxTemplateSettings(remove, old(store.repeatableQuests)[j])
      invariant forall j :: i <= j < |templates| ==> templates[j] == old(store.repeatableQuests)[j]
    {
      var t := RelaxTemplateSettings(remove, templates[i]);
      templates := templates[i := t];
      i := i + 1;
      if t.elimination.Some? {
        continue;
      }
      assert false;
    }
    store.repeatableQuests := templates;
  }

  /** Every template keeps its elimination blocks as they were, whatever the switches. */
  lemma EliminationsNeverRelaxed(cfg: Config, templates: seq<RepeatableTemplate>, i: nat)
    requires i < |templates|
    ensures |TemplatesAfter(cfg, templates)| == |templates|
    ensures TemplatesAfter(cfg, templates)[i].elimination == templates[i].elimination
    ensures TemplatesStageRuns(cfg) && cfg.removeConditions.gameMap ==> TemplatesAfter(cfg, templates)[i].locations == AnyLocation
    ensures !TemplatesStageRuns(cfg) ==> TemplatesAfter(cfg, templates)[i] == templates[i]
  {
  }

  // ---------------------------------------------------------------------
  // OnLoad
  // ---------------------------------------------------------------------

  /** The zone scan can run: zone on and map off (zone on already makes AnyEnabled true). */
  predicate ZoneScanOn(remove: ConditionsConfig) {
    remove.zone && !remove.gameMap
  }

  /**
   * The locations the zone scan enumerates. The source builds them lazily,
   * so the English names are only looked up when the scan runs; otherwise
   * the table is never enumerated and its contents play no part.
   */
  function ScannedLocations(remove: ConditionsConfig, entries: seq<LocationEntry>, locale: map<string, string>)
    : seq<LocationInfo>
    requires ZoneScanOn(remove) ==> NamesKnown(entries, locale)
  {
    if ZoneScanOn(remove) then LocationTable(entries, locale) else []
  }

  /** The whole pass after the configuration is read: quest table, then repeatable templates. */
  method OnLoad(
    db: QuestDatabase, questConfig: QuestConfigStore, cfg: Config,
    locale: map<string, string>, entries: seq<LocationEntry>)
    requires ZoneScanOn(cfg.removeConditions) ==> NamesKnown(entries, locale)
    requires PatchTargetsPresent(cfg.lightkeeperOnlyRequireLevel, cfg.tarkovShooterM10, db.quests)
    requires forall k :: k in db.quests ==>
               QuestReady(cfg, locale, ScannedLocations(cfg.removeConditions, entries, locale), db.quests[k])
    requires TemplatesStageRuns(cfg) ==> EliminationsPresent(questConfig.repeatableQuests)
    modifies db, questConfig
    ensures db.quests == QuestsAfter(cfg, locale, ScannedLocations(cfg.removeConditions, entries, locale), old(db.quests))
    ensures questConfig.repeatableQuests == TemplatesAfter(cfg, old(questConfig.repeatableQuests))
  {
    var locations: seq<LocationInfo> := [];
    if ZoneScanOn(cfg.removeConditions) {
      locations := LocationTable(entries, locale);
    }
    ApplyPatches(db, cfg);
    forall k | k in db.quests ensures QuestReady(cfg, locale, locations, db.quests[k]) {
      PatchesKeepReady(cfg, locale, locations, old(db.quests), k);
    }
    RewriteEachQuest(db, cfg, locale, locations);
    RelaxTemplates(questConfig, cfg);
  }
}

# Quest Tweaks — a Dafny model of the quest rewrite pipeline

Quest Tweaks is a server mod that rewrites the quest database once it is loaded, driven by a
configuration record. It exists twice: a TypeScript version (`src/mod.ts`, `Mod.postDBLoad`)
and a C# version (`Mod.cs`, `QuestTweaks.OnLoad`, with the configuration in `Config.cs`).
This project models the rewrite pipeline of both versions and proves what each one
promises. It also proves where the two versions part ways.

The pipeline works on quests. Each quest has finish objectives, an objective's counter has
leaf conditions, and each leaf has restriction lists. The steps are:

- three global rules: reveal objectives, reveal rewards, remove time gates;
- two hard-coded patches: the Network Provider level gate and the TRG M10 rifle for Tarkov
  Shooter;
- a per-objective pipeline:
  - hand-in found-in-raid and count override;
  - InZone → Location conversion against a location table;
  - toggle-driven leaf removal;
  - auto-complete when only restrictive leaves remain;
  - relaxation of Kills/Shots leaves;
- rules for the repeatable-quest generation templates.

The hand-in count, the elimination count and the exempt-quest list are TypeScript-only:
`Config.cs` has no setting for either count, and `Mod.cs` never reads `ExemptQuests`.

## Layout

- `config.dfy` (module `Configuration`): `Config` and `ConditionsConfig`, and the master
  switch `AnyEnabled`.
- `quest_data.dfy` (module `QuestData`):
  - the records: leaves, conditions, quests, items, locations and templates;
  - the two host collections the pass changes in place: the `QuestDatabase` class
    (quest table) and the `QuestConfigStore` class (repeatable templates);
  - the hard-coded ids.
- `quest_rules.dfy` (module `QuestRules`): the rules both versions state the same way:
  - substring search, the first-leaf search, the leaf filter and the "only restrictive"
    test;
  - the kill/shot relaxation, the reveal loops and the level gate;
  - the weapon append and the map/found-in-raid template edits.
- `ts_mod.dfy` (module `TsMod`): the TypeScript pass, `PostDbLoad`.
- `cs_mod.dfy` (module `CsMod`): the C# pass, `OnLoad`.
- `divergences.dfy` (module `Divergences`): lemmas that set the two versions side by side.

Records (quests, objectives, leaves, templates) are values. The quest table and the
template list are fields of the two classes, reassigned by methods that declare them in
`modifies`. Every loop of the source is a `method` with a loop, proved equal to a
specification function of its inputs. The properties are then proved about those
functions.

The model keeps these JavaScript semantics of the TypeScript version:

- `a || b` on locale names: an empty or undefined first lookup falls back to the second.
- `text.includes(undefined)` searches for the string `"undefined"`.
- `target[0]` of a single-string target is that string's first character.
- The time-gate test is truthiness: a delay of 0 is left alone. `Divergences.TimeGatesAgree`
  proves that this gives the same result as the C# null test.

Behaviour kept exactly as the code has it:

- **Zone conversion.** In the TypeScript version every later matching location appends its
  id to the converted leaf, and the scan runs over the whole table. The C# version stops at
  the first match for each InZone leaf.
- **Daytime.** The daytime window of a relaxed leaf is set to 0-0 whether or not it had one.
- **Missing text or ids.** Where the code dereferences a lookup that may be missing (locale
  text, hard-coded quest ids), the model states the lookup as a `requires`.
- **Hand-in items.** The TypeScript version reads `items[target[0]]` for every hand-in
  objective, but touches the item's properties only when the configured count is >= 0.
  The model requires a known item only then; an empty target is looked up under the key
  `"undefined"`, as JavaScript does.
- **Level gate.** The first start condition's id is reused; there is no fallback id.
- **Template targets.** The elimination targets are replaced only under target removal.

## Model

| member | source | states |
|---|---|---|
| Configuration.AnyEnabledIffSomeSwitch | Config.cs:74-89 | AnyEnabled holds exactly when at least one of the thirteen switches is on |
| Configuration.AnyEnabledFalseWhenAllOff | Config.cs:74-89 | with every switch off AnyEnabled is false (and the record is the all-off one) |
| Configuration.AnyEnabledMonotone | Config.cs:76-88 | turning switches on never turns AnyEnabled off |
| Configuration.AnyEnabledAfterSwitchOn | Config.cs:74-89 | turning any single switch on makes AnyEnabled true |
| Configuration.AnyEnabledIgnoresTopLevel | Config.cs:6-31 | AnyEnabled depends on the removal switches only, not on the top-level Config fields |
| QuestRules.ContainsIffOffset | src/mod.ts:240 | the substring test used by both scans holds iff the part occurs at some offset of the text |
| QuestRules.FindFirst | src/mod.ts:232-235 | the result is the index of the first leaf of the wanted kinds, or none when no leaf has them |
| QuestRules.FindFirstByKinds | src/mod.ts:279-280 | the first-leaf search depends only on the leaves' kinds |
| QuestRules.RemoveToggledExactly | src/mod.ts:258-265 | a leaf survives the filter (and the C# RemoveAll) iff it was present and no switched-on toggle selects it; every copy of a kept leaf survives (multiset counts) and the survivors keep their order |
| QuestRules.RemoveToggledSound | src/mod.ts:258-267 | no surviving leaf is of a toggled kind; the counter never grows |
| QuestRules.Relax | src/mod.ts:289-329 | each switched-on toggle lifts its restriction (sets cleared, target "Any", distance >= 0, daytime 0-0) and every other field is kept; the C# loop body makes the same edits |
| QuestRules.RelaxUnique | src/mod.ts:289-329 | any leaf that has the toggled fields lifted and agrees on the rest is the relaxed leaf: each toggle sets exactly its fields |
| QuestRules.RelaxIdempotent | Mod.cs:298-356 | relaxing an already relaxed leaf changes nothing |
| QuestRules.RevealObjectivesLoop | src/mod.ts:180-184 | every objective's visibility conditions become empty, nothing else changes |
| QuestRules.RevealRewardsLoop | Mod.cs:220-226 | every Success reward is marked known, nothing else changes |
| QuestRules.LevelGated | src/mod.ts:152-160 | with a positive level Network Provider's start list becomes the one Level condition reusing the first id; every other quest and field is unchanged |
| QuestRules.ApplyLevelGate | Mod.cs:158-176 | the in-place patch leaves the table equal to LevelGated of the old table |
| QuestRules.QuestsWithWeapon | src/mod.ts:162-174 | the weapon append keeps the set of quests |
| QuestRules.QuestsWithWeaponKeepsShape | src/mod.ts:162-174 | the append changes no quest's id, location, start conditions, objective ids, kinds, targets or leaf kinds |
| QuestRules.QuestsWithWeaponAt | Mod.cs:182-202 | with distinct ids each listed quest gets the append exactly once and every other quest is unchanged |
| QuestRules.TarkovShooterPatched | Mod.cs:158-203 | after both patches each Tarkov Shooter quest is the original with the rifle appended once to its selected leaves (the level gate never reaches it) |
| QuestRules.WithWeaponTwiceDuplicates | src/mod.ts:169 | the append is unguarded: running it twice lists the rifle twice, so the pass is not idempotent |
| QuestRules.WithWeaponKeepsKinds | Mod.cs:192-200 | the append changes no leaf's kind |
| QuestRules.AppendWeapon | src/mod.ts:167-171 | the leaf loop appends the rifle to exactly the leaves of the selected kinds |
| QuestRules.AppendWeaponToObjectives | src/mod.ts:165-172 | the objective loop appends only inside CounterCreator counters |
| QuestRules.AppendWeaponToQuests | Mod.cs:182-202 | the in-place loop over the listed quests leaves the table equal to QuestsWithWeapon of the old one |
| QuestRules.RelaxTemplateSettings | src/mod.ts:342-354 | map removal sets locations to {"any": ["any"]} and the specific-exit probability to 0; found-in-raid removal clears the FiR flag; nothing else changes |
| TsMod.EnabledLocationsExactly | src/mod.ts:62-69 | a row is in the enabled part exactly when some enabled location produced it; never more rows than locations |
| TsMod.LocationTableShape | src/mod.ts:62-72 | the table is the enabled rows followed by night Factory under the literal name "Factory" |
| TsMod.MatchingIdsExactly | src/mod.ts:239-240 | an id is matched iff some location with that id is the quest's map or is named in the objective text |
| TsMod.ConvertZoneLeaf | src/mod.ts:239-252 | the scan turns the InZone leaf into a Location leaf targeting every matching id in table order, or leaves it as is when nothing matches |
| TsMod.ZoneStageConvertsFirstZoneOnly | src/mod.ts:231-253 | only the first InZone leaf is rewritten, only when zone && !map and no Location leaf exists, and the counter never holds two Location leaves |
| TsMod.OverrideHandover | src/mod.ts:211-223 | the hand-in branch equals HandoverStage: FiR cleared if configured, count overridden for overridable items; the item is looked up only when the count is >= 0 |
| TsMod.ConvertZones | src/mod.ts:231-254 | the zone branch equals ZoneStage |
| TsMod.RelaxFirstKill | src/mod.ts:271-329 | the auto-complete and first-kill relaxation steps equal RelaxStage |
| TsMod.RewriteObjective | src/mod.ts:210-330 | the objective loop body equals RewrittenObjective |
| TsMod.HandoverOverride | src/mod.ts:211-222 | with a negative count the value is kept whether or not the item is known; with a count >= 0 the objective gets it iff the item is not a quest item, key or blacklisted; FiR cleared if configured, counter, kind and target kept |
| TsMod.HandoverNeverOverridesProtectedItems | src/mod.ts:30-35 | quest items, keys and blacklisted items keep their count whatever count is configured |
| TsMod.NoToggledLeafSurvives | src/mod.ts:258-267 | after the pipeline no counter leaf is of a toggled kind |
| TsMod.AutoCompleteWhenOnlyRestrictive | src/mod.ts:271-277 | when only Equipment/Location/InZone leaves survive (or none) the value becomes 0 and no leaf is relaxed |
| TsMod.RelaxesOnlyFirstKillLeaf | src/mod.ts:279-329 | only the first Kills/Shots leaf is relaxed; every other surviving leaf is kept |
| TsMod.EliminationCountOnlyForKills | src/mod.ts:271-287 | both directions: a configured eliminationCount becomes the value whenever the counter is not only restrictive and its first kill/shot leaf is a Kills leaf; conversely a changed value comes from auto-complete or from that case |
| TsMod.ClearTimeGatesLoop | src/mod.ts:192-198 | every truthy start delay becomes 0, nothing else changes |
| TsMod.RewriteObjectives | src/mod.ts:210-330 | the objective loop rewrites every objective by RewrittenObjective |
| TsMod.RewriteQuest | src/mod.ts:178-330 | the quest loop body equals RewrittenQuest (global rules, then the pipeline unless exempt or nothing to modify) |
| TsMod.GlobalRulesReachEveryQuest | src/mod.ts:177-198 | the three global rules reach every quest, exempt or not |
| TsMod.ExemptQuestObjectivesUntouched | src/mod.ts:200-206 | exempt quests, and runs where shouldModifyConditions is false, keep every objective's counter, value and FiR flag |
| TsMod.PatchedQuests | src/mod.ts:152-174 | the two patches keep the set of quests |
| TsMod.PatchesKeepReady | src/mod.ts:152-174 | the patches change nothing the pipeline's lookups depend on |
| TsMod.RewrittenQuests | src/mod.ts:177-331 | the quest loop keeps the set of quests |
| TsMod.QuestsAfter | src/mod.ts:152-331 | the pass keeps the set of quests |
| TsMod.NetworkProviderGate | src/mod.ts:39-51 | with a positive level Network Provider ends with exactly one Level >= level condition with the old first id, empty parent and visibility |
| TsMod.ApplyPatches | src/mod.ts:152-174 | the in-place patches leave the table equal to PatchedQuests |
| TsMod.RewriteEachQuest | src/mod.ts:177-331 | the in-place quest loop leaves the table equal to RewrittenQuests |
| TsMod.RewriteQuests | src/mod.ts:152-331 | the quest-table part of the pass leaves the table equal to QuestsAfter |
| TsMod.RelaxEliminationBlocks | src/mod.ts:361-385 | every elimination block gets the toggled probabilities zeroed and targets replaced |
| TsMod.RelaxTemplates | src/mod.ts:336-386 | the template loop leaves the template list equal to TemplatesAfter |
| TsMod.TemplateRules | src/mod.ts:336-386 | templates are untouched unless shouldModifyConditions && affectRepeatables; map removal gives {"any": ["any"]} and exit probability 0; target removal gives the single "Any" target |
| TsMod.PostDbLoad | src/mod.ts:53-387 | the whole pass leaves the quest table equal to QuestsAfter and the templates equal to TemplatesAfter |
| CsMod.LocationTableRows | Mod.cs:64-73 | every row comes from an enabled location, named by its English text |
| CsMod.LocationTableComplete | Mod.cs:64-73 | the table has one row per enabled location, and the row of each enabled location sits at the position given by the enabled locations before it (entry order, which FirstOrDefault-style scans depend on) |
| CsMod.FirstMatch | Mod.cs:267-276 | the result is the first location that is the quest's map or is named in the objective text, or none when every location misses |
| CsMod.ConvertZoneLeaf | Mod.cs:267-277 | the scan with break converts the leaf for the first match only |
| CsMod.ConvertZones | Mod.cs:258-279 | the leaf loop converts every InZone leaf |
| CsMod.ZoneStageConvertsEveryZone | Mod.cs:258-279 | each InZone leaf becomes a Location leaf with zones cleared and the single first-match id, or stays as is when nothing matches |
| CsMod.RelaxKillLeaves | Mod.cs:298-356 | the loop relaxes every Kills/Shots leaf |
| CsMod.RelaxAllLiftsEveryKill | Mod.cs:298-356 | every Kills/Shots leaf has its toggled restrictions lifted and keeps the rest; other leaves are untouched |
| CsMod.RewriteObjective | Mod.cs:244-357 | the objective loop body equals RewrittenObjective |
| CsMod.CounterObjectiveRules | Mod.cs:281-356 | no toggled leaf survives; only-restrictive counters get value 0 unrelaxed; otherwise every kill/shot leaf is relaxed and the value kept |
| CsMod.HandoverObjectiveRules | Mod.cs:246-256 | a hand-in objective only has FiR cleared when that switch is on |
| CsMod.ClearTimeGatesLoop | Mod.cs:228-237 | every present start delay becomes 0 |
| CsMod.RewriteObjectives | Mod.cs:244-357 | the objective loop rewrites every objective by RewrittenObjective |
| CsMod.RewriteQuest | Mod.cs:210-357 | the quest loop body equals RewrittenQuest (global rules, then the pipeline when AnyEnabled) |
| CsMod.NothingEnabledKeepsObjectives | Mod.cs:206-242 | with AnyEnabled false only the global rules apply; every objective is unchanged apart from visibility |
| CsMod.TimeGatesCleared | Mod.cs:228-237 | every non-null delay becomes 0 and null ones stay null |
| CsMod.PatchedQuests | Mod.cs:158-203 | the two patches keep the set of quests |
| CsMod.PatchesKeepReady | Mod.cs:158-203 | the patches change nothing the pipeline's lookups depend on |
| CsMod.RewrittenQuests | Mod.cs:208-358 | the quest loop keeps the set of quests |
| CsMod.QuestsAfter | Mod.cs:158-358 | the pass keeps the set of quests |
| CsMod.NetworkProviderGate | Mod.cs:158-176 | Network Provider ends with one Level >= level condition reusing the old first id |
| CsMod.ApplyPatches | Mod.cs:158-203 | the in-place patches leave the table equal to PatchedQuests |
| CsMod.RewriteEachQuest | Mod.cs:208-358 | the in-place quest loop leaves the table equal to RewrittenQuests |
| CsMod.RelaxTemplates | Mod.cs:360-423 | the template loop applies only the map and FiR edits; its guard skips every template with elimination blocks |
| CsMod.EliminationsNeverRelaxed | Mod.cs:367-391 | every template keeps its elimination blocks; the map edit still happens |
| CsMod.OnLoad | Mod.cs:62-425 | the whole pass leaves the quest table equal to QuestsAfter and the templates equal to TemplatesAfter |
| Divergences.TimeGatesAgree | Mod.cs:228-237 | the C# null test and the TypeScript truthiness test give the same start conditions |
| Divergences.RelaxFirstVersusAll | src/mod.ts:279-280 | a kill/shot leaf that is not the first is kept by the TypeScript version and relaxed by the C# version |
| Divergences.ZoneConversionCounts | Mod.cs:260-277 | with two InZone leaves and a match the C# version leaves at least two Location leaves, the TypeScript version at most one |
| Divergences.ExemptionIgnoredByCs | src/mod.ts:200-202 | an exempt quest keeps its kill target in the TypeScript version and loses it in the C# version |
| Divergences.M10ShotsDivergence | Mod.cs:194 | the TypeScript patch leaves Shots leaves alone; the C# patch appends the rifle to them |
| Divergences.EliminationsDiverge | Mod.cs:387-391 | an elimination block is relaxed by the TypeScript version and left as is by the C# version |
| Divergences.HandoverCountTsOnly | src/mod.ts:216-222 | with a hand-in count set, whatever the removal switches, the TypeScript version gives an ordinary item that count and the C# version, which has no such setting, keeps the value |

## Left out

- Dependency injection, the logger and every log line are host services. Their results
  (quest table, items, locale, locations, template list) are parameters of `PostDbLoad`
  and `OnLoad`.
- Reading `config.json` and the `JsonException` path are file I/O. The configuration is a
  parameter.
- `ModMetadata` and `src/config.ts` hold static data only.
- The contents of `BaseClasses`, `ItemTpl` and `Weapons` are foreign enums. They are
  opaque string constants. Both versions' TRG M10 constants are taken as the same
  `TrgM10` id.
- TsMod.ShouldModifyConditions takes `Object.values(removeConditions)` to be the thirteen
  switches of `ConditionsConfig`. Extra keys in the JSON file are not modelled.
- Aliasing is not modelled. Records are values, so the model does not capture a leaf or
  objective shared between two quests, whose in-place update would be seen through both.
- Crashes are not modelled as outcomes. Where the source would dereference a missing
  locale text, quest id, first start condition or factory4_night entry, or (TypeScript,
  count >= 0 only) a missing hand-in item, the model states the lookup as a precondition.
- Restriction lists (`SavageRole`, `Weapon`, `WeaponCaliber`, the weapon-mod and
  enemy-equipment lists, `EnemyHealthEffects`, `BodyPart`) and `VisibilityConditions` are
  `seq`s and so always present. The C# version calls `Clear()`/`Add()` on them
  (Mod.cs:199, 216, 307-336) and would fail on a null list where the TypeScript version
  assigns a fresh `[]`; that failure is not modelled.
- `OtherLeaf(name)` and `OtherCondition(name)` stand for tags outside the listed kinds;
  the model never builds them with a listed tag's name, so each source tag has one value.
- CsMod.OnLoad requires the English name of every enabled location whenever the zone scan
  is on. The lazy C# query looks up only the names of the locations it enumerates before a
  match, so this is slightly stronger than the source needs. Note on the source (not
  executed): Mod.cs:69 reads `enLocale[loc.Base.Id]` with no fallback, while the comment at
  src/mod.ts:65 says the lab and terminal names are missing under `Id`; on such a database
  the C# scan throws `KeyNotFoundException` once it reaches one of those entries before a
  match, which the model excludes by this precondition.
- CsMod.RelaxTemplates requires every template to have elimination blocks when the
  template stage runs. With a null list the source's inverted guard (Mod.cs:388-391) falls
  through to a loop over null, so the relaxation of elimination blocks is unreachable in
  the C# version.
- QuestRules.LevelCondition is used for both versions. The C# initialiser leaves Index,
  DynamicLocale, GlobalQuestCounterId, ParentId and VisibilityConditions at their
  defaults. The model gives them the TypeScript values (0, false, "", "", []), so
  CsMod.NetworkProviderGate states only the fields the C# code sets.
- Floating-point template probabilities are Dafny `real`s. Only the constants 0 and 1 are
  ever written.

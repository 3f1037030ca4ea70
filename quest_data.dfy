/**
 * The records the quest rewrite works on: quests, their start and finish
 * conditions, the counter leaves of `CounterCreator` objectives, rewards,
 * items, locations and the repeatable-quest generation templates; plus the
 * two host collections the rewrite changes in place and the hard-coded ids.
 */
module QuestData {

  datatype Option<T> = None | Some(value: T)

  /** A condition's `target`: either a single id or a list of ids. */
  datatype Target = Single(id: string) | Many(ids: seq<string>)

  /**
   * The `conditionType` of a counter leaf. `OtherLeaf` holds a tag outside
   * the listed kinds and is never built with a listed kind's name.
   */
  datatype LeafKind =
    | Kills | Shots | InZone | Location | Equipment | HealthEffect
    | OtherLeaf(name: string)

  datatype Distance = Distance(compareMethod: string, value: int)

  datatype Daytime = Daytime(from: int, to: int)

  /** One counter condition (leaf) with its restriction fields. */
  datatype Leaf = Leaf(
    id: string,
    kind: LeafKind,
    target: Target,
    savageRole: seq<string>,
    weapon: seq<string>,
    weaponCaliber: seq<string>,
    weaponModsInclusive: seq<seq<string>>,
    weaponModsExclusive: seq<seq<string>>,
    enemyEquipmentInclusive: seq<seq<string>>,
    enemyEquipmentExclusive: seq<seq<string>>,
    enemyHealthEffects: seq<string>,
    bodyPart: seq<string>,
    distance: Option<Distance>,
    daytime: Option<Daytime>,
    zoneIds: Option<seq<string>>)

  /**
   * The `conditionType` of a quest condition. `OtherCondition` holds a tag
   * outside the listed kinds and is never built with a listed kind's name.
   */
  datatype ConditionKind =
    | CounterCreator | HandoverItem | FindItem | Level
    | OtherCondition(name: string)

  /**
   * A quest condition, used both for start prerequisites and for finish
   * objectives. Visibility conditions are kept as their ids; `counter` holds
   * the leaves of a `CounterCreator` objective's counter.
   */
  datatype Condition = Condition(
    id: string,
    kind: ConditionKind,
    compareMethod: string,
    value: int,
    dynamicLocale: bool,
    globalQuestCounterId: string,
    index: int,
    parentId: string,
    visibilityConditions: seq<string>,
    onlyFoundInRaid: bool,
    target: Target,
    counter: seq<Leaf>,
    availableAfter: Option<int>)

  /** An entry of a quest's `Success` reward bundle. */
  datatype Reward = Reward(id: string, unknown: bool)

  datatype Quest = Quest(
    id: string,
    location: string,
    availableForStart: seq<Condition>,
    availableForFinish: seq<Condition>,
    successRewards: seq<Reward>)

  /** What the rewrite reads of an item template. */
  datatype Item = Item(id: string, parent: string, questItem: bool)

  /** A location's `base` record: `Id`, `_Id` (the map's mongo id) and `Enabled`. */
  datatype LocationBase = LocationBase(id: string, mongoId: string, enabled: bool)

  /** An entry of the location table: its key and its possibly missing `base`. */
  datatype LocationEntry = LocationEntry(key: string, base: Option<LocationBase>)

  /** A weighted elimination target of a repeatable-quest template. */
  datatype ProbabilityObject = ProbabilityObject(
    key: string, relativeProbability: real, isBoss: bool, isPmc: bool)

  /** One elimination generation block of a repeatable-quest template. */
  datatype EliminationConfig = EliminationConfig(
    targets: seq<ProbabilityObject>,
    weaponCategoryRequirementProb: real,
    weaponRequirementProb: real,
    bodyPartProb: real,
    distProb: real)

  datatype Exploration = Exploration(specificExitsProbability: real)

  datatype Completion = Completion(requiredItemsAreFiR: bool)

  /** A repeatable-quest generation template (not a live quest). */
  datatype RepeatableTemplate = RepeatableTemplate(
    name: string,
    locations: map<string, seq<string>>,
    exploration: Option<Exploration>,
    completion: Option<Completion>,
    elimination: Option<seq<EliminationConfig>>)

  /** The host's quest table, changed in place by the rewrite. */
  class QuestDatabase {
    var quests: map<string, Quest>

    constructor (quests: map<string, Quest>)
      ensures this.quests == quests
    {
      this.quests := quests;
    }
  }

  /** The host's quest configuration, whose repeatable templates the rewrite changes. */
  class QuestConfigStore {
    var repeatableQuests: seq<RepeatableTemplate>

    constructor (templates: seq<RepeatableTemplate>)
      ensures repeatableQuests == templates
    {
      repeatableQuests := templates;
    }
  }

  const NetworkProviderPart1 := "625d6ff5ddc94657c21a1625"

  /** The six Tarkov Shooter quests. */
  const TarkovShooter: seq<string> := [
    "5bc4776586f774512d07cf05",
    "5bc479e586f7747f376c7da3",
    "5bc47dbf86f7741ee74e93b9",
    "5bc480a686f7741af0342e29",
    "5bc4826c86f774106d22d88b",
    "5bc4836986f7740c0152911c"
  ]

  /** The Sako TRG M10 rifle; the host's item-id constant, kept opaque. */
  const TrgM10 := "SNIPERRIFLE_TRG_M10"

  /** The target marker meaning "any enemy". */
  const AnyTarget := "Any"
}

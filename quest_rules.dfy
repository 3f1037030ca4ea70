/**
 * The rewrite rules that the TypeScript version (src/mod.ts) and the C#
 * version (Mod.cs) state identically: substring search, the leaf filter, the
 * "only restrictive leaves" test, the first-leaf search, the relaxation of a
 * kill/shot leaf, the objective/reward reveal rules, the weapon append and the
 * map/found-in-raid edits of a repeatable template. Each version's own module
 * composes them.
 */
module QuestRules {
  import opened Configuration
  import opened QuestData

  // ---------------------------------------------------------------------
  // Substring search (`String.prototype.includes`, `string.Contains`)
  // ---------------------------------------------------------------------

  /** `part` occurs in `text`; the empty string occurs in every text. */
  predicate Contains(text: string, part: string)
    decreases |text|
  {
    part <= text || (|text| > 0 && Contains(text[1..], part))
  }

  /** `part` occurs in `text` starting at offset `i`. */
  predicate OccursAt(text: string, part: string, i: int) {
    0 <= i && i + |part| <= |text| && text[i..i + |part|] == part
  }

  /** Contains agrees with the offset definition of a substring. */
  lemma {:induction false} ContainsIffOffset(text: string, part: string)
    ensures Contains(text, part) <==> exists i :: OccursAt(text, part, i)
  {
    if part <= text {
      assert OccursAt(text, part, 0);
    } else if |text| > 0 {
      ContainsIffOffset(text[1..], part);
      if Contains(text[1..], part) {
        var i :| OccursAt(text[1..], part, i);
        assert OccursAt(text, part, i + 1);
      }
      if exists i :: OccursAt(text, part, i) {
        var i :| OccursAt(text, part, i);
        assert i != 0;
        assert OccursAt(text[1..], part, i - 1);
      }
    }
  }

  // ---------------------------------------------------------------------
  // Leaf classification and search
  // ---------------------------------------------------------------------

  /** The leaves the relaxation targets. */
  const KillKinds: set<LeafKind> := {Kills, Shots}

  /** The leaves that only restrict an objective and never make it progress. */
  const RestrictiveKinds: set<LeafKind> := {Equipment, Location, InZone}

  /** Index of the first leaf whose kind is in `kinds` (`Array.prototype.find`). */
  function FindFirst(leaves: seq<Leaf>, kinds: set<LeafKind>): (r: Option<nat>)
    ensures r.Some? ==> r.value < |leaves| && leaves[r.value].kind in kinds
    ensures r.Some? ==> forall j :: 0 <= j < r.value ==> leaves[j].kind !in kinds
    ensures r.None? ==> forall j :: 0 <= j < |leaves| ==> leaves[j].kind !in kinds
  {
    if leaves == [] then None
    else if leaves[0].kind in kinds then Some(0)
    else match FindFirst(leaves[1..], kinds)
      case None => None
      case Some(k) => Some(k + 1)
  }

  /** Two leaf lists with the same kinds, position by position. */
  predicate SameKinds(a: seq<Leaf>, b: seq<Leaf>) {
    |a| == |b| && forall i :: 0 <= i < |a| ==> a[i].kind == b[i].kind
  }

  /** The first-leaf search only looks at kinds. */
  lemma {:induction false} FindFirstByKinds(a: seq<Leaf>, b: seq<Leaf>, kinds: set<LeafKind>)
    requires SameKinds(a, b)
    ensures FindFirst(a, kinds) == FindFirst(b, kinds)
  {
    if a != [] && a[0].kind !in kinds {
      FindFirstByKinds(a[1..], b[1..], kinds);
    }
  }

  /** Number of leaves of kind `k`. */
  function CountKind(leaves: seq<Leaf>, k: LeafKind): nat {
    if leaves == [] then 0
    else (if leaves[0].kind == k then 1 else 0) + CountKind(leaves[1..], k)
  }

  /** No leaf of kind `k` exactly when the count is zero. */
  lemma {:induction false} CountKindZero(leaves: seq<Leaf>, k: LeafKind)
    ensures CountKind(leaves, k) == 0 <==> forall i :: 0 <= i < |leaves| ==> leaves[i].kind != k
  {
    if leaves != [] {
      CountKindZero(leaves[1..], k);
      assert forall i :: 1 <= i < |leaves| ==> leaves[i] == leaves[1..][i - 1];
    }
  }

  /** Replacing leaf `i` by one of a different kind changes the counts by one. */
  lemma {:induction false} CountKindUpdate(leaves: seq<Leaf>, i: nat, l: Leaf, k: LeafKind)
    requires i < |leaves|
    ensures CountKind(leaves[i := l], k) ==
            CountKind(leaves, k) - (if leaves[i].kind == k then 1 else 0) + (if l.kind == k then 1 else 0)
  {
    if i > 0 {
      assert leaves[i := l][1..] == leaves[1..][i - 1 := l];
      CountKindUpdate(leaves[1..], i - 1, l, k);
    } else {
      assert leaves[i := l][1..] == leaves[1..];
    }
  }

  // ---------------------------------------------------------------------
  // Leaf removal (`filter` in src/mod.ts, `RemoveAll` in Mod.cs)
  // ---------------------------------------------------------------------

  /** A leaf that one of the four removal toggles selects. */
  predicate Toggled(remove: ConditionsConfig, l: Leaf) {
    (remove.selfHealthEffect && l.kind == HealthEffect)
    || (remove.selfGear && l.kind == Equipment)
    || (remove.gameMap && l.kind == Location)
    || (remove.zone && l.kind == InZone)
  }

  /** The leaves that no toggle selects, in their original order. */
  function RemoveToggled(remove: ConditionsConfig, leaves: seq<Leaf>): seq<Leaf> {
    if leaves == [] then []
    else (if Toggled(remove, leaves[0]) then [] else [leaves[0]]) + RemoveToggled(remove, leaves[1..])
  }

  /** `a` is `b` with some elements left out, the rest in the same order. */
  predicate Subsequence<T(==)>(a: seq<T>, b: seq<T>)
    decreases |b|
  {
    a == [] || (b != [] && ((a[0] == b[0] && Subsequence(a[1..], b[1..])) || Subsequence(a, b[1..])))
  }

  /**
   * The filter keeps exactly the leaves no toggle selects: a leaf survives
   * iff it was there and is not selected, every copy of a kept leaf
   * survives, and the survivors keep their order.
   */
  lemma {:induction false} RemoveToggledExactly(remove: ConditionsConfig, leaves: seq<Leaf>)
    ensures forall l :: l in RemoveToggled(remove, leaves) <==> l in leaves && !Toggled(remove, l)
    ensures forall l :: multiset(RemoveToggled(remove, leaves))[l]
                        == if Toggled(remove, l) then 0 else multiset(leaves)[l]
    ensures Subsequence(RemoveToggled(remove, leaves), leaves)
  {
    RemoveToggledCounts(remove, leaves);
    if leaves != [] {
      RemoveToggledExactly(remove, leaves[1..]);
      assert leaves == [leaves[0]] + leaves[1..];
      var rest := RemoveToggled(remove, leaves[1..]);
      if Toggled(remove, leaves[0]) {
        assert RemoveToggled(remove, leaves) == rest;
      } else {
        assert RemoveToggled(remove, leaves) == [leaves[0]] + rest;
        assert ([leaves[0]] + rest)[1..] == rest;
      }
    }
  }

  /** Each leaf occurs in the filtered list as often as in the input, or not at all if toggled. */
  lemma {:induction false} RemoveToggledCounts(remove: ConditionsConfig, leaves: seq<Leaf>)
    ensures forall l :: multiset(RemoveToggled(remove, leaves))[l]
                        == if Toggled(remove, l) then 0 else multiset(leaves)[l]
  {
    if leaves != [] {
      RemoveToggledCounts(remove, leaves[1..]);
      var rest := RemoveToggled(remove, leaves[1..]);
      assert leaves == [leaves[0]] + leaves[1..];
      assert multiset(leaves) == multiset{leaves[0]} + multiset(leaves[1..]);
      if Toggled(remove, leaves[0]) {
        assert RemoveToggled(remove, leaves) == rest;
      } else {
        assert RemoveToggled(remove, leaves) == [leaves[0]] + rest;
        assert multiset(RemoveToggled(remove, leaves)) == multiset{leaves[0]} + multiset(rest);
      }
    }
  }

  /** Leaves the filter keeps are never toggled; the filter never grows the list. */
  lemma {:induction false} RemoveToggledSound(remove: ConditionsConfig, leaves: seq<Leaf>)
    ensures |RemoveToggled(remove, leaves)| <= |leaves|
    ensures forall i :: 0 <= i < |RemoveToggled(remove, leaves)| ==>
              !Toggled(remove, RemoveToggled(remove, leaves)[i])
  {
    RemoveToggledExactly(remove, leaves);
    if leaves != [] {
      RemoveToggledSound(remove, leaves[1..]);
    }
    forall i | 0 <= i < |RemoveToggled(remove, leaves)|
      ensures !Toggled(remove, RemoveToggled(remove, leaves)[i])
    {
      assert RemoveToggled(remove, leaves)[i] in RemoveToggled(remove, leaves);
    }
  }

  /** Every remaining leaf is Equipment, Location or InZone (`every`, `TrueForAll`). */
  predicate OnlyRestrictive(leaves: seq<Leaf>) {
    forall i :: 0 <= i < |leaves| ==> leaves[i].kind in RestrictiveKinds
  }

  // ---------------------------------------------------------------------
  // Relaxation of a kill/shot leaf
  // ---------------------------------------------------------------------

  /** Every restriction the switched-on toggles name is lifted in `l`. */
  predicate Lifted(remove: ConditionsConfig, l: Leaf) {
    && (remove.target ==> l.savageRole == [] && l.target == Single(AnyTarget))
    && (remove.weapon ==> l.weapon == [] && l.weaponCaliber == [])
    && (remove.weaponMods ==> l.weaponModsExclusive == [] && l.weaponModsInclusive == [])
    && (remove.enemyHealthEffect ==> l.enemyHealthEffects == [])
    && (remove.enemyGear ==> l.enemyEquipmentExclusive == [] && l.enemyEquipmentInclusive == [])
    && (remove.bodyPart ==> l.bodyPart == [])
    && (remove.distance ==> l.distance == Some(Distance(">=", 0)))
    && (remove.time ==> l.daytime == Some(Daytime(0, 0)))
  }

  /** `a` and `b` agree on every field that no switched-on toggle names. */
  predicate AgreeOffToggles(remove: ConditionsConfig, a: Leaf, b: Leaf) {
    && a.id == b.id && a.kind == b.kind && a.zoneIds == b.zoneIds
    && (!remove.target ==> a.savageRole == b.savageRole && a.target == b.target)
    && (!remove.weapon ==> a.weapon == b.weapon && a.weaponCaliber == b.weaponCaliber)
    && (!remove.weaponMods ==> a.weaponModsExclusive == b.weaponModsExclusive
                                && a.weaponModsInclusive == b.weaponModsInclusive)
    && (!remove.enemyHealthEffect ==> a.enemyHealthEffects == b.enemyHealthEffects)
    && (!remove.enemyGear ==> a.enemyEquipmentExclusive == b.enemyEquipmentExclusive
                               && a.enemyEquipmentInclusive == b.enemyEquipmentInclusive)
    && (!remove.bodyPart ==> a.bodyPart == b.bodyPart)
    && (!remove.distance ==> a.distance == b.distance)
    && (!remove.time ==> a.daytime == b.daytime)
  }

  /**
   * The per-toggle clears and resets applied to a Kills/Shots leaf: each
   * switched-on toggle lifts its restriction and nothing else changes.
   */
  function Relax(remove: ConditionsConfig, l: Leaf): (r: Leaf)
    ensures Lifted(remove, r)
    ensures AgreeOffToggles(remove, l, r)
  {
    l.(savageRole := if remove.target then [] else l.savageRole,
       target := if remove.target then Single(AnyTarget) else l.target,
       weapon := if remove.weapon then [] else l.weapon,
       weaponCaliber := if remove.weapon then [] else l.weaponCaliber,
       weaponModsExclusive := if remove.weaponMods then [] else l.weaponModsExclusive,
       weaponModsInclusive := if remove.weaponMods then [] else l.weaponModsInclusive,
       enemyHealthEffects := if remove.enemyHealthEffect then [] else l.enemyHealthEffects,
       enemyEquipmentExclusive := if remove.enemyGear then [] else l.enemyEquipmentExclusive,
       enemyEquipmentInclusive := if remove.enemyGear then [] else l.enemyEquipmentInclusive,
       bodyPart := if remove.bodyPart then [] else l.bodyPart,
       distance := if remove.distance then Some(Distance(">=", 0)) else l.distance,
       daytime := if remove.time then Some(Daytime(0, 0)) else l.daytime)
  }

  /** Relax's contract determines its result: any leaf meeting it is Relax's. */
  lemma RelaxUnique(remove: ConditionsConfig, l: Leaf, r: Leaf)
    requires Lifted(remove, r) && AgreeOffToggles(remove, l, r)
    ensures r == Relax(remove, l)
  {
  }

  /** Relaxing twice is relaxing once. */
  lemma RelaxIdempotent(remove: ConditionsConfig, l: Leaf)
    ensures Relax(remove, Relax(remove, l)) == Relax(remove, l)
  {
    RelaxUnique(remove, Relax(remove, l), Relax(remove, l));
  }

  /** Every Kills/Shots leaf relaxed, every other leaf as it was. */
  function RelaxAll(remove: ConditionsConfig, leaves: seq<Leaf>): seq<Leaf> {
    seq(|leaves|, i requires 0 <= i < |leaves| =>
      if leaves[i].kind in KillKinds then Relax(remove, leaves[i]) else leaves[i])
  }

  // ---------------------------------------------------------------------
  // Classification of entries and objectives
  // ---------------------------------------------------------------------

  /** `loc.base?.Enabled` (`loc.Base?.Enabled ?? false`): a missing base counts as disabled. */
  predicate IsEnabled(e: LocationEntry) {
    e.base.Some? && e.base.value.enabled
  }

  /** A hand-in objective: `HandoverItem` or `FindItem`. */
  predicate IsHandover(o: Condition) {
    o.kind == HandoverItem || o.kind == FindItem
  }

  // ---------------------------------------------------------------------
  // Global per-quest rules shared by both versions
  // ---------------------------------------------------------------------

  /** Every objective made unconditionally visible. */
  function RevealObjectives(objectives: seq<Condition>): seq<Condition> {
    seq(|objectives|, i requires 0 <= i < |objectives| => objectives[i].(visibilityConditions := []))
  }

  /** Every Success reward marked as known. */
  function RevealRewards(rewards: seq<Reward>): seq<Reward> {
    seq(|rewards|, i requires 0 <= i < |rewards| => rewards[i].(unknown := false))
  }

  /** The loop clearing every objective's visibility conditions. */
  method RevealObjectivesLoop(objectives: seq<Condition>) returns (r: seq<Condition>)
    ensures r == RevealObjectives(objectives)
  {
    r := objectives;
    var i := 0;
    while i < |r|
      invariant 0 <= i <= |r| == |objectives|
      invariant forall j :: 0 <= j < i ==> r[j] == objectives[j].(visibilityConditions := [])
      invariant forall j :: i <= j < |r| ==> r[j] == objectives[j]
    {
      r := r[i := r[i].(visibilityConditions := [])];
      i := i + 1;
    }
  }

  /** The loop marking every Success reward as known. */
  method RevealRewardsLoop(rewards: seq<Reward>) returns (r: seq<Reward>)
    ensures r == RevealRewards(rewards)
  {
    r := rewards;
    var i := 0;
    while i < |r|
      invariant 0 <= i <= |r| == |rewards|
      invariant forall j :: 0 <= j < i ==> r[j] == rewards[j].(unknown := false)
      invariant forall j :: i <= j < |r| ==> r[j] == rewards[j]
    {
      r := r[i := r[i].(unknown := false)];
      i := i + 1;
    }
  }

  // ---------------------------------------------------------------------
  // Network Provider patch
  // ---------------------------------------------------------------------

  /**
   * A `Level >= level` start condition reusing `conditionId`, with index 0,
   * no dynamic locale, no global counter, no parent and no visibility
   * conditions (`getLevelCondition`).
   */
  function LevelCondition(conditionId: string, level: int): Condition {
    Condition(conditionId, Level, ">=", level, false, "", 0, "", [], false, Many([]), [], None)
  }

  /**
   * The quests the two patches look up by id are present: Network Provider
   * with a first start condition to reuse, and the six Tarkov Shooter quests.
   */
  predicate PatchTargetsPresent(level: int, m10: bool, quests: map<string, Quest>) {
    && (level > 0 ==> NetworkProviderPart1 in quests && |quests[NetworkProviderPart1].availableForStart| > 0)
    && (m10 ==> forall i :: 0 <= i < |TarkovShooter| ==> TarkovShooter[i] in quests)
  }

  /**
   * With a positive level, Network Provider's start conditions become the
   * single Level condition; every other quest is left as it was.
   */
  function LevelGated(level: int, quests: map<string, Quest>): (r: map<string, Quest>)
    requires level > 0 ==> NetworkProviderPart1 in quests && |quests[NetworkProviderPart1].availableForStart| > 0
    ensures r.Keys == quests.Keys
    ensures forall k :: k in quests && k != NetworkProviderPart1 ==> r[k] == quests[k]
    ensures level <= 0 ==> r == quests
    ensures level > 0 ==>
              var q, g := quests[NetworkProviderPart1], r[NetworkProviderPart1];
              && g.availableForStart == [LevelCondition(q.availableForStart[0].id, level)]
              && g.(availableForStart := q.availableForStart) == q
  {
    if level > 0 then
      var q := quests[NetworkProviderPart1];
      quests[NetworkProviderPart1 := q.(availableForStart := [LevelCondition(q.availableForStart[0].id, level)])]
    else quests
  }

  /** The Network Provider patch, applied to the database in place. */
  method ApplyLevelGate(db: QuestDatabase, level: int)
    requires level > 0 ==> NetworkProviderPart1 in db.quests && |db.quests[NetworkProviderPart1].availableForStart| > 0
    modifies db
    ensures db.quests == LevelGated(level, old(db.quests))
  {
    if level > 0 {
      var q := db.quests[NetworkProviderPart1];
      var reuseId := q.availableForStart[0].id;
      db.quests := db.quests[NetworkProviderPart1 := q.(availableForStart := [LevelCondition(reuseId, level)])];
    }
  }

  // ---------------------------------------------------------------------
  // Weapon append (Tarkov Shooter patch)
  // ---------------------------------------------------------------------

  /** `w` appended to the weapon list of every leaf whose kind is in `kinds`. */
  function WithWeapon(leaves: seq<Leaf>, w: string, kinds: set<LeafKind>): seq<Leaf> {
    seq(|leaves|, i requires 0 <= i < |leaves| =>
      if leaves[i].kind in kinds then leaves[i].(weapon := leaves[i].weapon + [w]) else leaves[i])
  }

  /** WithWeapon applied to the counter of every CounterCreator objective. */
  function ObjectivesWithWeapon(objectives: seq<Condition>, w: string, kinds: set<LeafKind>): seq<Condition> {
    seq(|objectives|, i requires 0 <= i < |objectives| =>
      if objectives[i].kind == CounterCreator
      then objectives[i].(counter := WithWeapon(objectives[i].counter, w, kinds))
      else objectives[i])
  }

  /** The finish objectives of the quests `ids`, in order, given the weapon. */
  function QuestsWithWeapon(quests: map<string, Quest>, ids: seq<string>, w: string, kinds: set<LeafKind>)
    : (r: map<string, Quest>)
    requires forall i :: 0 <= i < |ids| ==> ids[i] in quests
    ensures r.Keys == quests.Keys
  {
    if ids == [] then quests
    else
      var m := QuestsWithWeapon(quests, ids[..|ids| - 1], w, kinds);
      var q := m[ids[|ids| - 1]];
      m[ids[|ids| - 1] := q.(availableForFinish := ObjectivesWithWeapon(q.availableForFinish, w, kinds))]
  }

  /** Two conditions with the same id, kind, target and counter kinds. */
  predicate SameShape(a: Condition, b: Condition) {
    a.id == b.id && a.kind == b.kind && a.target == b.target && SameKinds(a.counter, b.counter)
  }

  /**
   * The weapon append keeps every quest's id, location and objective shapes:
   * it changes nothing but weapon lists.
   */
  lemma {:induction false} QuestsWithWeaponKeepsShape(
    quests: map<string, Quest>, ids: seq<string>, w: string, kinds: set<LeafKind>, k: string)
    requires forall i :: 0 <= i < |ids| ==> ids[i] in quests
    requires k in quests
    ensures var q, r := quests[k], QuestsWithWeapon(quests, ids, w, kinds)[k];
            && r.id == q.id && r.location == q.location
            && r.availableForStart == q.availableForStart
            && |r.availableForFinish| == |q.availableForFinish|
            && forall i :: 0 <= i < |q.availableForFinish| ==>
                 SameShape(r.availableForFinish[i], q.availableForFinish[i])
  {
    if ids != [] {
      QuestsWithWeaponKeepsShape(quests, ids[..|ids| - 1], w, kinds, k);
    }
  }

  /** No id is listed twice. */
  predicate Distinct(ids: seq<string>) {
    forall a, b :: 0 <= a < b < |ids| ==> ids[a] != ids[b]
  }

  /** The six Tarkov Shooter ids are distinct, and none of them is Network Provider's. */
  lemma TarkovShooterIds()
    ensures Distinct(TarkovShooter)
    ensures NetworkProviderPart1 !in TarkovShooter
  {
  }

  /** After both patches, each Tarkov Shooter quest differs only by the rifle appended once. */
  lemma TarkovShooterPatched(level: int, quests: map<string, Quest>, kinds: set<LeafKind>, n: nat)
    requires PatchTargetsPresent(level, true, quests)
    requires n < |TarkovShooter|
    ensures var k := TarkovShooter[n];
            QuestsWithWeapon(LevelGated(level, quests), TarkovShooter, TrgM10, kinds)[k]
            == quests[k].(availableForFinish := ObjectivesWithWeapon(quests[k].availableForFinish, TrgM10, kinds))
  {
    var gated := LevelGated(level, quests);
    TarkovShooterIds();
    assert gated[TarkovShooter[n]] == quests[TarkovShooter[n]];
    QuestsWithWeaponAt(gated, TarkovShooter, TrgM10, kinds, TarkovShooter[n]);
  }

  /**
   * With distinct ids, each listed quest has the append applied to its
   * finish objectives exactly once, and every other quest is unchanged.
   */
  lemma {:induction false} QuestsWithWeaponAt(
    quests: map<string, Quest>, ids: seq<string>, w: string, kinds: set<LeafKind>, k: string)
    requires forall i :: 0 <= i < |ids| ==> ids[i] in quests
    requires Distinct(ids)
    requires k in quests
    ensures k in ids ==> QuestsWithWeapon(quests, ids, w, kinds)[k]
                         == quests[k].(availableForFinish := ObjectivesWithWeapon(quests[k].availableForFinish, w, kinds))
    ensures k !in ids ==> QuestsWithWeapon(quests, ids, w, kinds)[k] == quests[k]
  {
    if ids != [] {
      var init, last := ids[..|ids| - 1], ids[|ids| - 1];
      assert ids == init + [last];
      QuestsWithWeaponAt(quests, init, w, kinds, k);
    }
  }

  /** The append is not guarded: applying it twice lists the weapon twice. */
  lemma WithWeaponTwiceDuplicates(leaves: seq<Leaf>, w: string, kinds: set<LeafKind>, i: nat)
    requires i < |leaves| && leaves[i].kind in kinds
    ensures WithWeapon(WithWeapon(leaves, w, kinds), w, kinds)[i].weapon == leaves[i].weapon + [w, w]
    ensures WithWeapon(WithWeapon(leaves, w, kinds), w, kinds) != WithWeapon(leaves, w, kinds)
  {
    var once := WithWeapon(leaves, w, kinds);
    var twice := WithWeapon(once, w, kinds);
    assert twice[i].weapon == leaves[i].weapon + [w] + [w];
    assert |twice[i].weapon| != |once[i].weapon|;
  }

  /** The weapon append changes no leaf's kind. */
  lemma WithWeaponKeepsKinds(leaves: seq<Leaf>, w: string, kinds: set<LeafKind>)
    ensures SameKinds(leaves, WithWeapon(leaves, w, kinds))
  {
  }

  /** Loop over one counter's leaves appending `w` to the selected ones. */
  method AppendWeapon(leaves: seq<Leaf>, w: string, kinds: set<LeafKind>) returns (r: seq<Leaf>)
    ensures r == WithWeapon(leaves, w, kinds)
  {
    r := leaves;
    var i := 0;
    while i < |r|
      invariant 0 <= i <= |r| == |leaves|
      invariant forall j :: 0 <= j < i ==> r[j] == WithWeapon(leaves, w, kinds)[j]
      invariant forall j :: i <= j < |r| ==> r[j] == leaves[j]
    {
      if r[i].kind in kinds {
        r := r[i := r[i].(weapon := r[i].weapon + [w])];
      }
      i := i + 1;
    }
  }

  /** Loop over one quest's finish objectives, appending to CounterCreator counters. */
  method AppendWeaponToObjectives(objectives: seq<Condition>, w: string, kinds: set<LeafKind>)
    returns (r: seq<Condition>)
    ensures r == ObjectivesWithWeapon(objectives, w, kinds)
  {
    r := objectives;
    var i := 0;
    while i < |r|
      invariant 0 <= i <= |r| == |objectives|
      invariant forall j :: 0 <= j < i ==> r[j] == ObjectivesWithWeapon(objectives, w, kinds)[j]
      invariant forall j :: i <= j < |r| ==> r[j] == objectives[j]
    {
      if r[i].kind == CounterCreator {
        var counter := AppendWeapon(r[i].counter, w, kinds);
        r := r[i := r[i].(counter := counter)];
      }
      i := i + 1;
    }
  }

  /** Loop over the listed quest ids of the database, in order. */
  method AppendWeaponToQuests(db: QuestDatabase, ids: seq<string>, w: string, kinds: set<LeafKind>)
    requires forall i :: 0 <= i < |ids| ==> ids[i] in db.quests
    modifies db
    ensures db.quests == QuestsWithWeapon(old(db.quests), ids, w, kinds)
  {
    var i := 0;
    while i < |ids|
      invariant 0 <= i <= |ids|
      invariant db.quests == QuestsWithWeapon(old(db.quests), ids[..i], w, kinds)
    {
      assert ids[..i + 1][..i] == ids[..i];
      var q := db.quests[ids[i]];
      var objectives := AppendWeaponToObjectives(q.availableForFinish, w, kinds);
      db.quests := db.quests[ids[i] := q.(availableForFinish := objectives)];
      i := i + 1;
    }
    assert ids[..|ids|] == ids;
  }

  // ---------------------------------------------------------------------
  // Repeatable-quest template: map and found-in-raid edits
  // ---------------------------------------------------------------------

  /** The allowed-location table reduced to the single wildcard entry. */
  const AnyLocation: map<string, seq<string>> := map["any" := ["any"]]

  /**
   * The edits both versions make to a template before its elimination
   * blocks: map removal resets the locations and zeroes the specific-exit
   * probability; found-in-raid removal clears the completion FiR flag.
   */
  function RelaxTemplateSettings(remove: ConditionsConfig, t: RepeatableTemplate): (r: RepeatableTemplate)
    ensures r.name == t.name && r.elimination == t.elimination
    ensures r.locations == if remove.gameMap then AnyLocation else t.locations
    ensures r.exploration.Some? <==> t.exploration.Some?
    ensures r.exploration.Some? ==>
              r.exploration.value.specificExitsProbability ==
              if remove.gameMap then 0.0 else t.exploration.value.specificExitsProbability
    ensures r.completion.Some? <==> t.completion.Some?
    ensures r.completion.Some? ==>
              r.completion.value.requiredItemsAreFiR ==
              (!remove.findInRaid && t.completion.value.requiredItemsAreFiR)
  {
    var t := if remove.gameMap then t.(locations := AnyLocation) else t;
    var t := if remove.gameMap && t.exploration.Some?
             then t.(exploration := Some(t.exploration.value.(specificExitsProbability := 0.0)))
             else t;
    if remove.findInRaid && t.completion.Some?
    then t.(completion := Some(t.completion.value.(requiredItemsAreFiR := false)))
    else t
  }
}

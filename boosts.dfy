/** The boosts plugin's state: the last boosted level seen per skill, the
    time of the last one-level step ("stat change"), the skills whose
    boosts are shown, and the stat-change indicator. What the client and
    the plugin's configuration answer is passed in; time is a count of
    seconds. */
module Boosts {
  import opened JavaLang

  /** The game's skills in declaration order; `Overall` comes last. */
  datatype Skill =
    | Attack | Defence | Strength | Hitpoints | Ranged | Prayer | Magic
    | Cooking | Woodcutting | Fletching | Fishing | Firemaking | Crafting
    | Smithing | Mining | Herblore | Agility | Thieving | Slayer | Farming
    | Runecraft | Hunter | Construction | Overall

  /** `Skill.values()` */
  const Skills: seq<Skill> := [
    Attack, Defence, Strength, Hitpoints, Ranged, Prayer, Magic,
    Cooking, Woodcutting, Fletching, Fishing, Firemaking, Crafting,
    Smithing, Mining, Herblore, Agility, Thieving, Slayer, Farming,
    Runecraft, Hunter, Construction, Overall]

  /** `skill.ordinal()`: the skill's position in `Skills`. */
  function Ordinal(s: Skill): (r: nat)
    ensures r < |Skills| && Skills[r] == s
  {
    match s
    case Attack => 0 case Defence => 1 case Strength => 2 case Hitpoints => 3
    case Ranged => 4 case Prayer => 5 case Magic => 6 case Cooking => 7
    case Woodcutting => 8 case Fletching => 9 case Fishing => 10 case Firemaking => 11
    case Crafting => 12 case Smithing => 13 case Mining => 14 case Herblore => 15
    case Agility => 16 case Thieving => 17 case Slayer => 18 case Farming => 19
    case Runecraft => 20 case Hunter => 21 case Construction => 22 case Overall => 23
  }

  const Combat: seq<Skill> := [Attack, Strength, Defence, Ranged, Magic]

  const Skilling: seq<Skill> := [
    Mining, Agility, Smithing, Herblore, Fishing, Thieving,
    Cooking, Crafting, Firemaking, Fletching, Woodcutting, Runecraft,
    Slayer, Farming, Construction, Hunter]

  /** The skills whose boosts are shown. */
  function ShownSkills(showSkillingSkills: bool): (r: seq<Skill>)
    ensures Combat <= r
    ensures forall k :: 0 <= k < |r| ==> !Ignored(r[k]) && r[k] != Overall
  {
    if showSkillingSkills then Combat + Skilling else Combat
  }

  /** No skill appears twice in `skills`. */
  predicate Distinct(skills: seq<Skill>) {
    forall i, j :: 0 <= i < j < |skills| ==> skills[i] != skills[j]
  }

  /** A list of skills is free of repeats when some map sends each entry
      back to its own index. */
  lemma DistinctByPosition(skills: seq<Skill>, position: Skill -> int)
    requires forall k :: 0 <= k < |skills| ==> position(skills[k]) == k
    ensures Distinct(skills)
  {
  }

  /** The index of each shown skill in `Combat + Skilling`. */
  function ShownPosition(s: Skill): int {
    match s
    case Attack => 0 case Strength => 1 case Defence => 2 case Ranged => 3 case Magic => 4
    case Mining => 5 case Agility => 6 case Smithing => 7 case Herblore => 8 case Fishing => 9
    case Thieving => 10 case Cooking => 11 case Crafting => 12 case Firemaking => 13
    case Fletching => 14 case Woodcutting => 15 case Runecraft => 16 case Slayer => 17
    case Farming => 18 case Construction => 19 case Hunter => 20
    case _ => -1
  }

  /** The combat skills come first, then, when enabled, the sixteen
      skilling skills. */
  lemma ShownSkillsOrder(showSkillingSkills: bool)
    ensures var shown := ShownSkills(showSkillingSkills);
      && |shown| == (if showSkillingSkills then 21 else 5)
      && shown[..5] == Combat
      && (showSkillingSkills ==> shown[5..] == Skilling)
  {
    var shown := ShownSkills(showSkillingSkills);
    assert shown[..5] == Combat;
  }

  /** With skilling skills enabled every skill except hitpoints, prayer
      and the overall total is shown; otherwise only the combat skills are. */
  lemma ShownSkillsCover(showSkillingSkills: bool, s: Skill)
    ensures s in ShownSkills(showSkillingSkills)
        <==> s in Combat || (showSkillingSkills && s != Hitpoints && s != Prayer && s != Overall)
  {
    var shown := ShownSkills(showSkillingSkills);
    if s in shown {
      var k :| 0 <= k < |shown| && shown[k] == s;
      ShownPositions(showSkillingSkills);
      assert ShownPosition(s) == k;
    }
    if showSkillingSkills && s != Hitpoints && s != Prayer && s != Overall {
      PositionOfShownSkill(s);
      assert shown[ShownPosition(s)] == s;
    }
  }

  /** Every skill other than hitpoints, prayer and overall sits in
      `Combat + Skilling` at its `ShownPosition`. */
  lemma PositionOfShownSkill(s: Skill)
    requires s != Hitpoints && s != Prayer && s != Overall
    ensures 0 <= ShownPosition(s) < |Combat + Skilling| && (Combat + Skilling)[ShownPosition(s)] == s
  {
    var all := Combat + Skilling;
    assert all == [Attack, Strength, Defence, Ranged, Magic,
      Mining, Agility, Smithing, Herblore, Fishing, Thieving,
      Cooking, Crafting, Firemaking, Fletching, Woodcutting, Runecraft,
      Slayer, Farming, Construction, Hunter];
    match s {
      case Attack => case Strength => case Defence => case Ranged => case Magic =>
      case Mining => case Agility => case Smithing => case Herblore => case Fishing =>
      case Thieving => case Cooking => case Crafting => case Firemaking =>
      case Fletching => case Woodcutting => case Runecraft => case Slayer =>
      case Farming => case Construction => case Hunter =>
    }
  }

  /** Each skilling skill sits at its own index after the five combat skills. */
  lemma SkillingPositions()
    ensures forall k :: 0 <= k < |Skilling| ==> ShownPosition(Skilling[k]) == 5 + k
  {
    assert Skilling[..8] == [Mining, Agility, Smithing, Herblore, Fishing, Thieving, Cooking, Crafting];
    assert Skilling[8..] == [Firemaking, Fletching, Woodcutting, Runecraft, Slayer, Farming, Construction, Hunter];
    assert forall k :: 0 <= k < 8 ==> ShownPosition(Skilling[..8][k]) == 5 + k;
    assert forall k :: 0 <= k < 8 ==> ShownPosition(Skilling[8..][k]) == 13 + k;
  }

  /** Each shown skill sits at its own `ShownPosition`. */
  lemma ShownPositions(showSkillingSkills: bool)
    ensures var shown := ShownSkills(showSkillingSkills);
      forall k :: 0 <= k < |shown| ==> ShownPosition(shown[k]) == k
  {
    var shown := ShownSkills(showSkillingSkills);
    assert forall k :: 0 <= k < |Combat| ==> ShownPosition(Combat[k]) == k;
    if showSkillingSkills {
      SkillingPositions();
      assert forall k :: 5 <= k < |shown| ==> shown[k] == Skilling[k - 5];
    }
  }

  /** No skill is shown twice. */
  lemma ShownSkillsDistinct(showSkillingSkills: bool)
    ensures Distinct(ShownSkills(showSkillingSkills))
  {
    ShownPositions(showSkillingSkills);
    DistinctByPosition(ShownSkills(showSkillingSkills), ShownPosition);
  }

  /** Hitpoints and prayer changes are not tracked. */
  predicate Ignored(s: Skill) {
    s == Hitpoints || s == Prayer
  }

  /** The handler can take a change of `s` without indexing outside `levels`. */
  predicate Handled(levels: seq<Int32>, s: Skill) {
    Ignored(s) || Ordinal(s) < |levels|
  }

  /** A boosted level one above or one below the last one seen, with the
      `int` arithmetic of `last + 1` and `last - 1`. */
  predicate IsStatChange(last: Int32, cur: Int32): (b: bool)
    ensures b <==> (cur - last - 1) % 0x1_0000_0000 == 0 || (cur - last + 1) % 0x1_0000_0000 == 0
  {
    cur == Wrap32(last + 1) || cur == Wrap32(last - 1)
  }

  /** Away from the ends of the `int` range a stat change is exactly a
      step of one level up or down. */
  lemma StatChangeIsUnitStep(last: Int32, cur: Int32)
    requires IntMin < last < IntMax
    ensures IsStatChange(last, cur) <==> cur == last + 1 || cur == last - 1
  {
  }

  /** The last-seen levels after a change of `skill` to `cur`. */
  function LevelsAfterChange(levels: seq<Int32>, skill: Skill, cur: Int32): seq<Int32>
    requires Handled(levels, skill)
  {
    if Ignored(skill) then levels else levels[Ordinal(skill) := cur]
  }

  /** A boosted-level event with the level the client reports for its skill. */
  datatype LevelChange = LevelChange(skill: Skill, level: Int32)

  /** The last-seen levels after a sequence of changes, applied in order. */
  function LevelsAfterChanges(levels: seq<Int32>, changes: seq<LevelChange>): (r: seq<Int32>)
    requires forall i :: 0 <= i < |changes| ==> Handled(levels, changes[i].skill)
    ensures |r| == |levels|
    decreases |changes|
  {
    if changes == [] then levels
    else
      var last := changes[|changes| - 1];
      var before := LevelsAfterChanges(levels, changes[..|changes| - 1]);
      assert Handled(levels, last.skill);
      LevelsAfterChange(before, last.skill, last.level)
  }

  /** The level carried by the last change of `s`, if any. */
  function LastLevelOf(changes: seq<LevelChange>, s: Skill): Option<Int32>
    decreases |changes|
  {
    if changes == [] then None
    else if changes[|changes| - 1].skill == s then Some(changes[|changes| - 1].level)
    else LastLevelOf(changes[..|changes| - 1], s)
  }

  /** After any sequence of changes each tracked skill's entry holds the
      level of its last change (or what it held before, without one), and
      the hitpoints and prayer entries never change. */
  lemma {:induction false} LevelsRememberLastChange(levels: seq<Int32>, changes: seq<LevelChange>, s: Skill)
    requires forall i :: 0 <= i < |changes| ==> Handled(levels, changes[i].skill)
    requires Ordinal(s) < |levels|
    ensures LevelsAfterChanges(levels, changes)[Ordinal(s)]
         == if Ignored(s) || LastLevelOf(changes, s).None? then levels[Ordinal(s)] else LastLevelOf(changes, s).value
    decreases |changes|
  {
    if changes != [] {
      var init, last := changes[..|changes| - 1], changes[|changes| - 1];
      assert forall i :: 0 <= i < |init| ==> init[i] == changes[i];
      LevelsRememberLastChange(levels, init, s);
      var before := LevelsAfterChanges(levels, init);
      assert LevelsAfterChanges(levels, changes) == LevelsAfterChange(before, last.skill, last.level);
      assert LastLevelOf(changes, s) == if last.skill == s then Some(last.level) else LastLevelOf(init, s);
    }
  }

  /** The number of seconds the indicator counts down from at `now`. */
  function ChangeTime(lastChange: int, now: int): (r: int)
    ensures lastChange <= now ==> r <= 60
    ensures r > 0 <==> now - lastChange < 60
  {
    60 - (now - lastChange)
  }

  datatype StatChangeIndicator = StatChangeIndicator(time: int)

  class BoostsPlugin {
    const lastSkillLevels: array<Int32>
    var lastChange: Option<int>
    var shownSkills: Option<seq<Skill>>
    var statChangeIndicator: Option<StatChangeIndicator>

    constructor ()
      ensures fresh(lastSkillLevels) && lastSkillLevels.Length == |Skills| - 1
      ensures forall i :: 0 <= i < lastSkillLevels.Length ==> lastSkillLevels[i] == 0
      ensures lastChange == None && shownSkills == None && statChangeIndicator == None
    {
      lastSkillLevels := new Int32[|Skills| - 1](_ => 0);
      lastChange := None;
      shownSkills := None;
      statChangeIndicator := None;
    }

    method StartUp(enableSkill: bool)
      modifies this`shownSkills, lastSkillLevels
      ensures shownSkills == Some(ShownSkills(enableSkill))
      ensures forall i :: 0 <= i < lastSkillLevels.Length ==> lastSkillLevels[i] == -1
    {
      shownSkills := Some(ShownSkills(enableSkill));
      var i := 0;
      while i < lastSkillLevels.Length
        invariant 0 <= i <= lastSkillLevels.Length
        invariant forall k :: 0 <= k < i ==> lastSkillLevels[k] == -1
        invariant shownSkills == Some(ShownSkills(enableSkill))
      {
        lastSkillLevels[i] := -1;
        i := i + 1;
      }
    }

    method AddStatChangeIndicator(displayIndicators: bool, displayNextChange: bool, now: int)
      modifies this`statChangeIndicator
      ensures statChangeIndicator.Some? <==> lastChange.Some? && displayIndicators && displayNextChange
      ensures statChangeIndicator.Some? ==> statChangeIndicator.value.time == ChangeTime(lastChange.value, now)
    {
      statChangeIndicator := None;
      if lastChange.Some? && displayIndicators && displayNextChange {
        statChangeIndicator := Some(StatChangeIndicator(ChangeTime(lastChange.value, now)));
      }
    }

    method OnConfigChanged(group: string, key: string, enableSkill: bool, displayIndicators: bool, displayNextChange: bool, now: int)
      modifies this`shownSkills, this`statChangeIndicator
      ensures group != "boosts" ==> shownSkills == old(shownSkills) && statChangeIndicator == old(statChangeIndicator)
      ensures group == "boosts" && (key == "displayIndicators" || key == "displayNextChange") ==>
        && shownSkills == old(shownSkills)
        && (statChangeIndicator.Some? <==> lastChange.Some? && displayIndicators && displayNextChange)
        && (statChangeIndicator.Some? ==> statChangeIndicator.value.time == ChangeTime(lastChange.value, now))
      ensures group == "boosts" && key != "displayIndicators" && key != "displayNextChange" ==>
        shownSkills == Some(ShownSkills(enableSkill)) && statChangeIndicator == old(statChangeIndicator)
    {
      if group != "boosts" {
        return;
      }
      if key == "displayIndicators" || key == "displayNextChange" {
        AddStatChangeIndicator(displayIndicators, displayNextChange, now);
        return;
      }
      shownSkills := Some(ShownSkills(enableSkill));
    }

    /** `cur` is the boosted level the client reports for `skill`. */
    method OnBoostedLevelChange(skill: Skill, cur: Int32, now: int, displayIndicators: bool, displayNextChange: bool)
      requires Handled(lastSkillLevels[..], skill)
      modifies lastSkillLevels, this`lastChange, this`statChangeIndicator
      ensures lastSkillLevels[..] == LevelsAfterChange(old(lastSkillLevels[..]), skill, cur)
      ensures Ignored(skill) || !IsStatChange(old(lastSkillLevels[Ordinal(skill)]), cur) ==>
        lastChange == old(lastChange) && statChangeIndicator == old(statChangeIndicator)
      ensures !Ignored(skill) && IsStatChange(old(lastSkillLevels[Ordinal(skill)]), cur) ==>
        && lastChange == Some(now)
        && (statChangeIndicator.Some? <==> displayIndicators && displayNextChange)
        && (statChangeIndicator.Some? ==> statChangeIndicator.value.time == ChangeTime(now, now))
    {
      if Ignored(skill) {
        return;
      }
      var skillIdx := Ordinal(skill);
      var last := lastSkillLevels[skillIdx];
      if IsStatChange(last, cur) {
        lastChange := Some(now);
        AddStatChangeIndicator(displayIndicators, displayNextChange, now);
      }
      lastSkillLevels[skillIdx] := cur;
    }
  }
}

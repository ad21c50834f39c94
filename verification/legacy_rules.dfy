/** The older stand-alone rules engine (rules_engine/core.py): a table-based
    ability DC, a feature lookup that indexes fields directly, and a talent
    finder over the camel-case talent file that reads "Constitution" as
    "Vitality". The loader globals it binds at import time are parameters. */
module LegacyRules {
  import opened Wrappers
  import opened Text
  import opened Json
  import Rules
  import Talents
  import Lookups

  // ---------------------------------------------------------------------
  // Ability check

  /** `dc_map_simple.get(tier, 99)`. */
  function TableDc(tier: int): (dc: int)
    ensures 1 <= tier <= 10 ==> 12 <= dc <= 20
    ensures !(1 <= tier <= 10) ==> dc == 99
  {
    if 1 <= tier <= 3 then 12
    else if 4 <= tier <= 6 then 14
    else if tier == 7 || tier == 8 then 16
    else if tier == 9 then 18
    else if tier == 10 then 20
    else 99
  }

  /** The table agrees with the tiered DC of the newer engine on every valid
      tier except 9, where it asks 18 instead of 16; outside 1..10 it asks 99. */
  lemma TableDcAgainstTiered(tier: int)
    ensures 1 <= tier <= 10 && tier != 9 ==> TableDc(tier) == Rules.AbilityDc(tier)
    ensures tier == 9 ==> TableDc(tier) == 18 && Rules.AbilityDc(tier) == 16
    ensures !(1 <= tier <= 10) ==> TableDc(tier) == 99
  {
  }

  lemma TableDcMonotone(t1: int, t2: int)
    requires 1 <= t1 <= t2 <= 10
    ensures TableDc(t1) <= TableDc(t2)
  {
  }

  /** The table-based `calculate_ability_check`; `sre_triggered` keeps the
      response model's default, false. */
  function AbilityCheck(rank: int, statMod: int, tier: int, roll: int): (r: Rules.RollResult)
    ensures r.dc == TableDc(tier) && r.total == roll + rank + statMod
    ensures r.isSuccess <==> r.total >= r.dc
    ensures r.isCriticalSuccess <==> roll == 20
    ensures r.isCriticalFailure <==> roll == 1
    ensures !r.sreTriggered
  {
    var dc := TableDc(tier);
    var total := roll + rank + statMod;
    Rules.RollResult(roll, total, dc, total >= dc, roll == 20, roll == 1, false)
  }

  // ---------------------------------------------------------------------
  // Feature lookup

  /** `get_kingdom_feature_stats(name)`: unknown names raise, and so does a
      stored feature without "name" or "mods", or whose values do not fit
      `FeatureStatsResponse` (a string name and a dict of string lists). */
  function FeatureStatsOf(name: string, featureMap: map<string, Json>): (r: Result<Lookups.FeatureStats>)
    ensures name !in featureMap ==> r.Err?
    ensures r.Ok? <==>
              && name in featureMap && HasField(featureMap[name], "name") && HasField(featureMap[name], "mods")
              && Get(featureMap[name], "name").value.JStr?
              && Lookups.StringLists(Get(featureMap[name], "mods").value).Some?
    ensures r.Ok? ==> (JStr(r.value.name) == Get(featureMap[name], "name").value &&
                       Some(r.value.mods) == Lookups.StringLists(Get(featureMap[name], "mods").value))
  {
    if name !in featureMap then Err("Feature not found in rules.")
    else
      var f := featureMap[name];
      match (Get(f, "name"), Get(f, "mods"))
      case (Some(n), Some(m)) =>
        if !n.JStr? || Lookups.StringLists(m).None? then Err("Data structure mismatch for feature")
        else Ok(Lookups.FeatureStats(n.s, Lookups.StringLists(m).value))
      case _ => Err("KeyError")
  }

  /** A feature stored in its JSON form is read back as it was written. */
  lemma FeatureStatsRoundTrip(featureMap: map<string, Json>, name: string, f: Lookups.FeatureStats)
    requires name in featureMap && featureMap[name] == Lookups.FeatureJson(f)
    ensures FeatureStatsOf(name, featureMap) == Ok(f)
  {
    var fields := Lookups.FeatureJson(f).fields;
    assert "name" != "mods" by { assert "name"[0] != "mods"[0]; }
    assert Lookup(fields, "mods") == Some(Lookups.StringListsJson(f.mods));
    Lookups.StringListsRoundTrip(f.mods);
  }

  predicate HasField(j: Json, key: string) {
    j.JObj? && HasKey(j.fields, key)
  }

  // ---------------------------------------------------------------------
  // Talents

  datatype Milestone = Milestone(score: Option<int>, name: Option<string>, effect: Option<string>)

  datatype StatGroup = StatGroup(stat: Option<string>, milestones: seq<Milestone>)

  datatype DualTalent = DualTalent(
    score: Option<int>, pairedStats: seq<string>, name: Option<string>, effect: Option<string>)

  datatype SkillTalent = SkillTalent(tier: Option<string>, name: Option<string>, effect: Option<string>)

  datatype SkillGroup = SkillGroup(skill: Option<string>, talents: seq<SkillTalent>)

  /** `singleStatMastery`, `dualStatSynergy` and the values of `skillMastery`. */
  datatype TalentData = TalentData(
    singleStat: seq<StatGroup>, dual: seq<DualTalent>, skillMastery: seq<seq<SkillGroup>>)

  /** The data correction: "Constitution" is read as "Vitality". */
  function Correct(stat: string): (r: string)
    ensures r != "Constitution"
    ensures stat != "Constitution" ==> r == stat
  {
    if stat == "Constitution" then "Vitality" else stat
  }

  /** `stats_in.get(stat, 0)`; a missing stat name (None) is never a key. */
  function Score(statsIn: map<string, int>, stat: Option<string>): int {
    if stat.Some? && stat.value in statsIn then statsIn[stat.value] else 0
  }

  function CorrectOpt(stat: Option<string>): Option<string> {
    if stat.Some? then Some(Correct(stat.value)) else None
  }

  /** The milestones of one stat group AS WRITTEN: a milestone unlocks when the
      stat reaches its score (99 when it has none), but the reported source
      indexes `milestone['score']` directly, so an unlocked milestone without
      a score raises, as does one without a name or effect. */
  function MilestonesAsWritten(stat: Option<string>, current: int, ms: seq<Milestone>): (r: Result<seq<Talents.TalentInfo>>)
    ensures r.Ok? ==> |r.value| <= |ms|
    ensures r.Ok? ==> forall i :: 0 <= i < |ms| && current >= ms[i].score.GetOr(99) ==> ms[i].score.Some?
  {
    if |ms| == 0 then Ok([])
    else
      var m := ms[0];
      var rest :- MilestonesAsWritten(stat, current, ms[1..]);
      if current >= m.score.GetOr(99) then
        if m.name.None? || m.score.None? || m.effect.None? then Err("KeyError")
        else Ok([Talents.TalentInfo(m.name.value, "Stat: " + stat.GetOr("None") + " " + IntToString(m.score.value), m.effect.value)] + rest)
      else Ok(rest)
  }

  /** A milestone without a score is checked against 99, yet a character at
      99 or more then makes the lookup raise instead of granting it. */
  lemma ScorelessMilestoneRaises(current: int)
    requires current >= 99
    ensures MilestonesAsWritten(Some("Vitality"), current, [Milestone(None, Some("Titan"), Some("e"))]).Err?
  {
  }

  /** The talent a reached milestone grants, reported under the corrected
      stat name and its score (99 when it has none). */
  function MilestoneInfo(stat: Option<string>, m: Milestone): Talents.TalentInfo {
    Talents.TalentInfo(m.name.GetOr(""), "Stat: " + stat.GetOr("None") + " " + IntToString(m.score.GetOr(99)),
                       m.effect.GetOr(""))
  }

  /** The evidently intended milestone rule: a milestone without a score is
      granted at 99 and reported with that score. */
  function Milestones(stat: Option<string>, current: int, ms: seq<Milestone>): (r: Result<seq<Talents.TalentInfo>>)
    ensures r.Ok? <==> forall m :: m in ms && current >= m.score.GetOr(99) ==> m.name.Some? && m.effect.Some?
    ensures r.Ok? ==> forall x :: x in r.value <==>
              exists m :: m in ms && current >= m.score.GetOr(99) && x == MilestoneInfo(stat, m)
  {
    if |ms| == 0 then Ok([])
    else
      var m := ms[0];
      var rest := Milestones(stat, current, ms[1..]);
      assert forall n :: n in ms <==> n == m || n in ms[1..];
      if rest.Err? then rest
      else if current >= m.score.GetOr(99) then
        if m.name.None? || m.effect.None? then Err("KeyError")
        else Ok([MilestoneInfo(stat, m)] + rest.value)
      else rest
  }

  /** With the intended rule a scoreless milestone is granted at 99. */
  lemma ScorelessMilestoneGranted(current: int)
    requires current >= 99
    ensures Milestones(Some("Vitality"), current, [Milestone(None, Some("Titan"), Some("e"))])
            == Ok([Talents.TalentInfo("Titan", "Stat: Vitality 99", "e")])
  {
    assert NatToString(9) == "9";
    assert IntToString(99) == "99";
    var ms := [Milestone(None, Some("Titan"), Some("e"))];
    assert ms[1..] == [];
    assert Milestones(Some("Vitality"), current, ms[1..]) == Ok([]);
    assert ms[0].score.GetOr(99) == 99;
    var src := "Stat: " + Some("Vitality").GetOr("None") + " " + IntToString(ms[0].score.GetOr(99));
    assert src == "Stat: Vitality 99";
    assert Milestones(Some("Vitality"), current, ms) == Ok([Talents.TalentInfo("Titan", src, "e")] + []);
    assert [Talents.TalentInfo("Titan", src, "e")] + [] == [Talents.TalentInfo("Titan", "Stat: Vitality 99", "e")];
    assert Milestones(Some("Vitality"), current, ms) == Ok([Talents.TalentInfo("Titan", "Stat: Vitality 99", "e")]);
  }

  /** A milestone of a group that the character's (corrected) stat reaches. */
  predicate Reached(statsIn: map<string, int>, g: StatGroup, m: Milestone) {
    Score(statsIn, CorrectOpt(g.stat)) >= m.score.GetOr(99)
  }

  /** Every reached milestone of the group has the name and effect it is read by. */
  predicate GroupComplete(statsIn: map<string, int>, g: StatGroup) {
    forall m :: m in g.milestones && Reached(statsIn, g, m) ==> m.name.Some? && m.effect.Some?
  }

  /** The single-stat section: the reached milestones of every group, in order. */
  function StatGroups(statsIn: map<string, int>, gs: seq<StatGroup>): (r: Result<seq<Talents.TalentInfo>>)
    ensures r.Ok? <==> forall g :: g in gs ==> GroupComplete(statsIn, g)
    ensures r.Ok? ==> forall x :: x in r.value <==>
              exists g, m :: g in gs && m in g.milestones && Reached(statsIn, g, m) && x == MilestoneInfo(CorrectOpt(g.stat), m)
  {
    if |gs| == 0 then Ok([])
    else
      assert forall g :: g in gs <==> g == gs[0] || g in gs[1..];
      var stat := CorrectOpt(gs[0].stat);
      assert Milestones(stat, Score(statsIn, stat), gs[0].milestones).Ok? <==> GroupComplete(statsIn, gs[0]);
      var here :- Milestones(stat, Score(statsIn, stat), gs[0].milestones);
      var rest :- StatGroups(statsIn, gs[1..]);
      Ok(here + rest)
  }

  /** The corrected stat pair of a dual-stat talent. */
  function Pair(t: DualTalent): (string, string)
    requires |t.pairedStats| == 2
  {
    (Correct(t.pairedStats[0]), Correct(t.pairedStats[1]))
  }

  /** A dual-stat talent with two stats, both reaching its score (99 when absent). */
  predicate DualReached(statsIn: map<string, int>, t: DualTalent) {
    |t.pairedStats| == 2
    && Score(statsIn, Some(Pair(t).0)) >= t.score.GetOr(99)
    && Score(statsIn, Some(Pair(t).1)) >= t.score.GetOr(99)
  }

  function DualInfo(t: DualTalent): Talents.TalentInfo
    requires |t.pairedStats| == 2
  {
    Talents.TalentInfo(t.name.GetOr(""), "Dual Stat: " + Pair(t).0 + " & " + Pair(t).1 + " " + IntToString(t.score.GetOr(99)),
                       t.effect.GetOr(""))
  }

  /** The dual-stat section: the reached talents in order; one reached
      without a name or effect raises. */
  function DualTalents(statsIn: map<string, int>, ts: seq<DualTalent>): (r: Result<seq<Talents.TalentInfo>>)
    ensures r.Ok? <==> forall t :: t in ts && DualReached(statsIn, t) ==> t.name.Some? && t.effect.Some?
    ensures r.Ok? ==> forall x :: x in r.value <==> exists t :: t in ts && DualReached(statsIn, t) && x == DualInfo(t)
  {
    if |ts| == 0 then Ok([])
    else
      var t := ts[0];
      assert forall u :: u in ts <==> u == t || u in ts[1..];
      var rest :- DualTalents(statsIn, ts[1..]);
      if |t.pairedStats| == 2 then
        var s1 := Correct(t.pairedStats[0]);
        var s2 := Correct(t.pairedStats[1]);
        var req := t.score.GetOr(99);
        if Score(statsIn, Some(s1)) >= req && Score(statsIn, Some(s2)) >= req then
          if t.name.None? || t.effect.None? then Err("KeyError")
          else Ok([DualInfo(t)] + rest)
        else Ok(rest)
      else Ok(rest)
  }

  /** `int(tier_name.replace("MT", ""))`, which raises for a missing tier or
      a remainder that is not an integer. */
  function TierRank(tier: Option<string>): (r: Result<int>)
    ensures tier.None? ==> r.Err?
    ensures r.Ok? <==> tier.Some? && ParseInt(RemoveAll(tier.value, "MT")).Some?
    ensures forall n: nat :: tier == Some("MT" + NatToString(n)) ==> r == Ok(n)
  {
    forall n: nat | tier == Some("MT" + NatToString(n)) ensures ParseInt(RemoveAll(tier.value, "MT")) == Some(n) {
      Talents.RequiredRankOfMT(n);
    }
    if tier.None? then Err("AttributeError")
    else match ParseInt(RemoveAll(tier.value, "MT"))
      case None => Err("ValueError")
      case Some(n) => Ok(n)
  }

  /** A skill talent whose tier parses and whose rank the character reaches. */
  predicate TierReached(rank: int, t: SkillTalent) {
    TierRank(t.tier).Ok? && rank >= TierRank(t.tier).value
  }

  function SkillInfo(skill: Option<string>, t: SkillTalent): Talents.TalentInfo {
    Talents.TalentInfo(t.name.GetOr(""), "Skill: " + skill.GetOr("None") + " (" + t.tier.GetOr("None") + ")", t.effect.GetOr(""))
  }

  /** Every tier of the group parses, and every reached talent has a name and effect. */
  predicate TalentsComplete(rank: int, ts: seq<SkillTalent>) {
    forall t :: t in ts ==> TierRank(t.tier).Ok? && (TierReached(rank, t) ==> t.name.Some? && t.effect.Some?)
  }

  /** One skill group: the talents whose tier the rank reaches, in order. */
  function SkillTalents(skill: Option<string>, rank: int, ts: seq<SkillTalent>): (r: Result<seq<Talents.TalentInfo>>)
    ensures r.Ok? <==> TalentsComplete(rank, ts)
    ensures r.Ok? ==> forall x :: x in r.value <==> exists t :: t in ts && TierReached(rank, t) && x == SkillInfo(skill, t)
  {
    if |ts| == 0 then Ok([])
    else
      var t := ts[0];
      assert forall u :: u in ts <==> u == t || u in ts[1..];
      var req :- TierRank(t.tier);
      var rest :- SkillTalents(skill, rank, ts[1..]);
      if rank >= req then
        if t.name.None? || t.effect.None? then Err("KeyError")
        else Ok([SkillInfo(skill, t)] + rest)
      else Ok(rest)
  }

  /** A skill talent of a group that the character's rank in its skill reaches. */
  predicate SkillReached(skillsIn: map<string, int>, g: SkillGroup, t: SkillTalent) {
    TierReached(Score(skillsIn, g.skill), t)
  }

  predicate GroupsComplete(skillsIn: map<string, int>, gs: seq<SkillGroup>) {
    forall g :: g in gs ==> TalentsComplete(Score(skillsIn, g.skill), g.talents)
  }

  /** One skill category: its groups' reached talents, in order. */
  function SkillGroups(skillsIn: map<string, int>, gs: seq<SkillGroup>): (r: Result<seq<Talents.TalentInfo>>)
    ensures r.Ok? <==> GroupsComplete(skillsIn, gs)
    ensures r.Ok? ==> forall x :: x in r.value <==>
              exists g, t :: g in gs && t in g.talents && SkillReached(skillsIn, g, t) && x == SkillInfo(g.skill, t)
  {
    if |gs| == 0 then Ok([])
    else
      assert forall g :: g in gs <==> g == gs[0] || g in gs[1..];
      var here :- SkillTalents(gs[0].skill, Score(skillsIn, gs[0].skill), gs[0].talents);
      var rest :- SkillGroups(skillsIn, gs[1..]);
      Ok(here + rest)
  }

  /** The skill section: every category's groups, in order. */
  function SkillCategories(skillsIn: map<string, int>, cs: seq<seq<SkillGroup>>): (r: Result<seq<Talents.TalentInfo>>)
    ensures r.Ok? <==> forall c :: c in cs ==> GroupsComplete(skillsIn, c)
    ensures r.Ok? ==> forall x :: x in r.value <==>
              exists c, g, t :: c in cs && g in c && t in g.talents && SkillReached(skillsIn, g, t) && x == SkillInfo(g.skill, t)
  {
    if |cs| == 0 then Ok([])
    else
      assert forall c :: c in cs <==> c == cs[0] || c in cs[1..];
      var here :- SkillGroups(skillsIn, cs[0]);
      var rest :- SkillCategories(skillsIn, cs[1..]);
      Ok(here + rest)
  }

  /** The older `find_eligible_talents`: stat milestones, then dual-stat
      talents, then skill talents; any field it indexes that is missing
      raises. It composes the intended milestone rule, `Milestones`. */
  function FindEligible(statsIn: map<string, int>, skillsIn: map<string, int>, data: TalentData): (r: Result<seq<Talents.TalentInfo>>)
    ensures r.Ok? <==>
              && (forall g :: g in data.singleStat ==> GroupComplete(statsIn, g))
              && (forall t :: t in data.dual && DualReached(statsIn, t) ==> t.name.Some? && t.effect.Some?)
              && (forall c :: c in data.skillMastery ==> GroupsComplete(skillsIn, c))
    ensures r.Ok? ==>
              |r.value| == |StatGroups(statsIn, data.singleStat).value| + |DualTalents(statsIn, data.dual).value|
                           + |SkillCategories(skillsIn, data.skillMastery).value|
  {
    var a :- StatGroups(statsIn, data.singleStat);
    var b :- DualTalents(statsIn, data.dual);
    var c :- SkillCategories(skillsIn, data.skillMastery);
    Ok(a + b + c)
  }

  /** Exactly the reached talents of the three sections are reported. */
  lemma FindEligibleMembers(statsIn: map<string, int>, skillsIn: map<string, int>, data: TalentData, x: Talents.TalentInfo)
    requires FindEligible(statsIn, skillsIn, data).Ok?
    ensures x in FindEligible(statsIn, skillsIn, data).value <==>
              (exists g, m :: g in data.singleStat && m in g.milestones && Reached(statsIn, g, m)
                              && x == MilestoneInfo(CorrectOpt(g.stat), m))
              || (exists t :: t in data.dual && DualReached(statsIn, t) && x == DualInfo(t))
              || (exists c, g, t :: c in data.skillMastery && g in c && t in g.talents && SkillReached(skillsIn, g, t)
                                  && x == SkillInfo(g.skill, t))
  {
    var a := StatGroups(statsIn, data.singleStat).value;
    var b := DualTalents(statsIn, data.dual).value;
    var c := SkillCategories(skillsIn, data.skillMastery).value;
    assert FindEligible(statsIn, skillsIn, data).value == a + b + c;
    assert x in a + b + c <==> x in a || x in b || x in c;
  }

  // ---------------------------------------------------------------------
  // Properties

  function RenameStat(s: string): string {
    if s == "Vitality" then "Constitution" else s
  }

  /** The same talent data with every "Vitality" written as "Constitution". */
  function AsConstitution(data: TalentData): TalentData {
    TalentData(
      seq(|data.singleStat|, i requires 0 <= i < |data.singleStat| =>
        var g := data.singleStat[i];
        g.(stat := if g.stat.Some? then Some(RenameStat(g.stat.value)) else None)),
      seq(|data.dual|, i requires 0 <= i < |data.dual| =>
        var t := data.dual[i];
        t.(pairedStats := seq(|t.pairedStats|, k requires 0 <= k < |t.pairedStats| => RenameStat(t.pairedStats[k])))),
      data.skillMastery)
  }

  lemma {:induction false} StatGroupsRenamed(statsIn: map<string, int>, gs: seq<StatGroup>, hs: seq<StatGroup>)
    requires |gs| == |hs|
    requires forall i :: 0 <= i < |gs| ==> hs[i].milestones == gs[i].milestones && CorrectOpt(hs[i].stat) == CorrectOpt(gs[i].stat)
    ensures StatGroups(statsIn, hs) == StatGroups(statsIn, gs)
  {
    if |gs| > 0 {
      StatGroupsRenamed(statsIn, gs[1..], hs[1..]);
    }
  }

  lemma {:induction false} DualTalentsRenamed(statsIn: map<string, int>, ts: seq<DualTalent>, us: seq<DualTalent>)
    requires |ts| == |us|
    requires forall i :: 0 <= i < |ts| ==>
               us[i].score == ts[i].score && us[i].name == ts[i].name && us[i].effect == ts[i].effect &&
               |us[i].pairedStats| == |ts[i].pairedStats| &&
               forall k :: 0 <= k < |ts[i].pairedStats| ==> Correct(us[i].pairedStats[k]) == Correct(ts[i].pairedStats[k])
    ensures DualTalents(statsIn, us) == DualTalents(statsIn, ts)
  {
    if |ts| > 0 {
      DualTalentsRenamed(statsIn, ts[1..], us[1..]);
    }
  }

  /** "Constitution" and "Vitality" are interchangeable in the talent data,
      in both the single-stat and the dual-stat sections. */
  lemma ConstitutionReadAsVitality(statsIn: map<string, int>, skillsIn: map<string, int>, data: TalentData)
    ensures FindEligible(statsIn, skillsIn, AsConstitution(data)) == FindEligible(statsIn, skillsIn, data)
  {
    var d2 := AsConstitution(data);
    StatGroupsRenamed(statsIn, data.singleStat, d2.singleStat);
    DualTalentsRenamed(statsIn, data.dual, d2.dual);
  }

  /** A skill talent "MTn" with a name and effect is granted iff the rank is at least n. */
  lemma SkillTierUnlocks(skill: string, rank: int, n: nat, name: string, effect: string)
    ensures SkillTalents(Some(skill), rank, [SkillTalent(Some("MT" + NatToString(n)), Some(name), Some(effect))]).Ok?
    ensures |SkillTalents(Some(skill), rank, [SkillTalent(Some("MT" + NatToString(n)), Some(name), Some(effect))]).value| == 1
            <==> rank >= n
  {
    Talents.RequiredRankOfMT(n);
  }
}

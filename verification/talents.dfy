/** `find_eligible_talents` of the rules engine
    (AI-TTRPG/rules_engine/app/core.py; AI-TTRPG/rules_engine/core.py holds
    the same function). The talent data is given as typed records whose
    `Option` fields stand for keys that may be absent. */
module Talents {
  import opened Wrappers
  import opened Text

  datatype TalentInfo = TalentInfo(name: string, source: string, effect: string)

  datatype StatTalent = StatTalent(
    stat: Option<string>, score: Option<int>, talentName: Option<string>, effect: Option<string>)

  datatype DualTalent = DualTalent(
    score: Option<int>, pairedStats: seq<string>, talentName: Option<string>, effect: Option<string>)

  datatype SkillTalent = SkillTalent(
    tier: Option<string>, prerequisiteMt: Option<string>, talentName: Option<string>, effect: Option<string>)

  datatype SkillGroup = SkillGroup(skill: Option<string>, talents: seq<SkillTalent>)

  /** `single_skill_mastery` maps a category to its groups; a category whose
      value is not a list is `None`. */
  datatype TalentData = TalentData(
    singleStat: seq<StatTalent>, dual: seq<DualTalent>,
    skillMastery: seq<(string, Option<seq<SkillGroup>>)>)

  predicate IsEmpty(data: TalentData) {
    |data.singleStat| == 0 && |data.dual| == 0 && |data.skillMastery| == 0
  }

  // ---------------------------------------------------------------------
  // The generic emit loop: walk the candidates in order, keep the unlocked ones

  function Emit<T>(xs: seq<T>, keep: T -> bool, info: T -> TalentInfo): (r: seq<TalentInfo>)
    ensures |r| <= |xs|
    ensures forall i :: 0 <= i < |xs| && keep(xs[i]) ==> info(xs[i]) in r
    ensures forall x :: x in r ==> exists i :: 0 <= i < |xs| && keep(xs[i]) && x == info(xs[i])
  {
    if |xs| == 0 then []
    else
      var rest := Emit(xs[1..], keep, info);
      assert forall i :: 1 <= i < |xs| ==> xs[i] == xs[1..][i - 1];
      if keep(xs[0]) then [info(xs[0])] + rest else rest
  }

  /** Loosening the filter only adds talents. */
  lemma {:induction false} EmitMonotone<T>(xs: seq<T>, keep1: T -> bool, keep2: T -> bool, info: T -> TalentInfo)
    requires forall i :: 0 <= i < |xs| && keep1(xs[i]) ==> keep2(xs[i])
    ensures forall x :: x in Emit(xs, keep1, info) ==> x in Emit(xs, keep2, info)
  {
  }

  // ---------------------------------------------------------------------
  // Stat values

  /** `stats_complete.get(stat, 0)`: the score of a listed stat, 0 for an
      unlisted or missing one. */
  function StatValue(statsIn: map<string, int>, statsList: seq<string>, stat: string): int {
    if stat in statsList && stat in statsIn then statsIn[stat] else 0
  }

  function RankOf(skillsIn: map<string, int>, skill: string): int {
    if skill in skillsIn then skillsIn[skill] else 0
  }

  /** `statsIn` is at most `better` on every stat. */
  predicate StatsBelow(statsIn: map<string, int>, better: map<string, int>) {
    forall s :: s in statsIn ==> s in better && statsIn[s] <= better[s]
  }

  predicate NonNegative(m: map<string, int>) {
    forall s :: s in m ==> m[s] >= 0
  }

  // ---------------------------------------------------------------------
  // The three kinds of talent

  predicate StatUnlocks(t: StatTalent, statsIn: map<string, int>, statsList: seq<string>) {
    t.stat.Some? && |t.stat.value| > 0 && t.score.Some? &&
    StatValue(statsIn, statsList, t.stat.value) >= t.score.value
  }

  function StatInfo(t: StatTalent): TalentInfo {
    TalentInfo(t.talentName.GetOr("Unknown Talent"),
               "Stat: " + t.stat.GetOr("None") + " " + (if t.score.Some? then IntToString(t.score.value) else "None"),
               t.effect.GetOr(""))
  }

  predicate DualUnlocks(t: DualTalent, statsIn: map<string, int>, statsList: seq<string>) {
    |t.pairedStats| == 2 &&
    StatValue(statsIn, statsList, t.pairedStats[0]) >= t.score.GetOr(99) &&
    StatValue(statsIn, statsList, t.pairedStats[1]) >= t.score.GetOr(99)
  }

  function DualInfo(t: DualTalent): TalentInfo
    requires |t.pairedStats| == 2
  {
    TalentInfo(t.talentName.GetOr("Unknown Talent"),
               "Dual Stat: " + t.pairedStats[0] + " & " + t.pairedStats[1] + " " + IntToString(t.score.GetOr(99)),
               t.effect.GetOr(""))
  }

  function DualInfoOr(t: DualTalent): TalentInfo {
    if |t.pairedStats| == 2 then DualInfo(t) else TalentInfo("", "", "")
  }

  /** `talent.get("tier", talent.get("prerequisite_mt"))`. */
  function TierOf(t: SkillTalent): Option<string> {
    if t.tier.Some? then t.tier else t.prerequisiteMt
  }

  /** The rank a skill talent needs: n for a tier "MTn", 99 for anything else
      (including a tier whose remainder is not an integer). */
  function RequiredRank(tier: Option<string>): int {
    if tier.Some? && |tier.value| > 0 && StartsWith(tier.value, "MT") then
      ParseInt(RemoveAll(tier.value, "MT")).GetOr(99)
    else 99
  }

  /** A candidate skill talent: the group's skill name and the talent. */
  type SkillCandidate = (string, SkillTalent)

  predicate SkillUnlocks(c: SkillCandidate, skillsIn: map<string, int>, skillsMap: set<string>) {
    c.0 in skillsMap && RankOf(skillsIn, c.0) >= RequiredRank(TierOf(c.1))
  }

  function SkillInfo(c: SkillCandidate): TalentInfo {
    TalentInfo(c.1.talentName.GetOr("Unknown Talent"),
               "Skill: " + c.0 + " (" + TierOf(c.1).GetOr("None") + ")",
               c.1.effect.GetOr(""))
  }

  /** The talents of one group whose skill is named, in order. */
  function GroupCandidates(skill: string, ts: seq<SkillTalent>): (r: seq<SkillCandidate>)
    ensures |r| == |ts|
    ensures forall i :: 0 <= i < |ts| ==> r[i] == (skill, ts[i])
  {
    if |ts| == 0 then [] else [(skill, ts[0])] + GroupCandidates(skill, ts[1..])
  }

  function GroupsCandidates(gs: seq<SkillGroup>): seq<SkillCandidate> {
    if |gs| == 0 then []
    else
      var g := gs[0];
      (if g.skill.Some? && |g.skill.value| > 0 then GroupCandidates(g.skill.value, g.talents) else [])
      + GroupsCandidates(gs[1..])
  }

  /** The candidate skill talents of the list-valued categories, in the
      order the nested loops visit them; groups with no skill name yield none. */
  function SkillCandidates(cats: seq<(string, Option<seq<SkillGroup>>)>): seq<SkillCandidate> {
    if |cats| == 0 then []
    else
      (if cats[0].1.Some? then GroupsCandidates(cats[0].1.value) else []) + SkillCandidates(cats[1..])
  }

  // ---------------------------------------------------------------------
  // The function

  function StatTalents(data: TalentData, statsIn: map<string, int>, statsList: seq<string>): seq<TalentInfo> {
    Emit(data.singleStat, t => StatUnlocks(t, statsIn, statsList), StatInfo)
  }

  function DualTalents(data: TalentData, statsIn: map<string, int>, statsList: seq<string>): seq<TalentInfo> {
    Emit(data.dual, t => DualUnlocks(t, statsIn, statsList), DualInfoOr)
  }

  function SkillTalents(data: TalentData, skillsIn: map<string, int>, skillsMap: set<string>): seq<TalentInfo> {
    Emit(SkillCandidates(data.skillMastery), c => SkillUnlocks(c, skillsIn, skillsMap), SkillInfo)
  }

  predicate MissingData(data: TalentData, statsList: seq<string>, skillsMap: set<string>) {
    IsEmpty(data) || |statsList| == 0 || |skillsMap| == 0
  }

  /** `find_eligible_talents`: nothing when the talent data, the stat list or
      the skill map is empty; otherwise the unlocked stat talents, then the
      unlocked dual-stat talents, then the unlocked skill talents. */
  function FindEligible(statsIn: map<string, int>, skillsIn: map<string, int>, data: TalentData,
                        statsList: seq<string>, skillsMap: set<string>): (r: seq<TalentInfo>)
    ensures MissingData(data, statsList, skillsMap) ==> r == []
    ensures !MissingData(data, statsList, skillsMap) ==>
              r == StatTalents(data, statsIn, statsList) + DualTalents(data, statsIn, statsList)
                   + SkillTalents(data, skillsIn, skillsMap)
    ensures |r| <= |data.singleStat| + |data.dual| + |SkillCandidates(data.skillMastery)|
  {
    if MissingData(data, statsList, skillsMap) then []
    else StatTalents(data, statsIn, statsList) + DualTalents(data, statsIn, statsList)
         + SkillTalents(data, skillsIn, skillsMap)
  }

  /** Exactly the unlocked talents are reported. */
  lemma FindEligibleMembers(statsIn: map<string, int>, skillsIn: map<string, int>, data: TalentData,
                            statsList: seq<string>, skillsMap: set<string>, x: TalentInfo)
    requires !MissingData(data, statsList, skillsMap)
    ensures x in FindEligible(statsIn, skillsIn, data, statsList, skillsMap) <==>
              (exists i :: 0 <= i < |data.singleStat| && StatUnlocks(data.singleStat[i], statsIn, statsList)
                           && x == StatInfo(data.singleStat[i])) ||
              (exists i :: 0 <= i < |data.dual| && DualUnlocks(data.dual[i], statsIn, statsList)
                           && x == DualInfo(data.dual[i])) ||
              (exists i :: 0 <= i < |SkillCandidates(data.skillMastery)|
                           && SkillUnlocks(SkillCandidates(data.skillMastery)[i], skillsIn, skillsMap)
                           && x == SkillInfo(SkillCandidates(data.skillMastery)[i]))
  {
    StatTalentsMembers(statsIn, data, statsList, x);
    DualTalentsMembers(statsIn, data, statsList, x);
    SkillTalentsMembers(skillsIn, data, skillsMap, x);
    var single := StatTalents(data, statsIn, statsList);
    var dual := DualTalents(data, statsIn, statsList);
    var skill := SkillTalents(data, skillsIn, skillsMap);
    assert x in single + dual + skill <==> x in single || x in dual || x in skill;
  }

  lemma StatTalentsMembers(statsIn: map<string, int>, data: TalentData, statsList: seq<string>, x: TalentInfo)
    ensures x in StatTalents(data, statsIn, statsList) <==>
              exists i :: 0 <= i < |data.singleStat| && StatUnlocks(data.singleStat[i], statsIn, statsList)
                          && x == StatInfo(data.singleStat[i])
  {
  }

  lemma DualTalentsMembers(statsIn: map<string, int>, data: TalentData, statsList: seq<string>, x: TalentInfo)
    ensures x in DualTalents(data, statsIn, statsList) <==>
              exists i :: 0 <= i < |data.dual| && DualUnlocks(data.dual[i], statsIn, statsList)
                          && x == DualInfo(data.dual[i])
  {
    if x in DualTalents(data, statsIn, statsList) {
      var i :| 0 <= i < |data.dual| && DualUnlocks(data.dual[i], statsIn, statsList) && x == DualInfoOr(data.dual[i]);
    }
  }

  lemma SkillTalentsMembers(skillsIn: map<string, int>, data: TalentData, skillsMap: set<string>, x: TalentInfo)
    ensures var candidates := SkillCandidates(data.skillMastery);
            x in SkillTalents(data, skillsIn, skillsMap) <==>
              exists i :: 0 <= i < |candidates| && SkillUnlocks(candidates[i], skillsIn, skillsMap)
                          && x == SkillInfo(candidates[i])
  {
  }

  /** Raising stats and skill ranks never loses a talent. */
  lemma FindEligibleMonotone(statsIn: map<string, int>, skillsIn: map<string, int>,
                             betterStats: map<string, int>, betterSkills: map<string, int>,
                             data: TalentData, statsList: seq<string>, skillsMap: set<string>)
    requires StatsBelow(statsIn, betterStats) && NonNegative(betterStats)
    requires StatsBelow(skillsIn, betterSkills) && NonNegative(betterSkills)
    ensures forall x :: x in FindEligible(statsIn, skillsIn, data, statsList, skillsMap) ==>
              x in FindEligible(betterStats, betterSkills, data, statsList, skillsMap)
  {
    if !MissingData(data, statsList, skillsMap) {
      EmitMonotone(data.singleStat, t => StatUnlocks(t, statsIn, statsList),
                   t => StatUnlocks(t, betterStats, statsList), StatInfo);
      EmitMonotone(data.dual, t => DualUnlocks(t, statsIn, statsList),
                   t => DualUnlocks(t, betterStats, statsList), DualInfoOr);
      EmitMonotone(SkillCandidates(data.skillMastery), c => SkillUnlocks(c, skillsIn, skillsMap),
                   c => SkillUnlocks(c, betterSkills, skillsMap), SkillInfo);
    }
  }

  // ---------------------------------------------------------------------
  // Tier names

  lemma {:induction false} RemoveMTFromDigits(d: string)
    requires forall i :: 0 <= i < |d| ==> IsDigit(d[i])
    ensures RemoveAll(d, "MT") == d
    decreases |d|
  {
    if |d| > 0 {
      assert !StartsWith(d, "MT") by { assert IsDigit(d[0]); }
      RemoveMTFromDigits(d[1..]);
      assert [d[0]] + d[1..] == d;
    }
  }

  /** A tier "MTn" requires rank n. */
  lemma RequiredRankOfMT(n: nat)
    ensures ParseInt(RemoveAll("MT" + NatToString(n), "MT")) == Some(n)
    ensures RequiredRank(Some("MT" + NatToString(n))) == n
  {
    var d := NatToString(n);
    var t := "MT" + d;
    assert StartsWith(t, "MT");
    assert t[2..] == d;
    assert !StartsWith(d, "MT") by { assert IsDigit(d[0]); }
    RemoveMTFromDigits(d);
    assert RemoveAll(t, "MT") == d;
    NatToStringRoundTrip(n);
    assert ParseInt(d) == Some(n);
  }

  /** A tier that does not start with "MT" (or no tier at all) requires 99. */
  lemma RequiredRankOfOther(tier: Option<string>)
    requires tier.None? || !StartsWith(tier.value, "MT")
    ensures RequiredRank(tier) == 99
  {
  }

  /** So a skill talent of tier "MTn" for a mapped skill unlocks iff the rank is at least n. */
  lemma SkillTalentUnlocksAtTier(skill: string, n: nat, t: SkillTalent, skillsIn: map<string, int>, skillsMap: set<string>)
    requires skill in skillsMap && t.tier == Some("MT" + NatToString(n))
    ensures SkillUnlocks((skill, t), skillsIn, skillsMap) <==> RankOf(skillsIn, skill) >= n
  {
    RequiredRankOfMT(n);
  }
}

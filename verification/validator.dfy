/** The structural validator for the rules data files
    (AI-TTRPG/rules_engine/app/data_validator.py). Each validator walks one
    data set and reports every shape problem it meets, in walking order; the
    data set is valid exactly when nothing is reported.

    Error messages are modelled as structured `Issue` values carrying the
    names and indices the messages interpolate. */
module Validator {
  import opened Wrappers
  import opened Text
  import opened Json

  datatype Issue =
    | NotDict(dataset: string)
    | NotList(dataset: string)
    | SchoolNotDict(school: string)
    | MissingResource(school: string)
    | BranchesNotList(school: string)
    | EmptyBranches(school: string)
    | BranchNotDict(school: string, branch: nat)
    | TiersNotList(school: string, branch: nat)
    | EmptyTiers(school: string, branchLabel: Json)
    | TierNotDict(school: string, branch: nat, tier: nat)
    | MissingDescription(school: string, branch: nat, tier: nat)
    | MissingSection(section: string)
    | SectionNotList(section: string)
    | SectionNotDict(section: string)
    | TalentNotDict(section: string, index: nat)
    | TalentMissingName(section: string, index: nat)
    | CategoryNotList(category: string)
    | GroupNotDict(category: string, group: nat)
    | GroupTalentsNotList(category: string, group: nat)
    | SkillTalentNotDict(category: string, group: nat, talent: nat)
    | SkillTalentMissingName(category: string, group: nat, talent: nat)
    | ChoiceNotDict(index: nat)
    | ChoiceMissing(index: nat, field: string)
    | FeatureNotDict(feature: string)
    | KingdomNotList(feature: string, kingdom: string)
    | FeatureChoiceNotDict(feature: string, kingdom: string, choice: nat)
    | FeatureChoiceMissing(feature: string, kingdom: string, choice: nat, field: string)

  /** The issues of every item, each checked with its index, in order. */
  function Each<T, E(!new)>(xs: seq<T>, f: (nat, T) -> seq<E>): (r: seq<E>)
    ensures |r| == 0 <==> forall i :: 0 <= i < |xs| ==> |f(i, xs[i])| == 0
    ensures forall e :: e in r <==> exists i :: 0 <= i < |xs| && e in f(i, xs[i])
  {
    if |xs| == 0 then []
    else
      var init := xs[..|xs| - 1];
      assert forall i :: 0 <= i < |init| ==> init[i] == xs[i];
      Each(init, f) + f(|xs| - 1, xs[|xs| - 1])
  }

  /** `dict.get(key, default)`: a present key gives its value, even null. */
  function GetOr(fields: seq<(string, Json)>, key: string, default: Json): Json {
    Lookup(fields, key).GetOr(default)
  }

  // ---------------------------------------------------------------------
  // Abilities

  function TierIssues(school: string, b: nat, t: nat, tier: Json): seq<Issue> {
    if !tier.JObj? then [TierNotDict(school, b, t)]
    else if !HasKey(tier.fields, "description") then [MissingDescription(school, b, t)]
    else []
  }

  function BranchIssues(school: string, b: nat, branch: Json): seq<Issue> {
    if !branch.JObj? then [BranchNotDict(school, b)]
    else
      var tiers := GetOr(branch.fields, "tiers", JArr([]));
      if !tiers.JArr? then [TiersNotList(school, b)]
      else if |tiers.items| == 0 then
        [EmptyTiers(school, GetOr(branch.fields, "branch", JStr("Branch " + NatToString(b))))]
      else Each(tiers.items, (t, tier) => TierIssues(school, b, t, tier))
  }

  function SchoolIssues(name: string, school: Json): seq<Issue> {
    if !school.JObj? then [SchoolNotDict(name)]
    else
      var f := school.fields;
      var resource := if !HasKey(f, "resource") && !HasKey(f, "resource_pool") then [MissingResource(name)] else [];
      var branches := GetOr(f, "branches", JArr([]));
      resource +
        if !branches.JArr? then [BranchesNotList(name)]
        else if |branches.items| == 0 then [EmptyBranches(name)]
        else Each(branches.items, (b, branch) => BranchIssues(name, b, branch))
  }

  /** `validate_abilities_data`. */
  function ValidateAbilities(data: Json): (r: (bool, seq<Issue>))
    ensures r.0 <==> |r.1| == 0
    ensures !data.JObj? ==> r == (false, [NotDict("abilities_data")])
  {
    if !data.JObj? then (false, [NotDict("abilities_data")])
    else
      var errors := Each(data.fields, (_, e: (string, Json)) => SchoolIssues(e.0, e.1));
      (|errors| == 0, errors)
  }

  /** A school lacking both `resource` and `resource_pool` is reported,
      and no other school is reported for it. */
  lemma MissingResourceReported(data: Json, name: string)
    requires data.JObj?
    ensures MissingResource(name) in ValidateAbilities(data).1 <==>
              exists i :: 0 <= i < |data.fields| && data.fields[i].0 == name && LacksResource(data.fields[i].1)
  {
    forall i | 0 <= i < |data.fields|
      ensures MissingResource(name) in SchoolIssues(data.fields[i].0, data.fields[i].1) <==>
              data.fields[i].0 == name && LacksResource(data.fields[i].1)
    {
      SchoolMissingResource(data.fields[i].0, data.fields[i].1, name);
    }
  }

  predicate LacksResource(school: Json) {
    school.JObj? && !HasKey(school.fields, "resource") && !HasKey(school.fields, "resource_pool")
  }

  lemma SchoolMissingResource(school: string, data: Json, name: string)
    ensures MissingResource(name) in SchoolIssues(school, data) <==> school == name && LacksResource(data)
  {
    if data.JObj? {
      var branches := GetOr(data.fields, "branches", JArr([]));
      if branches.JArr? && |branches.items| > 0 {
        forall b | 0 <= b < |branches.items| ensures MissingResource(name) !in BranchIssues(school, b, branches.items[b]) {
          BranchNeverMissesResource(school, b, branches.items[b], name);
        }
      }
    }
  }

  lemma BranchNeverMissesResource(school: string, b: nat, branch: Json, name: string)
    ensures MissingResource(name) !in BranchIssues(school, b, branch)
  {
    if branch.JObj? {
      var tiers := GetOr(branch.fields, "tiers", JArr([]));
      if tiers.JArr? && |tiers.items| > 0 {
        var f := (t: nat, tier: Json) => TierIssues(school, b, t, tier);
        assert forall t :: 0 <= t < |tiers.items| ==> MissingResource(name) !in f(t, tiers.items[t]);
      }
    }
  }

  /** What a well-formed ability tier, branch and school are, said directly. */
  predicate GoodTier(tier: Json) {
    tier.JObj? && HasKey(tier.fields, "description")
  }

  predicate GoodBranch(branch: Json) {
    branch.JObj? &&
    var tiers := GetOr(branch.fields, "tiers", JArr([]));
    tiers.JArr? && |tiers.items| > 0 && forall t :: 0 <= t < |tiers.items| ==> GoodTier(tiers.items[t])
  }

  predicate GoodSchool(school: Json) {
    school.JObj? &&
    (HasKey(school.fields, "resource") || HasKey(school.fields, "resource_pool")) &&
    var branches := GetOr(school.fields, "branches", JArr([]));
    branches.JArr? && |branches.items| > 0 && forall b :: 0 <= b < |branches.items| ==> GoodBranch(branches.items[b])
  }

  /** The abilities data is valid iff it is a dict of good schools: each with
      a resource field and a non-empty list of branches, each of those with a
      non-empty list of tiers that all have a description. */
  lemma AbilitiesValidIff(data: Json)
    ensures ValidateAbilities(data).0 <==> data.JObj? && forall i :: 0 <= i < |data.fields| ==> GoodSchool(data.fields[i].1)
  {
    if data.JObj? {
      forall i | 0 <= i < |data.fields|
        ensures |SchoolIssues(data.fields[i].0, data.fields[i].1)| == 0 <==> GoodSchool(data.fields[i].1)
      {
        SchoolGood(data.fields[i].0, data.fields[i].1);
      }
    }
  }

  lemma SchoolGood(name: string, school: Json)
    ensures |SchoolIssues(name, school)| == 0 <==> GoodSchool(school)
  {
    if school.JObj? {
      var branches := GetOr(school.fields, "branches", JArr([]));
      if branches.JArr? {
        forall b | 0 <= b < |branches.items|
          ensures |BranchIssues(name, b, branches.items[b])| == 0 <==> GoodBranch(branches.items[b])
        {
          var branch := branches.items[b];
          if branch.JObj? {
            var tiers := GetOr(branch.fields, "tiers", JArr([]));
            if tiers.JArr? {
              assert forall t :: 0 <= t < |tiers.items| ==>
                       (|TierIssues(name, b, t, tiers.items[t])| == 0 <==> GoodTier(tiers.items[t]));
            }
          }
        }
      }
    }
  }

  // ---------------------------------------------------------------------
  // Talents

  const RequiredSections: seq<string> := ["single_stat_mastery", "dual_stat_focus", "single_skill_mastery"]

  function MissingSections(fields: seq<(string, Json)>, sections: seq<string>): (r: seq<Issue>)
    ensures forall s :: MissingSection(s) in r <==> s in sections && !HasKey(fields, s)
    ensures forall e :: e in r ==> e.MissingSection?
  {
    if |sections| == 0 then []
    else (if HasKey(fields, sections[0]) then [] else [MissingSection(sections[0])]) + MissingSections(fields, sections[1..])
  }

  function NamedTalentIssues(section: string, i: nat, talent: Json): seq<Issue> {
    if !talent.JObj? then [TalentNotDict(section, i)]
    else if !HasKey(talent.fields, "talent_name") then [TalentMissingName(section, i)]
    else []
  }

  function ListSectionIssues(fields: seq<(string, Json)>, section: string): seq<Issue> {
    var v := GetOr(fields, section, JArr([]));
    if !v.JArr? then [SectionNotList(section)]
    else Each(v.items, (i, t) => NamedTalentIssues(section, i, t))
  }

  function SkillTalentIssues(category: string, g: nat, t: nat, talent: Json): seq<Issue> {
    if !talent.JObj? then [SkillTalentNotDict(category, g, t)]
    else if !HasKey(talent.fields, "talent_name") && !HasKey(talent.fields, "name") then [SkillTalentMissingName(category, g, t)]
    else []
  }

  function GroupIssues(category: string, g: nat, group: Json): seq<Issue> {
    if !group.JObj? then [GroupNotDict(category, g)]
    else
      var talents := GetOr(group.fields, "talents", JArr([]));
      if !talents.JArr? then [GroupTalentsNotList(category, g)]
      else Each(talents.items, (t, talent) => SkillTalentIssues(category, g, t, talent))
  }

  function CategoryIssues(category: string, groups: Json): seq<Issue> {
    if !groups.JArr? then [CategoryNotList(category)]
    else Each(groups.items, (g, group) => GroupIssues(category, g, group))
  }

  function SkillMasteryIssues(v: Json): seq<Issue> {
    if !v.JObj? then [SectionNotDict("single_skill_mastery")]
    else Each(v.fields, (_, c: (string, Json)) => CategoryIssues(c.0, c.1))
  }

  /** `validate_talents_data`. */
  function ValidateTalents(data: Json): (r: (bool, seq<Issue>))
    ensures r.0 <==> |r.1| == 0
    ensures !data.JObj? ==> r == (false, [NotDict("talents_data")])
    ensures data.JObj? ==> forall s :: MissingSection(s) in r.1 <==> s in RequiredSections && !HasKey(data.fields, s)
  {
    if !data.JObj? then (false, [NotDict("talents_data")])
    else
      var f := data.fields;
      var missing := MissingSections(f, RequiredSections);
      var rest := ListSectionIssues(f, "single_stat_mastery") + ListSectionIssues(f, "dual_stat_focus")
                  + SkillMasteryIssues(GetOr(f, "single_skill_mastery", JObj([])));
      assert forall s :: MissingSection(s) !in rest by {
        forall s ensures MissingSection(s) !in rest {
          NoMissingSectionBelow(f, s);
        }
      }
      var errors := missing + rest;
      (|errors| == 0, errors)
  }

  /** Only the section check reports a missing section. */
  lemma NoMissingSectionBelow(f: seq<(string, Json)>, s: string)
    ensures MissingSection(s) !in ListSectionIssues(f, "single_stat_mastery")
    ensures MissingSection(s) !in ListSectionIssues(f, "dual_stat_focus")
    ensures MissingSection(s) !in SkillMasteryIssues(GetOr(f, "single_skill_mastery", JObj([])))
  {
    var v := GetOr(f, "single_skill_mastery", JObj([]));
    if v.JObj? {
      forall i | 0 <= i < |v.fields| ensures MissingSection(s) !in CategoryIssues(v.fields[i].0, v.fields[i].1) {
        var c := v.fields[i].1;
        if c.JArr? {
          forall g | 0 <= g < |c.items| ensures MissingSection(s) !in GroupIssues(v.fields[i].0, g, c.items[g]) {
          }
        }
      }
    }
  }

  predicate GoodNamedTalent(t: Json) {
    t.JObj? && HasKey(t.fields, "talent_name")
  }

  predicate GoodListSection(fields: seq<(string, Json)>, section: string) {
    var v := GetOr(fields, section, JArr([]));
    v.JArr? && forall i :: 0 <= i < |v.items| ==> GoodNamedTalent(v.items[i])
  }

  /** A skill-mastery talent may be named by `talent_name` or by `name`. */
  predicate GoodSkillTalent(t: Json) {
    t.JObj? && (HasKey(t.fields, "talent_name") || HasKey(t.fields, "name"))
  }

  predicate GoodGroup(group: Json) {
    group.JObj? &&
    var talents := GetOr(group.fields, "talents", JArr([]));
    talents.JArr? && forall t :: 0 <= t < |talents.items| ==> GoodSkillTalent(talents.items[t])
  }

  predicate GoodCategory(groups: Json) {
    groups.JArr? && forall g :: 0 <= g < |groups.items| ==> GoodGroup(groups.items[g])
  }

  predicate GoodSkillMastery(v: Json) {
    v.JObj? && forall c :: 0 <= c < |v.fields| ==> GoodCategory(v.fields[c].1)
  }

  predicate GoodTalents(data: Json) {
    data.JObj? &&
    (forall s :: s in RequiredSections ==> HasKey(data.fields, s)) &&
    GoodListSection(data.fields, "single_stat_mastery") &&
    GoodListSection(data.fields, "dual_stat_focus") &&
    GoodSkillMastery(GetOr(data.fields, "single_skill_mastery", JObj([])))
  }

  /** The talents data is valid iff all three sections are present, the two
      stat sections are lists of talents with a `talent_name`, and the skill
      section maps categories to lists of groups whose talents are named. */
  lemma TalentsValidIff(data: Json)
    ensures ValidateTalents(data).0 <==> GoodTalents(data)
  {
    if data.JObj? {
      var f := data.fields;
      var missing := MissingSections(f, RequiredSections);
      assert |missing| == 0 <==> forall s :: s in RequiredSections ==> HasKey(f, s) by {
        if |missing| > 0 {
          assert missing[0] in missing;
        }
      }
      ListSectionGood(f, "single_stat_mastery");
      ListSectionGood(f, "dual_stat_focus");
      SkillMasteryGood(GetOr(f, "single_skill_mastery", JObj([])));
    }
  }

  lemma ListSectionGood(f: seq<(string, Json)>, section: string)
    ensures |ListSectionIssues(f, section)| == 0 <==> GoodListSection(f, section)
  {
    var v := GetOr(f, section, JArr([]));
    if v.JArr? {
      assert forall i :: 0 <= i < |v.items| ==>
               (|NamedTalentIssues(section, i, v.items[i])| == 0 <==> GoodNamedTalent(v.items[i]));
    }
  }

  lemma SkillMasteryGood(v: Json)
    ensures |SkillMasteryIssues(v)| == 0 <==> GoodSkillMastery(v)
  {
    if v.JObj? {
      forall c | 0 <= c < |v.fields|
        ensures |CategoryIssues(v.fields[c].0, v.fields[c].1)| == 0 <==> GoodCategory(v.fields[c].1)
      {
        var groups := v.fields[c].1;
        if groups.JArr? {
          forall g | 0 <= g < |groups.items|
            ensures |GroupIssues(v.fields[c].0, g, groups.items[g])| == 0 <==> GoodGroup(groups.items[g])
          {
            var group := groups.items[g];
            if group.JObj? {
              var talents := GetOr(group.fields, "talents", JArr([]));
              if talents.JArr? {
                assert forall t :: 0 <= t < |talents.items| ==>
                         (|SkillTalentIssues(v.fields[c].0, g, t, talents.items[t])| == 0 <==> GoodSkillTalent(talents.items[t]));
              }
            }
          }
        }
      }
    }
  }

  // ---------------------------------------------------------------------
  // Origin choices and kingdom features

  function RequireFields(fields: seq<(string, Json)>, names: seq<string>, issue: string -> Issue): (r: seq<Issue>)
    ensures |r| == 0 <==> forall n :: n in names ==> HasKey(fields, n)
  {
    if |names| == 0 then []
    else (if HasKey(fields, names[0]) then [] else [issue(names[0])]) + RequireFields(fields, names[1..], issue)
  }

  function OriginChoiceIssues(i: nat, choice: Json): seq<Issue> {
    if !choice.JObj? then [ChoiceNotDict(i)]
    else RequireFields(choice.fields, ["name", "skills"], field => ChoiceMissing(i, field))
  }

  /** `validate_origin_choices`. */
  function ValidateOrigins(data: Json): (r: (bool, seq<Issue>))
    ensures r.0 <==> |r.1| == 0
    ensures !data.JArr? ==> r == (false, [NotList("origin_choices")])
    ensures r.0 <==> data.JArr? && forall i :: 0 <= i < |data.items| ==>
              data.items[i].JObj? && HasKey(data.items[i].fields, "name") && HasKey(data.items[i].fields, "skills")
  {
    if !data.JArr? then (false, [NotList("origin_choices")])
    else
      var errors := Each(data.items, OriginChoiceIssues);
      (|errors| == 0, errors)
  }

  function FeatureChoiceIssues(feature: string, kingdom: string, c: nat, choice: Json): seq<Issue> {
    if !choice.JObj? then [FeatureChoiceNotDict(feature, kingdom, c)]
    else RequireFields(choice.fields, ["name", "mods"], field => FeatureChoiceMissing(feature, kingdom, c, field))
  }

  function KingdomIssues(feature: string, kingdom: string, choices: Json): seq<Issue> {
    if !choices.JArr? then [KingdomNotList(feature, kingdom)]
    else Each(choices.items, (c, choice) => FeatureChoiceIssues(feature, kingdom, c, choice))
  }

  function FeatureIssues(feature: string, data: Json): seq<Issue> {
    if !data.JObj? then [FeatureNotDict(feature)]
    else Each(data.fields, (_, k: (string, Json)) => KingdomIssues(feature, k.0, k.1))
  }

  /** `validate_kingdom_features`. */
  function ValidateKingdomFeatures(data: Json): (r: (bool, seq<Issue>))
    ensures r.0 <==> |r.1| == 0
    ensures !data.JObj? ==> r == (false, [NotDict("kingdom_features")])
  {
    if !data.JObj? then (false, [NotDict("kingdom_features")])
    else
      var errors := Each(data.fields, (_, e: (string, Json)) => FeatureIssues(e.0, e.1));
      (|errors| == 0, errors)
  }

  predicate GoodFeatureChoice(choice: Json) {
    choice.JObj? && HasKey(choice.fields, "name") && HasKey(choice.fields, "mods")
  }

  predicate GoodFeature(data: Json) {
    data.JObj? && forall k :: 0 <= k < |data.fields| ==>
      data.fields[k].1.JArr? &&
      forall c :: 0 <= c < |data.fields[k].1.items| ==> GoodFeatureChoice(data.fields[k].1.items[c])
  }

  /** The kingdom features are valid iff every feature maps each kingdom to a
      list of choices that all have a name and mods. */
  lemma KingdomFeaturesValidIff(data: Json)
    ensures ValidateKingdomFeatures(data).0 <==> data.JObj? && forall i :: 0 <= i < |data.fields| ==> GoodFeature(data.fields[i].1)
  {
    if data.JObj? {
      forall i | 0 <= i < |data.fields|
        ensures |FeatureIssues(data.fields[i].0, data.fields[i].1)| == 0 <==> GoodFeature(data.fields[i].1)
      {
        var fd := data.fields[i].1;
        if fd.JObj? {
          forall k | 0 <= k < |fd.fields|
            ensures |KingdomIssues(data.fields[i].0, fd.fields[k].0, fd.fields[k].1)| == 0 <==>
                    (fd.fields[k].1.JArr? && forall c :: 0 <= c < |fd.fields[k].1.items| ==> GoodFeatureChoice(fd.fields[k].1.items[c]))
          {
          }
        }
      }
    }
  }

  // ---------------------------------------------------------------------
  // All data sets

  predicate HasKeyIn<V>(r: seq<(string, V)>, k: string) {
    exists i :: 0 <= i < |r| && r[i].0 == k
  }

  function Report(name: string, result: (bool, seq<Issue>)): (r: seq<(string, seq<Issue>)>)
    ensures |r| == 0 <==> result.0
    ensures forall i :: 0 <= i < |r| ==> r[i] == (name, result.1)
  {
    if result.0 then [] else [(name, result.1)]
  }

  /** Every section listed carries at least one issue. */
  predicate NamedIssues(report: seq<(string, seq<Issue>)>) {
    forall i :: 0 <= i < |report| ==> |report[i].1| > 0
  }

  lemma NamedIssuesConcat(a: seq<(string, seq<Issue>)>, b: seq<(string, seq<Issue>)>)
    requires NamedIssues(a) && NamedIssues(b)
    ensures NamedIssues(a + b)
  {
    forall i | 0 <= i < |a + b| ensures |(a + b)[i].1| > 0 {
      if i >= |a| { assert (a + b)[i] == b[i - |a|]; }
    }
  }

  /** A section's result: valid exactly when it lists no issue. */
  predicate Consistent(result: (bool, seq<Issue>)) {
    result.0 <==> |result.1| == 0
  }

  /** The four sections' reports in order, valid when every section is. */
  function Collect(a: (bool, seq<Issue>), t: (bool, seq<Issue>), k: (bool, seq<Issue>), o: (bool, seq<Issue>))
    : (r: (bool, seq<(string, seq<Issue>)>))
    requires Consistent(a) && Consistent(t) && Consistent(k) && Consistent(o)
    ensures r.0 <==> |r.1| == 0
    ensures r.0 <==> a.0 && t.0 && k.0 && o.0
    ensures NamedIssues(r.1)
  {
    var all := Report("abilities", a) + Report("talents", t) + Report("kingdom_features", k) + Report("origin_choices", o);
    NamedIssuesConcat(Report("abilities", a), Report("talents", t));
    NamedIssuesConcat(Report("abilities", a) + Report("talents", t), Report("kingdom_features", k));
    NamedIssuesConcat(Report("abilities", a) + Report("talents", t) + Report("kingdom_features", k), Report("origin_choices", o));
    (|all| == 0, all)
  }

  /** `validate_all_rules_data`: each data set is read with `.get` (an empty
      dict, or an empty list for the origin choices, when absent); the
      failing ones' errors are reported under their names. */
  function ValidateAll(rules: seq<(string, Json)>): (r: (bool, seq<(string, seq<Issue>)>))
    ensures r.0 <==> |r.1| == 0
    ensures r.0 <==>
              ValidateAbilities(GetOr(rules, "ability_data", JObj([]))).0 &&
              ValidateTalents(GetOr(rules, "talent_data", JObj([]))).0 &&
              ValidateKingdomFeatures(GetOr(rules, "kingdom_features_data", JObj([]))).0 &&
              ValidateOrigins(GetOr(rules, "origin_choices", JArr([]))).0
    ensures NamedIssues(r.1)
  {
    Collect(ValidateAbilities(GetOr(rules, "ability_data", JObj([]))),
            ValidateTalents(GetOr(rules, "talent_data", JObj([]))),
            ValidateKingdomFeatures(GetOr(rules, "kingdom_features_data", JObj([]))),
            ValidateOrigins(GetOr(rules, "origin_choices", JArr([]))))
  }

  /** The report has a key exactly for each failing data set. */
  lemma ValidateAllKeys(rules: seq<(string, Json)>, key: string)
    ensures var a := ValidateAbilities(GetOr(rules, "ability_data", JObj([])));
            var t := ValidateTalents(GetOr(rules, "talent_data", JObj([])));
            var k := ValidateKingdomFeatures(GetOr(rules, "kingdom_features_data", JObj([])));
            var o := ValidateOrigins(GetOr(rules, "origin_choices", JArr([])));
            HasKeyIn(ValidateAll(rules).1, key)
            <==> (key == "abilities" && !a.0) || (key == "talents" && !t.0) ||
                 (key == "kingdom_features" && !k.0) || (key == "origin_choices" && !o.0)
  {
    var a := Report("abilities", ValidateAbilities(GetOr(rules, "ability_data", JObj([]))));
    var t := Report("talents", ValidateTalents(GetOr(rules, "talent_data", JObj([]))));
    var k := Report("kingdom_features", ValidateKingdomFeatures(GetOr(rules, "kingdom_features_data", JObj([]))));
    var o := Report("origin_choices", ValidateOrigins(GetOr(rules, "origin_choices", JArr([]))));
    ReportKey("abilities", ValidateAbilities(GetOr(rules, "ability_data", JObj([]))), key);
    ReportKey("talents", ValidateTalents(GetOr(rules, "talent_data", JObj([]))), key);
    ReportKey("kingdom_features", ValidateKingdomFeatures(GetOr(rules, "kingdom_features_data", JObj([]))), key);
    ReportKey("origin_choices", ValidateOrigins(GetOr(rules, "origin_choices", JArr([]))), key);
    KeysOfConcat(a, t, key);
    KeysOfConcat(a + t, k, key);
    KeysOfConcat(a + t + k, o, key);
  }

  lemma ReportKey(name: string, result: (bool, seq<Issue>), key: string)
    ensures HasKeyIn(Report(name, result), key) <==> key == name && !result.0
  {
    if key == name && !result.0 {
      assert Report(name, result)[0].0 == key;
    }
  }

  lemma KeysOfConcat<V>(x: seq<(string, V)>, y: seq<(string, V)>, key: string)
    ensures HasKeyIn(x + y, key) <==> HasKeyIn(x, key) || HasKeyIn(y, key)
  {
    if HasKeyIn(x, key) {
      var i :| 0 <= i < |x| && x[i].0 == key;
      assert (x + y)[i] == x[i];
    }
    if HasKeyIn(y, key) {
      var i :| 0 <= i < |y| && y[i].0 == key;
      assert (x + y)[|x| + i] == y[i];
    }
    if HasKeyIn(x + y, key) {
      var i :| 0 <= i < |x + y| && (x + y)[i].0 == key;
      if i < |x| { assert x[i] == (x + y)[i]; } else { assert y[i - |x|] == (x + y)[i]; }
    }
  }

  /** An empty talents dict reports its three sections missing, and nothing else. */
  lemma EmptyTalentsReport()
    ensures ValidateTalents(JObj([])) == (false, [MissingSection("single_stat_mastery"),
                                                  MissingSection("dual_stat_focus"),
                                                  MissingSection("single_skill_mastery")])
  {
    var missing := [MissingSection("single_stat_mastery"), MissingSection("dual_stat_focus"), MissingSection("single_skill_mastery")];
    assert MissingSections([], RequiredSections) == missing;
    assert ListSectionIssues([], "single_stat_mastery") == [];
    assert ListSectionIssues([], "dual_stat_focus") == [];
    assert SkillMasteryIssues(GetOr([], "single_skill_mastery", JObj([]))) == [];
    var d := JObj([]);
    assert d.JObj?;
    assert ValidateTalents(d).1 == missing;
  }

  /** With no rules data at all, only the talents fail: their three
      required sections are missing. */
  lemma EmptyRulesReport()
    ensures ValidateAll([]) == (false, [("talents", [MissingSection("single_stat_mastery"),
                                                     MissingSection("dual_stat_focus"),
                                                     MissingSection("single_skill_mastery")])])
  {
    EmptyTalentsReport();
    var empty: seq<(string, Json)> := [];
    assert GetOr(empty, "ability_data", JObj([])) == JObj([]);
    assert GetOr(empty, "talent_data", JObj([])) == JObj([]);
    assert GetOr(empty, "kingdom_features_data", JObj([])) == JObj([]);
    assert GetOr(empty, "origin_choices", JArr([])) == JArr([]);
    EmptySectionsPass();
    OnlyTalentsFail(ValidateTalents(JObj([])));
  }

  lemma OnlyTalentsFail(t: (bool, seq<Issue>))
    requires Consistent(t) && !t.0
    ensures Collect((true, []), t, (true, []), (true, [])) == (false, [("talents", t.1)])
  {
    var none: (bool, seq<Issue>) := (true, []);
    assert Report("abilities", none) == [] && Report("kingdom_features", none) == [] && Report("origin_choices", none) == [];
    assert Report("talents", t) == [("talents", t.1)];
    assert [] + [("talents", t.1)] + [] + [] == [("talents", t.1)];
  }

  /** Missing abilities, kingdom features and origins raise no issue. */
  lemma EmptySectionsPass()
    ensures ValidateAbilities(JObj([])) == (true, [])
    ensures ValidateKingdomFeatures(JObj([])) == (true, [])
    ensures ValidateOrigins(JArr([])) == (true, [])
  {
  }
}

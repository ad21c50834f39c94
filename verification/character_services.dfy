/** The character engine's services (AI-TTRPG/character_engine/app/services.py):
    applying a `mods` block to a stats dict, the pure steps of character
    creation, and the fallbacks of the character context response.

    The rules data, the base-vitals answer and the stored record are given
    as parameters; the HTTP calls and the database are not modelled. */
module CharacterServices {
  import opened Wrappers
  import opened Json

  // ---------------------------------------------------------------------
  // Mods

  /** `_apply_mods` changes its dict in place and may raise part-way through
      (an unhashable stat name); `raised` says it did, `stats` is the dict as
      the raise left it. */
  datatype Applied = Applied(stats: map<string, int>, raised: bool)

  /** The change a mods key asks for; any other key asks for none. */
  function ModValue(key: string): int {
    if key == "+2" then 2 else if key == "+1" then 1 else if key == "-1" then -1 else 0
  }

  /** A list or a dict cannot be looked up in a dict: `name in stats` raises. */
  predicate Unhashable(j: Json) {
    j.JArr? || j.JObj?
  }

  /** Adding `value` to every listed name already in `stats`, in list order. */
  function AddToListed(stats: map<string, int>, names: seq<Json>, value: int): (r: Applied)
    ensures r.stats.Keys == stats.Keys
    ensures r.raised <==> exists k :: 0 <= k < |names| && Unhashable(names[k])
  {
    if |names| == 0 then Applied(stats, false)
    else if Unhashable(names[0]) then Applied(stats, true)
    else
      var next := if names[0].JStr? && names[0].s in stats then stats[names[0].s := stats[names[0].s] + value] else stats;
      var r := AddToListed(next, names[1..], value);
      assert forall k :: 1 <= k < |names| ==> names[k] == names[1..][k - 1];
      r
  }

  /** The entry `(key, v)` of a mods block raises: it changes stats and its
      list holds an unhashable name. */
  predicate EntryRaises(key: string, v: Json) {
    v.JArr? && ModValue(key) != 0 && exists k :: 0 <= k < |v.items| && Unhashable(v.items[k])
  }

  predicate ModsRaise(fields: seq<(string, Json)>) {
    exists i :: 0 <= i < |fields| && EntryRaises(fields[i].0, fields[i].1)
  }

  function ApplyFields(stats: map<string, int>, fields: seq<(string, Json)>): (r: Applied)
    ensures r.stats.Keys == stats.Keys
    ensures r.raised <==> ModsRaise(fields)
  {
    if |fields| == 0 then Applied(stats, false)
    else
      assert forall i :: 1 <= i < |fields| ==> fields[i] == fields[1..][i - 1];
      var (key, v) := fields[0];
      if !v.JArr? || ModValue(key) == 0 then ApplyFields(stats, fields[1..])
      else
        var a := AddToListed(stats, v.items, ModValue(key));
        if a.raised then a else ApplyFields(a.stats, fields[1..])
  }

  /** `_apply_mods(stats, mods)`: a mods argument that is not a dict changes
      nothing; otherwise each entry whose value is a list and whose key is
      "+2", "+1" or "-1" shifts the listed stats that exist. The key set of
      `stats` never changes. */
  function ApplyMods(stats: map<string, int>, mods: Json): (r: Applied)
    ensures r.stats.Keys == stats.Keys
    ensures !mods.JObj? ==> r == Applied(stats, false)
    ensures r.raised <==> mods.JObj? && ModsRaise(mods.fields)
  {
    if mods.JObj? then ApplyFields(stats, mods.fields) else Applied(stats, false)
  }

  /** The total shift a mods block asks of stat `s`: each occurrence of `s`
      in a list counts the list's key value. */
  function Delta(fields: seq<(string, Json)>, s: string): int {
    if |fields| == 0 then 0
    else
      (if fields[0].1.JArr? then ModValue(fields[0].0) * multiset(fields[0].1.items)[JStr(s)] else 0)
      + Delta(fields[1..], s)
  }

  lemma {:induction false} AddToListedShift(stats: map<string, int>, names: seq<Json>, value: int, s: string)
    requires s in stats
    requires !AddToListed(stats, names, value).raised
    ensures AddToListed(stats, names, value).stats[s] == stats[s] + value * multiset(names)[JStr(s)]
  {
    if |names| > 0 {
      var next := if names[0].JStr? && names[0].s in stats then stats[names[0].s := stats[names[0].s] + value] else stats;
      assert AddToListed(stats, names, value) == AddToListed(next, names[1..], value);
      AddToListedShift(next, names[1..], value, s);
      var here := if names[0] == JStr(s) then 1 else 0;
      var rest := multiset(names[1..])[JStr(s)];
      assert multiset(names)[JStr(s)] == here + rest by {
        assert names == [names[0]] + names[1..];
        assert multiset(names) == multiset{names[0]} + multiset(names[1..]);
      }
      if names[0] == JStr(s) {
        assert next[s] == stats[s] + value;
        MulSucc(value, rest);
      } else {
        assert next[s] == stats[s];
      }
    }
  }

  lemma MulSucc(a: int, b: int)
    ensures a * (1 + b) == a + a * b
  {
  }

  lemma {:induction false} ApplyFieldsShift(stats: map<string, int>, fields: seq<(string, Json)>, s: string)
    requires s in stats
    requires !ApplyFields(stats, fields).raised
    ensures ApplyFields(stats, fields).stats[s] == stats[s] + Delta(fields, s)
  {
    if |fields| > 0 {
      var (key, v) := fields[0];
      if !v.JArr? || ModValue(key) == 0 {
        ApplyFieldsShift(stats, fields[1..], s);
      } else {
        var a := AddToListed(stats, v.items, ModValue(key));
        AddToListedShift(stats, v.items, ModValue(key), s);
        ApplyFieldsShift(a.stats, fields[1..], s);
      }
    }
  }

  /** When no entry raises, every stat ends shifted by exactly its `Delta`:
      unknown keys, non-list values and names that are not stats count for
      nothing, and a stat listed twice is shifted twice. */
  lemma ApplyModsShift(stats: map<string, int>, mods: Json, s: string)
    requires s in stats
    requires !ApplyMods(stats, mods).raised
    ensures ApplyMods(stats, mods).stats[s] == stats[s] + (if mods.JObj? then Delta(mods.fields, s) else 0)
  {
    if mods.JObj? {
      ApplyFieldsShift(stats, mods.fields, s);
    }
  }

  /** A block with only "+2" Might changes Might by 2 and nothing else. */
  lemma PlusTwoMight(stats: map<string, int>, s: string)
    requires "Might" in stats && s in stats
    ensures ApplyMods(stats, JObj([("+2", JArr([JStr("Might")]))])).stats[s]
         == stats[s] + (if s == "Might" then 2 else 0)
  {
    var items := [JStr("Might")];
    assert !Unhashable(items[0]);
    ApplyModsShift(stats, JObj([("+2", JArr(items))]), s);
    assert multiset(items)[JStr(s)] == (if s == "Might" then 1 else 0);
  }

  // ---------------------------------------------------------------------
  // Creation

  datatype FeatureChoice = FeatureChoice(featureId: string, choiceName: string)

  datatype CharacterCreate = CharacterCreate(
    name: string, kingdom: string, featureChoices: seq<FeatureChoice>,
    backgroundTalent: string, abilitySchool: string, abilityTalent: string)

  /** The rules data creation reads: the kingdom features as fetched, the
      stat and skill name lists, talents by name and ability schools by name. */
  datatype CreationRules = CreationRules(
    kingdomFeatures: Json, statsList: seq<string>, allSkills: seq<string>,
    talents: map<string, Json>, schools: map<string, Json>)

  datatype NewCharacter = NewCharacter(
    name: string, kingdom: string, level: int,
    stats: map<string, int>, skills: map<string, int>,
    maxHp: Json, currentHp: Json, resourcePools: Json,
    talents: seq<string>, abilities: seq<Json>,
    inventory: Json, equipment: Json, statusEffects: seq<Json>, injuries: seq<Json>,
    positionX: int, positionY: int)

  /** `{name: v for name in names}`. */
  function Uniform(names: seq<string>, v: int): (r: map<string, int>)
    ensures forall n :: n in r <==> n in names
    ensures forall n :: n in r ==> r[n] == v
  {
    map n | n in names :: v
  }

  /** Feature F9 is listed under "All"; every other feature under the kingdom. */
  function KingdomKey(choice: FeatureChoice, kingdom: string): (r: string)
    ensures choice.featureId == "F9" ==> r == "All"
    ensures choice.featureId != "F9" ==> r == kingdom
  {
    if choice.featureId == "F9" then "All" else kingdom
  }

  /** `item["name"] == name` for one item of a feature set; an item that is
      not a dict, or has no name, raises. */
  function NameMatches(item: Json, name: string): Result<bool> {
    if !item.JObj? then Err("TypeError: item is not subscriptable")
    else match Lookup(item.fields, "name")
      case None => Err("KeyError: 'name'")
      case Some(n) => Ok(n == JStr(name))
  }

  /** The items before index `i` are dicts whose name is not `name`. */
  predicate PassedOver(items: seq<Json>, name: string, i: int)
    requires 0 <= i <= |items|
  {
    forall j :: 0 <= j < i ==> NameMatches(items[j], name) == Ok(false)
  }

  /** `next(item for item in items if item["name"] == name)`, or None. */
  function FirstNamed(items: seq<Json>, name: string): (r: Result<Option<seq<(string, Json)>>>)
    ensures r.Ok? && r.value.Some? ==>
              exists i :: 0 <= i < |items| && items[i] == JObj(r.value.value)
                && NameMatches(items[i], name) == Ok(true) && PassedOver(items, name, i)
    ensures r.Ok? && r.value.None? ==> PassedOver(items, name, |items|)
    ensures r.Err? ==> exists i :: 0 <= i < |items| && NameMatches(items[i], name).Err? && PassedOver(items, name, i)
  {
    if |items| == 0 then Ok(None)
    else
      var r := FirstNamed(items[1..], name);
      assert forall j :: 1 <= j < |items| ==> items[j] == items[1..][j - 1];
      match NameMatches(items[0], name)
      case Err(e) => Err(e)
      case Ok(true) => Ok(Some(items[0].fields))
      case Ok(false) => r
  }

  /** Iterating a feature set: a list yields its items; a dict its keys and a
      string its characters, each of which fails `item["name"]`, so only an
      empty one gets through; any other value is not iterable. */
  function FindChoice(featureSet: Json, name: string): (r: Result<Option<seq<(string, Json)>>>)
    ensures featureSet.JArr? ==> r == FirstNamed(featureSet.items, name)
    ensures featureSet.JObj? ==> (r.Ok? <==> |featureSet.fields| == 0)
    ensures featureSet.JStr? ==> (r.Ok? <==> |featureSet.s| == 0)
    ensures r.Ok? && !featureSet.JArr? ==> r.value.None?
  {
    match featureSet
    case JArr(items) => FirstNamed(items, name)
    case JObj(fields) => if |fields| == 0 then Ok(None) else Err("TypeError: string indices must be integers")
    case JStr(s) => if |s| == 0 then Ok(None) else Err("TypeError: string indices must be integers")
    case _ => Err("TypeError: object is not iterable")
  }

  /** `features.get(feature_id, {}).get(kingdom_key, [])`. */
  function FeatureSet(features: Json, choice: FeatureChoice, kingdom: string): Result<Json> {
    var byKingdom :- PyGet(features, choice.featureId, JObj([]));
    PyGet(byKingdom, KingdomKey(choice, kingdom), JArr([]))
  }

  /** One feature choice. Every error is caught and the choice skipped, but
      mods applied before a raise stay applied. */
  function ApplyFeature(stats: map<string, int>, features: Json, choice: FeatureChoice, kingdom: string): (r: map<string, int>)
    ensures r.Keys == stats.Keys
  {
    match FeatureSet(features, choice, kingdom)
    case Err(_) => stats
    case Ok(found) =>
      match FindChoice(found, choice.choiceName)
      case Ok(Some(item)) =>
        if HasKey(item, "mods") then ApplyMods(stats, Lookup(item, "mods").value).stats else stats
      case _ => stats
  }

  function ApplyFeatures(stats: map<string, int>, features: Json, choices: seq<FeatureChoice>, kingdom: string): (r: map<string, int>)
    ensures r.Keys == stats.Keys
  {
    if |choices| == 0 then stats
    else ApplyFeatures(ApplyFeature(stats, features, choices[0], kingdom), features, choices[1..], kingdom)
  }

  /** The first feature of the right set whose name matches is the one
      applied: under "All" for F9, under the kingdom otherwise. */
  lemma FirstMatchApplied(stats: map<string, int>, byFeature: seq<(string, Json)>, byKingdom: seq<(string, Json)>,
                          choice: FeatureChoice, kingdom: string, items: seq<Json>, i: nat, mods: Json)
    requires Lookup(byFeature, choice.featureId) == Some(JObj(byKingdom))
    requires Lookup(byKingdom, KingdomKey(choice, kingdom)) == Some(JArr(items))
    requires i < |items| && PassedOver(items, choice.choiceName, i)
    requires items[i].JObj? && Lookup(items[i].fields, "name") == Some(JStr(choice.choiceName))
    requires Lookup(items[i].fields, "mods") == Some(mods)
    ensures ApplyFeature(stats, JObj(byFeature), choice, kingdom) == ApplyMods(stats, mods).stats
  {
    assert FeatureSet(JObj(byFeature), choice, kingdom) == Ok(JArr(items));
    FirstNamedAt(items, choice.choiceName, i);
    assert FindChoice(JArr(items), choice.choiceName) == Ok(Some(items[i].fields));
  }

  lemma {:induction false} FirstNamedAt(items: seq<Json>, name: string, i: nat)
    requires i < |items| && PassedOver(items, name, i)
    requires NameMatches(items[i], name) == Ok(true)
    ensures FirstNamed(items, name) == Ok(Some(items[i].fields))
  {
    if i > 0 {
      assert NameMatches(items[0], name) == Ok(false);
      assert items[1..][i - 1] == items[i];
      FirstNamedAt(items[1..], name, i - 1);
    }
  }

  /** The shift a mods value asks of stat `s`; a value that is not a dict asks none. */
  function ModsDelta(mods: Json, s: string): int {
    if mods.JObj? then Delta(mods.fields, s) else 0
  }

  /** The mods a known, dict-valued talent carries, if any. */
  function TalentModsOf(talents: map<string, Json>, name: string): Option<Json> {
    if name in talents && talents[name].JObj? then Lookup(talents[name].fields, "mods") else None
  }

  /** A background or ability talent's mods. Here a raise is not caught:
      creation fails. */
  function TalentMods(stats: map<string, int>, talents: map<string, Json>, name: string): (r: Result<map<string, int>>)
    ensures r.Ok? ==> r.value.Keys == stats.Keys
    ensures name !in talents ==> r == Ok(stats)
    ensures TalentModsOf(talents, name).None? && r.Ok? ==> r.value == stats
    ensures TalentModsOf(talents, name).Some? ==>
              var applied := ApplyMods(stats, TalentModsOf(talents, name).value);
              && (r.Err? <==> applied.raised)
              && (r.Ok? ==> r.value == applied.stats)
  {
    if name !in talents || !Truthy(talents[name]) then Ok(stats)
    else
      var data := talents[name];
      var has :- PyIn(data, "mods");
      if !has then Ok(stats)
      else if !data.JObj? then Err("TypeError: indices must be integers")
      else
        var a := ApplyMods(stats, Lookup(data.fields, "mods").value);
        if a.raised then Err("TypeError: unhashable type") else Ok(a.stats)
  }

  /** Every stat moves by exactly what the talent's mods ask of it. */
  lemma TalentModsShift(stats: map<string, int>, talents: map<string, Json>, name: string, s: string)
    requires s in stats && TalentMods(stats, talents, name).Ok?
    ensures TalentMods(stats, talents, name).value[s] == stats[s] + ModsDelta(TalentModsOf(talents, name).GetOr(JNull), s)
  {
    if TalentModsOf(talents, name).Some? {
      ApplyModsShift(stats, TalentModsOf(talents, name).value, s);
    }
  }

  /** The tier-0 ability of the chosen school, when the school has tiers. */
  function BaseAbilities(schools: map<string, Json>, school: string): (r: Result<seq<Json>>)
    ensures r.Ok? ==> |r.value| <= 1
    ensures school !in schools ==> r == Ok([])
    ensures school in schools && schools[school].JObj? && Lookup(schools[school].fields, "tiers") == Some(JArr([]))
            ==> r == Ok([])
  {
    if school !in schools || !Truthy(schools[school]) then Ok([])
    else
      var data := schools[school];
      var has :- PyIn(data, "tiers");
      if !has then Ok([])
      else if !data.JObj? then Err("TypeError: indices must be integers")
      else
        var tiers := Lookup(data.fields, "tiers").value;
        match tiers
        case JArr(items) =>
          if |items| == 0 then Ok([])
          else var name :- PyGet(items[0], "name", JStr("Unknown Ability")); Ok([name])
        case JObj(fields) => if |fields| == 0 then Ok([]) else Err("KeyError: 0")
        case JStr(s) => if |s| == 0 then Ok([]) else Err("AttributeError: 'str' object has no attribute 'get'")
        case _ => Err("TypeError: object has no len()")
  }

  /** A school whose first tier is a dict contributes that tier's name, or
      "Unknown Ability" when it has none. */
  lemma TierZeroAbility(schools: map<string, Json>, school: string, data: seq<(string, Json)>,
                        tiers: seq<Json>, first: seq<(string, Json)>)
    requires school in schools && schools[school] == JObj(data)
    requires Lookup(data, "tiers") == Some(JArr(tiers))
    requires |tiers| > 0 && tiers[0] == JObj(first)
    ensures BaseAbilities(schools, school) == Ok([Lookup(first, "name").GetOr(JStr("Unknown Ability"))])
  {
    assert Truthy(JObj(data)) by { assert data != []; }
  }

  /** `create_character`: stats start at 8 and skills at 0; feature, then
      background-talent, then ability-talent mods are applied; the vitals
      come from the base-vitals answer for the final stats. */
  function CreateCharacter(rules: Result<CreationRules>, c: CharacterCreate,
                           vitals: map<string, int> -> Result<Json>): (r: Result<NewCharacter>)
    ensures rules.Err? ==> r.Err?
    ensures r.Ok? ==> r.value.level == 1 && r.value.currentHp == r.value.maxHp
    ensures r.Ok? ==> r.value.talents == [c.backgroundTalent, c.abilityTalent]
    ensures r.Ok? ==> forall s :: s in r.value.stats <==> s in rules.value.statsList
    ensures r.Ok? ==> forall s :: s in r.value.skills <==> s in rules.value.allSkills
    ensures r.Ok? ==> forall s :: s in r.value.skills ==> r.value.skills[s] == 0
    ensures r.Ok? ==> |r.value.abilities| <= 1
    ensures r.Ok? ==> r.value.inventory == JObj([]) && r.value.equipment == JObj([])
                      && r.value.statusEffects == [] && r.value.injuries == []
                      && r.value.positionX == 0 && r.value.positionY == 0
    ensures r.Ok? ==>
              var data := rules.value;
              var featured := ApplyFeatures(Uniform(data.statsList, 8), data.kingdomFeatures, c.featureChoices, c.kingdom);
              && TalentMods(featured, data.talents, c.backgroundTalent).Ok?
              && TalentMods(TalentMods(featured, data.talents, c.backgroundTalent).value,
                            data.talents, c.abilityTalent).Ok?
              && r.value.stats == TalentMods(TalentMods(featured, data.talents, c.backgroundTalent).value,
                                             data.talents, c.abilityTalent).value
  {
    match rules
    case Err(e) => Err("Failed to fetch rules data: " + e)
    case Ok(data) =>
      var base := Uniform(data.statsList, 8);
      var featured := ApplyFeatures(base, data.kingdomFeatures, c.featureChoices, c.kingdom);
      var withBackground :- TalentMods(featured, data.talents, c.backgroundTalent);
      var stats :- TalentMods(withBackground, data.talents, c.abilityTalent);
      var answer :- vitals(stats);
      var fields :- Fields(answer);
      var maxHp := Lookup(fields, "max_hp").GetOr(JInt(1));
      var pools := Lookup(fields, "resources").GetOr(JObj([]));
      var abilities :- BaseAbilities(data.schools, c.abilitySchool);
      Ok(NewCharacter(c.name, c.kingdom, 1, stats, Uniform(data.allSkills, 0), maxHp, maxHp, pools,
                      [c.backgroundTalent, c.abilityTalent], abilities,
                      JObj([]), JObj([]), [], [], 0, 0))
  }

  /** The mods of the feature item a choice selects, if it selects one that has them. */
  function ChosenMods(features: Json, choice: FeatureChoice, kingdom: string): Option<Json> {
    match FeatureSet(features, choice, kingdom)
    case Err(_) => None
    case Ok(found) =>
      match FindChoice(found, choice.choiceName)
      case Ok(Some(item)) => Lookup(item, "mods")
      case _ => None
  }

  /** The chosen feature's mods apply in full: they do not raise part-way. */
  predicate AppliesInFull(features: Json, choice: FeatureChoice, kingdom: string) {
    var m := ChosenMods(features, choice, kingdom);
    m.None? || !(m.value.JObj? && ModsRaise(m.value.fields))
  }

  /** The summed shift the chosen features' mods ask of stat `s`. */
  function FeaturesDelta(features: Json, choices: seq<FeatureChoice>, kingdom: string, s: string): int {
    if |choices| == 0 then 0
    else ModsDelta(ChosenMods(features, choices[0], kingdom).GetOr(JNull), s) + FeaturesDelta(features, choices[1..], kingdom, s)
  }

  lemma {:induction false} ApplyFeaturesShift(stats: map<string, int>, features: Json, choices: seq<FeatureChoice>,
                                              kingdom: string, s: string)
    requires s in stats
    requires forall i :: 0 <= i < |choices| ==> AppliesInFull(features, choices[i], kingdom)
    ensures ApplyFeatures(stats, features, choices, kingdom)[s] == stats[s] + FeaturesDelta(features, choices, kingdom, s)
  {
    if |choices| > 0 {
      var next := ApplyFeature(stats, features, choices[0], kingdom);
      var m := ChosenMods(features, choices[0], kingdom);
      if m.Some? {
        ApplyModsShift(stats, m.value, s);
      }
      assert next[s] == stats[s] + ModsDelta(m.GetOr(JNull), s);
      assert forall i :: 0 <= i < |choices[1..]| ==> choices[1..][i] == choices[i + 1];
      ApplyFeaturesShift(next, features, choices[1..], kingdom, s);
    }
  }

  /** A created stat is 8 plus what the chosen features' mods and the two
      talents' mods ask of it, when no feature's mods raise part-way. */
  lemma CreatedStats(rules: CreationRules, c: CharacterCreate, vitals: map<string, int> -> Result<Json>, s: string)
    requires CreateCharacter(Ok(rules), c, vitals).Ok? && s in rules.statsList
    requires forall i :: 0 <= i < |c.featureChoices| ==> AppliesInFull(rules.kingdomFeatures, c.featureChoices[i], c.kingdom)
    ensures CreateCharacter(Ok(rules), c, vitals).value.stats[s]
            == 8 + FeaturesDelta(rules.kingdomFeatures, c.featureChoices, c.kingdom, s)
                 + ModsDelta(TalentModsOf(rules.talents, c.backgroundTalent).GetOr(JNull), s)
                 + ModsDelta(TalentModsOf(rules.talents, c.abilityTalent).GetOr(JNull), s)
  {
    var base := Uniform(rules.statsList, 8);
    var featured := ApplyFeatures(base, rules.kingdomFeatures, c.featureChoices, c.kingdom);
    ApplyFeaturesShift(base, rules.kingdomFeatures, c.featureChoices, c.kingdom, s);
    var withBackground := TalentMods(featured, rules.talents, c.backgroundTalent);
    TalentModsShift(featured, rules.talents, c.backgroundTalent, s);
    TalentModsShift(withBackground.value, rules.talents, c.abilityTalent, s);
  }

  /** Without feature choices and with talents that carry no mods, every
      stat is created at 8. */
  lemma PlainCharacterAllEights(rules: CreationRules, c: CharacterCreate, vitals: map<string, int> -> Result<Json>)
    requires c.featureChoices == []
    requires c.backgroundTalent !in rules.talents && c.abilityTalent !in rules.talents
    requires CreateCharacter(Ok(rules), c, vitals).Ok?
    ensures CreateCharacter(Ok(rules), c, vitals).value.stats == Uniform(rules.statsList, 8)
  {
  }

  /** The base-vitals answer's `max_hp` becomes both HP fields, 1 when absent. */
  lemma VitalsFromAnswer(rules: CreationRules, c: CharacterCreate, vitals: map<string, int> -> Result<Json>)
    requires CreateCharacter(Ok(rules), c, vitals).Ok?
    ensures var r := CreateCharacter(Ok(rules), c, vitals).value;
            var answer := vitals(r.stats);
            answer.Ok? && answer.value.JObj?
            && r.maxHp == Lookup(answer.value.fields, "max_hp").GetOr(JInt(1))
  {
  }

  // ---------------------------------------------------------------------
  // Context response

  /** A stored character row, its JSON columns as stored. */
  datatype Stored = Stored(
    id: string, name: string, kingdom: Option<string>, level: int,
    stats: Json, skills: Json, maxHp: Json, currentHp: Json, resourcePools: Json,
    talents: Json, abilities: Json, inventory: Json, equipment: Json,
    statusEffects: Json, injuries: Json, positionX: int, positionY: int)

  function DictOr(j: Json): (r: Json)
    ensures r.JObj?
    ensures j.JObj? ==> r == j
    ensures !j.JObj? ==> r == JObj([])
  {
    if j.JObj? then j else JObj([])
  }

  function ListOr(j: Json): (r: Json)
    ensures r.JArr?
    ensures j.JArr? ==> r == j
    ensures !j.JArr? ==> r == JArr([])
  {
    if j.JArr? then j else JArr([])
  }

  /** Each dict column is a dict and each list column a list, the stored
      value when it has the right shape. */
  predicate WellShaped(s: Stored) {
    s.stats.JObj? && s.skills.JObj? && s.resourcePools.JObj? && s.talents.JArr? && s.abilities.JArr?
    && s.inventory.JObj? && s.equipment.JObj? && s.statusEffects.JArr? && s.injuries.JArr?
  }

  /** `get_character_context`: a missing or empty kingdom reads "Unknown";
      each JSON column of the wrong shape reads as an empty dict or list. The
      context is a well-shaped row (kingdom set). */
  function Context(s: Stored): (r: Stored)
    ensures WellShaped(r) && r.kingdom.Some? && r.kingdom.value != ""
    ensures WellShaped(s) && s.kingdom.Some? && s.kingdom.value != "" ==> r == s
    ensures r.id == s.id && r.name == s.name && r.level == s.level
    ensures r.maxHp == s.maxHp && r.currentHp == s.currentHp
    ensures r.positionX == s.positionX && r.positionY == s.positionY
  {
    var kingdom := if s.kingdom.None? || s.kingdom.value == "" then "Unknown" else s.kingdom.value;
    Stored(s.id, s.name, Some(kingdom), s.level,
           DictOr(s.stats), DictOr(s.skills), s.maxHp, s.currentHp, DictOr(s.resourcePools),
           ListOr(s.talents), ListOr(s.abilities), DictOr(s.inventory), DictOr(s.equipment),
           ListOr(s.statusEffects), ListOr(s.injuries), s.positionX, s.positionY)
  }

  /** Reading a context back as a row and building its context changes nothing. */
  lemma ContextIdempotent(s: Stored)
    ensures Context(Context(s)) == Context(s)
  {
  }

  /** A stats column stored as a list reads as an empty dict, whatever it held. */
  lemma ListStatsReadEmpty(s: Stored)
    requires s.stats.JArr?
    ensures Context(s).stats == JObj([])
  {
  }
}

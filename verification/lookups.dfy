/** The rules engine's lookups over loaded rules data
    (AI-TTRPG/rules_engine/app/core.py and its package twin
    AI-TTRPG/rules_engine/core.py): kingdom-feature stats, skill categories,
    the equipment-category skill, status effects and injury effects.

    A raised exception is `Err`; the response models' field types are
    checked as the response model would check them. */
module Lookups {
  import opened Wrappers
  import opened Text
  import opened Json

  // ---------------------------------------------------------------------
  // Kingdom features

  /** `FeatureStatsResponse`: a string name and a dict of string lists. */
  datatype FeatureStats = FeatureStats(name: string, mods: seq<(string, seq<string>)>)

  /** `get_kingdom_feature_stats(name, feature_map)`: an empty map and an
      unknown name raise; the name defaults to the query and the mods to {},
      and values that do not fit the response model raise. */
  function FeatureStatsOf(name: string, featureMap: seq<(string, Json)>): (r: Result<FeatureStats>)
    ensures |featureMap| == 0 ==> r.Err?
    ensures !HasKey(featureMap, name) ==> r.Err?
    ensures r.Ok? <==>
              && |featureMap| > 0 && HasKey(featureMap, name) && Lookup(featureMap, name).value.JObj?
              && var fields := Lookup(featureMap, name).value.fields;
              && StringField(fields, "name", name).Some?
              && StringLists(Lookup(fields, "mods").GetOr(JObj([]))).Some?
    ensures r.Ok? ==>
              var fields := Lookup(featureMap, name).value.fields;
              && Some(r.value.name) == StringField(fields, "name", name)
              && Some(r.value.mods) == StringLists(Lookup(fields, "mods").GetOr(JObj([])))
  {
    if |featureMap| == 0 then Err("Feature map not provided or empty.")
    else match Lookup(featureMap, name)
      case None => Err("Feature not found in provided rules map.")
      case Some(feature) =>
        if !feature.JObj? then Err("feature data has no .get")
        else
          var nm := StringField(feature.fields, "name", name);
          var mods := StringLists(Lookup(feature.fields, "mods").GetOr(JObj([])));
          if nm.None? || mods.None? then Err("Data structure mismatch for feature")
          else Ok(FeatureStats(nm.value, mods.value))
  }

  /** A feature stored without its own "name" field reports the name it was
      looked up by, and no mods. */
  lemma FeatureStatsDefaults(name: string, rest: seq<(string, Json)>)
    ensures FeatureStatsOf(name, [(name, JObj([]))] + rest) == Ok(FeatureStats(name, []))
  {
  }

  /** A feature's JSON form, as the rules data stores it. */
  function FeatureJson(f: FeatureStats): Json {
    JObj([("name", JStr(f.name)), ("mods", StringListsJson(f.mods))])
  }

  /** A stored feature is read back as it was written. */
  lemma FeatureStatsRoundTrip(key: string, f: FeatureStats, rest: seq<(string, Json)>)
    ensures FeatureStatsOf(key, [(key, FeatureJson(f))] + rest) == Ok(f)
  {
    var fields := [("name", JStr(f.name)), ("mods", StringListsJson(f.mods))];
    assert "name" != "mods" by { assert "name"[0] != "mods"[0]; }
    assert Lookup(fields, "mods") == Some(StringListsJson(f.mods));
    StringListsRoundTrip(f.mods);
  }

  // ---------------------------------------------------------------------
  // Skill categories

  /** `get_skills_by_category`: the map itself, unless it is empty. */
  function SkillsByCategory(categories: seq<(string, Json)>): (r: Result<seq<(string, Json)>>)
    ensures r.Ok? <==> |categories| > 0
    ensures r.Ok? ==> r.value == categories
  {
    if |categories| == 0 then Err("Skill categories map not provided or empty.") else Ok(categories)
  }

  /** `get_skill_for_category`: the skill trained by an equipment category. */
  function SkillForCategory(category: string, skillMap: seq<(string, Json)>): (r: Result<Json>)
    ensures r.Ok? <==> |skillMap| > 0 && HasKey(skillMap, category)
    ensures r.Ok? ==> exists i :: 0 <= i < |skillMap| && skillMap[i] == (category, r.value)
  {
    if |skillMap| == 0 then Err("Skill map not provided or empty.")
    else match Lookup(skillMap, category)
      case None => Err("Category not found in skill map.")
      case Some(v) => Ok(v)
  }

  // ---------------------------------------------------------------------
  // Typed reads used by the response models

  function AsString(j: Json): Option<string> {
    if j.JStr? then Some(j.s) else None
  }

  /** A JSON list of strings, as a `List[str]` field accepts it. */
  function AsStrings(items: seq<Json>): (r: Option<seq<string>>)
    ensures r.Some? <==> forall i :: 0 <= i < |items| ==> items[i].JStr?
    ensures r.Some? ==> |r.value| == |items| && forall i :: 0 <= i < |items| ==> r.value[i] == items[i].s
  {
    if |items| == 0 then Some([])
    else if !items[0].JStr? then None
    else match AsStrings(items[1..])
      case None => None
      case Some(rest) => Some([items[0].s] + rest)
  }

  function StringsJson(xs: seq<string>): (r: seq<Json>)
    ensures |r| == |xs| && forall i :: 0 <= i < |xs| ==> r[i] == JStr(xs[i])
  {
    seq(|xs|, i requires 0 <= i < |xs| => JStr(xs[i]))
  }

  /** A `Dict[str, List[str]]` field: an object whose values are all lists
      of strings, read in order. */
  function StringLists(j: Json): (r: Option<seq<(string, seq<string>)>>)
    ensures r.Some? <==> j.JObj? && forall i :: 0 <= i < |j.fields| ==> StringList(j.fields[i].1).Some?
    ensures r.Some? ==> |r.value| == |j.fields| &&
                        forall i :: 0 <= i < |j.fields| ==> r.value[i].0 == j.fields[i].0 && Some(r.value[i].1) == StringList(j.fields[i].1)
  {
    if j.JObj? then StringListFields(j.fields) else None
  }

  function StringList(j: Json): Option<seq<string>> {
    if j.JArr? then AsStrings(j.items) else None
  }

  function StringListFields(fields: seq<(string, Json)>): (r: Option<seq<(string, seq<string>)>>)
    ensures r.Some? <==> forall i :: 0 <= i < |fields| ==> StringList(fields[i].1).Some?
    ensures r.Some? ==> |r.value| == |fields| &&
                        forall i :: 0 <= i < |fields| ==> r.value[i].0 == fields[i].0 && Some(r.value[i].1) == StringList(fields[i].1)
  {
    if |fields| == 0 then Some([])
    else match (StringList(fields[0].1), StringListFields(fields[1..]))
      case (Some(head), Some(rest)) => Some([(fields[0].0, head)] + rest)
      case (None, _) => None
      case (_, None) =>
        assert !StringList(fields[1..][0].1).Some? || exists i :: 1 <= i < |fields[1..]| && !StringList(fields[1..][i].1).Some?;
        None
  }

  /** The JSON form of a dict of string lists. */
  function StringListsJson(m: seq<(string, seq<string>)>): (r: Json)
    ensures r.JObj? && |r.fields| == |m|
    ensures forall i :: 0 <= i < |m| ==> r.fields[i] == (m[i].0, JArr(StringsJson(m[i].1)))
  {
    JObj(seq(|m|, i requires 0 <= i < |m| => (m[i].0, JArr(StringsJson(m[i].1)))))
  }

  lemma StringsRoundTrip(xs: seq<string>)
    ensures AsStrings(StringsJson(xs)) == Some(xs)
  {
    var r := AsStrings(StringsJson(xs));
    assert r.Some?;
    assert r.value == xs;
  }

  lemma StringListsRoundTrip(m: seq<(string, seq<string>)>)
    ensures StringLists(StringListsJson(m)) == Some(m)
  {
    var j := StringListsJson(m);
    forall i | 0 <= i < |m| ensures StringList(j.fields[i].1) == Some(m[i].1) {
      StringsRoundTrip(m[i].1);
    }
    var r := StringLists(j);
    assert r.Some?;
    assert forall i :: 0 <= i < |m| ==> r.value[i] == m[i];
    assert r.value == m;
  }

  function StringField(fields: seq<(string, Json)>, key: string, default: string): Option<string> {
    match Lookup(fields, key)
    case None => Some(default)
    case Some(v) => AsString(v)
  }

  function StringsField(fields: seq<(string, Json)>, key: string): Option<seq<string>> {
    match Lookup(fields, key)
    case None => Some([])
    case Some(v) => if v.JArr? then AsStrings(v.items) else None
  }

  // ---------------------------------------------------------------------
  // Status effects

  datatype StatusEffect = StatusEffect(
    name: string, description: string, effects: seq<string>,
    kind: string, durationType: string, defaultDuration: Option<int>)

  /** The first entry whose key equals `name` ignoring ASCII case. */
  function FindCaseless(data: seq<(string, Json)>, name: string): (r: Option<nat>)
    ensures r.Some? ==> r.value < |data| && Lower(data[r.value].0) == Lower(name)
    ensures r.Some? ==> forall j :: 0 <= j < r.value ==> Lower(data[j].0) != Lower(name)
    ensures r.None? <==> forall j :: 0 <= j < |data| ==> Lower(data[j].0) != Lower(name)
  {
    if |data| == 0 then None
    else if Lower(data[0].0) == Lower(name) then Some(0)
    else match FindCaseless(data[1..], name)
      case None => None
      case Some(k) => Some(k + 1)
  }

  /** A `default_duration` value `Optional[int]` accepts: absent, null or an integer. */
  predicate DurationFits(d: Option<Json>) {
    d.None? || d.value.JNull? || d.value.JInt?
  }

  /** A status entry whose fields fit the response model, `key` being the
      name it is reported under when it has no "name". */
  predicate StatusFits(fields: seq<(string, Json)>, key: string) {
    && StringField(fields, "name", key).Some?
    && StringField(fields, "description", "No description.").Some?
    && StringsField(fields, "effects").Some?
    && StringField(fields, "type", "unknown").Some?
    && StringField(fields, "duration_type", "condition").Some?
    && DurationFits(Lookup(fields, "default_duration"))
  }

  /** `get_status_effect`: a case-insensitive first match whose value is a
      non-empty object; fields default to the found key, "No description.",
      [], "unknown", "condition" and no default duration. Data that does not
      fit the response model raises. */
  function StatusEffectOf(name: string, data: seq<(string, Json)>): (r: Result<StatusEffect>)
    ensures FindCaseless(data, name).None? ==> r.Err?
    ensures r.Ok? <==>
              && FindCaseless(data, name).Some?
              && var k := FindCaseless(data, name).value;
              && data[k].1.JObj? && |data[k].1.fields| > 0
              && StatusFits(data[k].1.fields, data[k].0)
    ensures r.Ok? ==>
              var k := FindCaseless(data, name).value;
              var f := data[k].1.fields;
              && StringField(f, "name", data[k].0) == Some(r.value.name)
              && StringField(f, "description", "No description.") == Some(r.value.description)
              && StringsField(f, "effects") == Some(r.value.effects)
              && StringField(f, "type", "unknown") == Some(r.value.kind)
              && StringField(f, "duration_type", "condition") == Some(r.value.durationType)
              && (Lookup(f, "default_duration").Some? && Lookup(f, "default_duration").value.JInt?
                  ==> r.value.defaultDuration == Some(Lookup(f, "default_duration").value.n))
              && (Lookup(f, "default_duration").None? || Lookup(f, "default_duration").value.JNull?
                  ==> r.value.defaultDuration.None?)
  {
    match FindCaseless(data, name)
    case None => Err("Status effect not found")
    case Some(k) =>
      var entry := data[k];
      if !Truthy(entry.1) then Err("Status effect not found")
      else if !entry.1.JObj? then Err("Data structure mismatch for status")
      else
        var f := entry.1.fields;
        var nm := StringField(f, "name", entry.0);
        var desc := StringField(f, "description", "No description.");
        var effects := StringsField(f, "effects");
        var kind := StringField(f, "type", "unknown");
        var dt := StringField(f, "duration_type", "condition");
        var dd := Lookup(f, "default_duration");
        if nm.None? || desc.None? || effects.None? || kind.None? || dt.None? then
          Err("Data structure mismatch for status")
        else if dd.Some? && !(dd.value.JNull? || dd.value.JInt?) then
          Err("Data structure mismatch for status")
        else
          Ok(StatusEffect(nm.value, desc.value, effects.value, kind.value, dt.value,
                          if dd.Some? && dd.value.JInt? then Some(dd.value.n) else None))
  }

  /** A status effect's JSON form, with every field written out. */
  function StatusJson(e: StatusEffect): Json {
    JObj([("name", JStr(e.name)), ("description", JStr(e.description)),
          ("effects", JArr(StringsJson(e.effects))), ("type", JStr(e.kind)),
          ("duration_type", JStr(e.durationType)),
          ("default_duration", if e.defaultDuration.Some? then JInt(e.defaultDuration.value) else JNull)])
  }

  /** A stored status effect is read back as it was written, whatever the
      case of the name it is looked up by. */
  lemma StatusEffectRoundTrip(name: string, key: string, e: StatusEffect, rest: seq<(string, Json)>)
    requires Lower(key) == Lower(name)
    ensures StatusEffectOf(name, [(key, StatusJson(e))] + rest) == Ok(e)
  {
    var data := [(key, StatusJson(e))] + rest;
    assert data[0] == (key, StatusJson(e));
    assert FindCaseless(data, name) == Some(0);
    var f := StatusJson(e).fields;
    StatusJsonFields(e);
    StringsRoundTrip(e.effects);
    assert StringField(f, "name", key) == Some(e.name);
    assert StringField(f, "description", "No description.") == Some(e.description);
    assert StringsField(f, "effects") == Some(e.effects);
    assert StringField(f, "type", "unknown") == Some(e.kind);
    assert StringField(f, "duration_type", "condition") == Some(e.durationType);
    assert StatusFits(f, key);
    var r := StatusEffectOf(name, data);
    assert r.Ok?;
    assert r.value.defaultDuration == e.defaultDuration;
  }

  lemma StatusJsonFields(e: StatusEffect)
    ensures var f := StatusJson(e).fields;
            && Lookup(f, "name") == Some(JStr(e.name))
            && Lookup(f, "description") == Some(JStr(e.description))
            && Lookup(f, "effects") == Some(JArr(StringsJson(e.effects)))
            && Lookup(f, "type") == Some(JStr(e.kind))
            && Lookup(f, "duration_type") == Some(JStr(e.durationType))
            && Lookup(f, "default_duration") == Some(if e.defaultDuration.Some? then JInt(e.defaultDuration.value) else JNull)
  {
    var f := StatusJson(e).fields;
    StatusKeysDistinct();
    forall i | 0 <= i < |f| ensures Lookup(f, f[i].0) == Some(f[i].1) {
      LookupAt(f, i);
    }
    assert f[0].0 == "name" && f[1].0 == "description" && f[2].0 == "effects";
    assert f[3].0 == "type" && f[4].0 == "duration_type" && f[5].0 == "default_duration";
  }

  /** The six keys of a status entry are pairwise distinct. */
  lemma StatusKeysDistinct()
    ensures var keys := ["name", "description", "effects", "type", "duration_type", "default_duration"];
            forall i, j :: 0 <= i < j < |keys| ==> keys[i] != keys[j]
  {
    var keys := ["name", "description", "effects", "type", "duration_type", "default_duration"];
    forall i, j | 0 <= i < j < |keys| ensures keys[i] != keys[j] {
      assert keys[i][0] != keys[j][0] || keys[i][1] != keys[j][1] || |keys[i]| != |keys[j]|;
    }
  }

  /** The lookup ignores case: a key that matches the query up to case is
      found, and without a "name" field it is reported in its own spelling. */
  lemma StatusEffectIgnoresCase(name: string, key: string, kind: string, rest: seq<(string, Json)>)
    requires Lower(key) == Lower(name)
    ensures StatusEffectOf(name, [(key, JObj([("type", JStr(kind))]))] + rest)
            == Ok(StatusEffect(key, "No description.", [], kind, "condition", None))
  {
    var f := [("type", JStr(kind))];
    var data := [(key, JObj(f))] + rest;
    assert data[0] == (key, JObj(f));
    assert FindCaseless(data, name) == Some(0);
    OnlyType(kind);
    assert StringField(f, "name", key) == Some(key);
    assert StringField(f, "type", "unknown") == Some(kind);
    assert StringsField(f, "effects") == Some([]);
  }

  lemma OnlyType(kind: string)
    ensures var f := [("type", JStr(kind))];
            && Lookup(f, "type") == Some(JStr(kind))
            && Lookup(f, "name") == None && Lookup(f, "description") == None && Lookup(f, "effects") == None
            && Lookup(f, "duration_type") == None && Lookup(f, "default_duration") == None
  {
    assert "type" != "name" by { assert "type"[0] != "name"[0]; }
  }

  /** A matching key whose value is empty counts as not found. */
  lemma StatusEffectEmptyEntry(name: string, rest: seq<(string, Json)>)
    ensures StatusEffectOf(name, [(name, JObj([]))] + rest).Err?
  {
    assert FindCaseless([(name, JObj([]))] + rest, name) == Some(0);
  }

  // ---------------------------------------------------------------------
  // Injuries

  datatype InjuryEffect = InjuryEffect(severityName: string, effects: seq<string>)

  /** A value that is a non-empty object: truthy, and with a `.get`. */
  predicate TruthyObject(v: Option<Json>) {
    v.Some? && v.value.JObj? && |v.value.fields| > 0
  }

  /** The entry reached by location, sub-location and `str(severity)`, when
      each step is a non-empty object. */
  function InjuryEntry(location: string, subLocation: string, severity: int,
                       data: seq<(string, Json)>): Option<seq<(string, Json)>> {
    var loc := Lookup(data, location);
    if !TruthyObject(loc) then None
    else
      var sub := Lookup(loc.value.fields, subLocation);
      if !TruthyObject(sub) then None
      else
        var sev := Lookup(sub.value.fields, IntToString(severity));
        if !TruthyObject(sev) then None else Some(sev.value.fields)
  }

  /** `get_injury_effects`: location, then sub-location, then `str(severity)`,
      each of which must be present and truthy; the severity's name
      (default "Unknown") and effects (default []) must fit the response. */
  function InjuryEffectsOf(location: string, subLocation: string, severity: int,
                           data: seq<(string, Json)>): (r: Result<InjuryEffect>)
    ensures !HasKey(data, location) ==> r.Err?
    ensures r.Ok? <==>
              && InjuryEntry(location, subLocation, severity, data).Some?
              && var sev := InjuryEntry(location, subLocation, severity, data).value;
              && StringField(sev, "name", "Unknown").Some?
              && StringsField(sev, "effects").Some?
    ensures r.Ok? ==>
              var sev := InjuryEntry(location, subLocation, severity, data).value;
              && Some(r.value.severityName) == StringField(sev, "name", "Unknown")
              && Some(r.value.effects) == StringsField(sev, "effects")
  {
    var loc := Lookup(data, location);
    if loc.None? || !Truthy(loc.value) then Err("Invalid injury location")
    else if !loc.value.JObj? then Err("location data has no .get")
    else
      var sub := Lookup(loc.value.fields, subLocation);
      if sub.None? || !Truthy(sub.value) then Err("Invalid sub-location")
      else if !sub.value.JObj? then Err("sub-location data has no .get")
      else
        var sev := Lookup(sub.value.fields, IntToString(severity));
        if sev.None? || !Truthy(sev.value) then Err("Invalid severity")
        else if !sev.value.JObj? then Err("severity data has no .get")
        else
          var nm := StringField(sev.value.fields, "name", "Unknown");
          var effects := StringsField(sev.value.fields, "effects");
          if nm.None? || effects.None? then Err("Data structure mismatch for injury")
          else Ok(InjuryEffect(nm.value, effects.value))
  }

  /** An injury's JSON form, nested under its location, sub-location and
      severity key. */
  function InjuryJson(location: string, subLocation: string, severity: int, e: InjuryEffect): seq<(string, Json)> {
    [(location, JObj([(subLocation, JObj([(IntToString(severity),
       JObj([("name", JStr(e.severityName)), ("effects", JArr(StringsJson(e.effects)))]))]))]))]
  }

  /** A stored injury is read back as it was written. */
  lemma InjuryRoundTrip(location: string, subLocation: string, severity: int, e: InjuryEffect,
                        rest: seq<(string, Json)>)
    ensures InjuryEffectsOf(location, subLocation, severity, InjuryJson(location, subLocation, severity, e) + rest)
            == Ok(e)
  {
    var f := [("name", JStr(e.severityName)), ("effects", JArr(StringsJson(e.effects)))];
    assert "name" != "effects" by { assert |"name"| != |"effects"|; }
    assert Lookup(f, "effects") == Some(JArr(StringsJson(e.effects)));
    StringsRoundTrip(e.effects);
  }

  /** Severity 3 is stored under the key "3". */
  lemma InjurySeverityKey()
    ensures InjuryEffectsOf("Head", "Skull", 3,
              [("Head", JObj([("Skull", JObj([("3", JObj([("name", JStr("Fracture"))]))]))]))])
            == Ok(InjuryEffect("Fracture", []))
  {
    var sev := [("name", JStr("Fracture"))];
    assert IntToString(3) == "3";
    assert Lookup([("3", JObj(sev))], "3") == Some(JObj(sev));
    assert StringField(sev, "name", "Unknown") == Some("Fracture");
    assert "name" != "effects" by { assert |"name"| != |"effects"|; }
    assert StringsField(sev, "effects") == Some([]);
  }
}

/** The encounter generator (AI-TTRPG/encounter_generator/app/core.py):
    finding an encounter whose tags cover the requested ones, and shaping
    the chosen encounter into a combat or a skill-challenge response.

    The loaded encounter lists are parameters; `random.choice` is an index
    `pick` taken modulo the number of matches. */
module EncounterGenerator {
  import opened Wrappers
  import opened Text
  import opened Json

  /** An encounter matches when its lowercased tags include every requested tag. */
  predicate Covers(requested: set<string>, encounter: Json) {
    TagSet(encounter, "tags").Ok? && requested <= TagSet(encounter, "tags").value
  }

  /** The matching encounters in list order. An encounter that is not a dict,
      or whose tags are not strings, raises. */
  function Matches(requested: set<string>, encounters: seq<Json>): (r: Result<seq<Json>>)
    ensures r.Ok? <==> forall i :: 0 <= i < |encounters| ==> TagSet(encounters[i], "tags").Ok?
    ensures r.Ok? ==> forall e :: e in r.value <==> e in encounters && Covers(requested, e)
    ensures r.Ok? ==> |r.value| <= |encounters|
  {
    if |encounters| == 0 then Ok([])
    else
      var head, tail := encounters[0], encounters[1..];
      assert encounters == [head] + tail;
      match TagSet(head, "tags")
      case Err(e) => Err(e)
      case Ok(tags) =>
        match Matches(requested, tail)
        case Err(e) => Err(e)
        case Ok(rest) => Ok(if requested <= tags then [head] + rest else rest)
  }

  /** `find_matching_encounter` over the combat list followed by the skill list. */
  function FindMatching(requested: seq<string>, combat: seq<Json>, skill: seq<Json>, pick: nat): (r: Result<Option<Json>>)
    ensures r.Ok? ==> (r.value.None? <==> forall e :: e in combat + skill ==> !Covers(LowerNames(requested), e))
    ensures r.Ok? && r.value.Some? ==> r.value.value in combat + skill && Covers(LowerNames(requested), r.value.value)
  {
    var matches :- Matches(LowerNames(requested), combat + skill);
    if |matches| == 0 then Ok(None)
    else
      assert matches[0] in matches;
      Ok(Some(matches[pick % |matches|]))
  }

  /** With nothing requested, every well-formed encounter matches. */
  lemma NoTagsMatchAll(combat: seq<Json>, skill: seq<Json>, pick: nat)
    requires |combat + skill| > 0
    requires FindMatching([], combat, skill, pick).Ok?
    ensures FindMatching([], combat, skill, pick).value.Some?
  {
    var e := (combat + skill)[0];
    assert e in combat + skill;
    assert LowerNames([]) == {};
  }

  /** Matching ignores case: a request and its lowercase form find the same. */
  lemma MatchingIgnoresCase(requested: seq<string>, combat: seq<Json>, skill: seq<Json>, pick: nat)
    ensures FindMatching(requested, combat, skill, pick) == FindMatching(LowerAll(requested), combat, skill, pick)
  {
    assert LowerNames(requested) == LowerNames(LowerAll(requested)) by {
      forall l | l in LowerNames(LowerAll(requested)) ensures l in LowerNames(requested) {
        var t :| t in LowerAll(requested) && Lower(t) == l;
        var i :| 0 <= i < |requested| && LowerAll(requested)[i] == t;
        LowerIdempotent(requested[i]);
      }
      forall l | l in LowerNames(requested) ensures l in LowerNames(LowerAll(requested)) {
        var t :| t in requested && Lower(t) == l;
        var i :| 0 <= i < |requested| && requested[i] == t;
        LowerIdempotent(t);
        assert LowerAll(requested)[i] == Lower(t);
      }
    }
  }

  function LowerAll(tags: seq<string>): (r: seq<string>)
    ensures |r| == |tags|
    ensures forall i :: 0 <= i < |tags| ==> r[i] == Lower(tags[i])
  {
    seq(|tags|, i requires 0 <= i < |tags| => Lower(tags[i]))
  }

  // ---------------------------------------------------------------------
  // The response

  /** The response models, carrying the encounter's values as given. */
  datatype EncounterResponse =
    | CombatEncounter(id: Json, description: Json, npcsToSpawn: Json)
    | SkillEncounter(id: Json, title: Json, description: Json, successThreshold: Json, stages: Json)

  /** The encounter type: a 'skill' tag wins, then a 'combat' tag, then the
      `type` field, "combat" when absent. Tags that support no `in` raise. */
  function EncounterType(data: seq<(string, Json)>): (r: Result<Json>)
    ensures var tags := Lookup(data, "tags").GetOr(JArr([]));
            && (r.Ok? <==> tags.JObj? || tags.JArr? || tags.JStr?)
            && (r.Ok? && PyIn(tags, "skill") == Ok(true) ==> r.value == JStr("skill"))
            && (r.Ok? && PyIn(tags, "skill") == Ok(false) && PyIn(tags, "combat") == Ok(true) ==> r.value == JStr("combat"))
            && (r.Ok? && PyIn(tags, "skill") == Ok(false) && PyIn(tags, "combat") == Ok(false)
                ==> r.value == Lookup(data, "type").GetOr(JStr("combat")))
  {
    var tags := Lookup(data, "tags").GetOr(JArr([]));
    if !(tags.JObj? || tags.JArr? || tags.JStr?) then Err("TypeError: argument is not iterable")
    else if PyIn(tags, "skill").value then Ok(JStr("skill"))
    else if PyIn(tags, "combat").value then Ok(JStr("combat"))
    else Ok(Lookup(data, "type").GetOr(JStr("combat")))
  }

  /** `build_encounter_response`: a combat encounter (no NPCs when absent) or
      a skill challenge (threshold 1 and no stages when absent); any other
      type is a ValueError. */
  function BuildResponse(data: Json): (r: Result<EncounterResponse>)
    ensures r.Ok? ==> data.JObj? && EncounterType(data.fields).Ok?
    ensures r.Ok? && r.value.CombatEncounter? <==> r.Ok? && EncounterType(data.fields).value == JStr("combat")
    ensures data.JObj? && EncounterType(data.fields).Ok?
              && EncounterType(data.fields).value != JStr("combat") && EncounterType(data.fields).value != JStr("skill")
            ==> r.Err?
    ensures r.Ok? && r.value.SkillEncounter? ==> r.value.successThreshold == Lookup(data.fields, "success_threshold").GetOr(JInt(1))
  {
    var fields :- Fields(data);
    var kind :- EncounterType(fields);
    if kind == JStr("combat") then
      Ok(CombatEncounter(Lookup(fields, "id").GetOr(JNull), Lookup(fields, "description").GetOr(JNull),
                         Lookup(fields, "npcs_to_spawn").GetOr(JArr([]))))
    else if kind == JStr("skill") then
      Ok(SkillEncounter(Lookup(fields, "id").GetOr(JNull), Lookup(fields, "title").GetOr(JNull),
                        Lookup(fields, "description").GetOr(JNull),
                        Lookup(fields, "success_threshold").GetOr(JInt(1)), Lookup(fields, "stages").GetOr(JArr([]))))
    else Err("ValueError: Unknown encounter type")
  }

  /** A 'skill' tag makes a skill challenge whatever the type field says. */
  lemma SkillTagWins(fields: seq<(string, Json)>, tags: seq<Json>)
    requires Lookup(fields, "tags") == Some(JArr(tags)) && JStr("skill") in tags
    ensures BuildResponse(JObj(fields)).Ok? && BuildResponse(JObj(fields)).value.SkillEncounter?
  {
  }

  /** Without type tags an encounter of any type other than combat or skill
      is refused, and one without a type is a combat encounter. */
  lemma TypeFieldDecides(fields: seq<(string, Json)>)
    requires !HasKey(fields, "tags")
    ensures Lookup(fields, "type") == Some(JStr("social")) ==> BuildResponse(JObj(fields)).Err?
    ensures !HasKey(fields, "type") ==> BuildResponse(JObj(fields)).Ok? && BuildResponse(JObj(fields)).value.CombatEncounter?
  {
    assert JStr("skill") !in [] && JStr("combat") !in [];
  }
}

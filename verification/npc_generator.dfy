/** The NPC generator (AI-TTRPG/npc_generator/app/core.py): an NPC template
    built from the generation rules — the kingdom's base stats, the style
    modifiers applied to them, the base hit points, the suggested ability,
    the behaviour tags and the loot table reference.

    The loaded rules are a parameter. The generated id (which draws a random
    number), the display name and the description are text only and are not
    part of this model; neither is the floating-point difficulty multiplier. */
module NpcGenerator {
  import opened Wrappers
  import opened Text
  import opened Json

  datatype NpcRequest = NpcRequest(
    kingdom: string, offenseStyle: string, defenseStyle: string, difficulty: string,
    behavior: string, abilityFocus: Option<string>)

  /** The template; `baseHp` is the hit points before the difficulty scaling. */
  datatype NpcTemplate = NpcTemplate(
    stats: seq<(string, Json)>, skills: seq<(string, Json)>, abilities: seq<Json>,
    baseHp: int, behaviorTags: Json, lootTableRef: string)

  function Max(a: int, b: int): int {
    if a < b then b else a
  }

  // ---------------------------------------------------------------------
  // Base stats and style modifiers

  /** The kingdom's base stats, falling back to the mammal stats for an
      unknown kingdom; anything that is not a dict cannot serve as stats. */
  function BaseStats(rules: seq<(string, Json)>, kingdom: string): (r: Result<seq<(string, Json)>>)
    ensures var table := Lookup(rules, "base_stats_by_kingdom").GetOr(JObj([]));
            r.Ok? ==>
              table.JObj?
              && JObj(r.value) == Lookup(table.fields, Lower(kingdom)).GetOr(Lookup(table.fields, "mammal").GetOr(JNull))
  {
    var table :- Fields(Lookup(rules, "base_stats_by_kingdom").GetOr(JObj([])));
    var fallback := Lookup(table, "mammal").GetOr(JNull);
    Fields(Lookup(table, Lower(kingdom)).GetOr(fallback))
  }

  /** `{**a, **b}`: the fields of `b` written over those of `a` in order. */
  function Update(a: seq<(string, Json)>, b: seq<(string, Json)>): (r: seq<(string, Json)>)
    decreases |b|
  {
    if |b| == 0 then a else Update(Put(a, b[0].0, b[0].1), b[1..])
  }

  /** In the merged modifiers a defense value overrides an offense value for
      the same stat, and every other stat keeps the value it had. */
  lemma {:induction false} DefenseOverridesOffense(offense: seq<(string, Json)>, defense: seq<(string, Json)>, stat: string)
    requires DistinctKeys(defense)
    decreases |defense|
    ensures Lookup(Update(offense, defense), stat)
            == if HasKey(defense, stat) then Lookup(defense, stat) else Lookup(offense, stat)
  {
    if |defense| > 0 {
      var tail := defense[1..];
      assert DistinctKeys(tail) by {
        forall i, j | 0 <= i < j < |tail| ensures tail[i].0 != tail[j].0 {
          assert tail[i] == defense[i + 1] && tail[j] == defense[j + 1];
        }
      }
      DefenseOverridesOffense(Put(offense, defense[0].0, defense[0].1), tail, stat);
      if HasKey(tail, stat) {
        var i :| 0 <= i < |tail| && tail[i].0 == stat;
        assert defense[i + 1].0 == stat;
        assert defense[0].0 != stat;
      } else if HasKey(defense, stat) {
        var i :| 0 <= i < |defense| && defense[i].0 == stat;
        if i > 0 {
          assert tail[i - 1].0 == stat;
        }
      }
    }
  }

  /** `int(mod_str)`: a numeric string or an int is a modifier; other text
      is the ValueError the loop skips (None); any other value is a
      TypeError, which the loop does not catch. */
  function Modifier(j: Json): (r: Result<Option<int>>)
    ensures r.Ok? <==> j.JInt? || j.JBool? || j.JStr?
    ensures j.JStr? ==> r == Ok(ParseInt(j.s))
    ensures r.Ok? && !j.JStr? ==> r == Ok(Number(j))
  {
    match j
    case JStr(s) => Ok(ParseInt(s))
    case JInt(n) => Ok(Some(n))
    case JBool(b) => Ok(Some(if b then 1 else 0))
    case _ => Err("TypeError: int() argument must be a string or a number")
  }

  /** What a stat becomes under a modifier: a modifier `int()` cannot
      parse leaves it as it was; a parsed one is added, the sum clamped to
      at least 1, which needs a numeric stat. */
  predicate Adjusted(before: Json, after: Option<Json>, mod: Json) {
    && Modifier(mod).Ok?
    && (Modifier(mod).value.None? ==> after == Some(before))
    && (Modifier(mod).value.Some? ==>
          Number(before).Some? && after == Some(JInt(Max(1, Number(before).value + Modifier(mod).value.value))))
  }

  /** One modifier applied: ignored for a stat the NPC lacks, skipped when it
      does not parse, otherwise added and the sum clamped to at least 1. */
  function Step(stats: seq<(string, Json)>, stat: string, mod: Json): (r: Result<seq<(string, Json)>>)
    ensures r.Ok? ==> Keys(r.value) == Keys(stats)
    ensures r.Ok? ==> forall k :: k != stat ==> Lookup(r.value, k) == Lookup(stats, k)
    ensures !HasKey(stats, stat) || Modifier(mod) == Ok(None) ==> r == Ok(stats)
    ensures r.Ok? && HasKey(stats, stat) ==> Adjusted(Lookup(stats, stat).value, Lookup(r.value, stat), mod)
  {
    if !HasKey(stats, stat) then Ok(stats)
    else
      var before := Lookup(stats, stat).value;
      match Modifier(mod)
      case Err(e) => Err(e)
      case Ok(None) => Ok(stats)
      case Ok(Some(m)) =>
        match Number(before)
        case None => Err("TypeError: unsupported operand type(s) for +=")
        case Some(v) =>
          var after := JInt(Max(1, v + m));
          assert Adjusted(before, Some(after), mod);
          Ok(Put(stats, stat, after))
  }

  /** The style modifiers applied in order. The NPC keeps exactly its stats,
      and a stat no modifier names keeps its value. */
  function ApplyMods(stats: seq<(string, Json)>, mods: seq<(string, Json)>): (r: Result<seq<(string, Json)>>)
    ensures r.Ok? ==> Keys(r.value) == Keys(stats)
    ensures r.Ok? ==> forall k :: !HasKey(mods, k) ==> Lookup(r.value, k) == Lookup(stats, k)
    decreases |mods|
  {
    if |mods| == 0 then Ok(stats)
    else
      assert forall k :: HasKey(mods[1..], k) ==> HasKey(mods, k) by {
        forall k | HasKey(mods[1..], k) ensures HasKey(mods, k) {
          var i :| 0 <= i < |mods[1..]| && mods[1..][i].0 == k;
          assert mods[i + 1].0 == k;
        }
      }
      assert HasKey(mods, mods[0].0) by { assert mods[0].0 == mods[0].0; }
      match Step(stats, mods[0].0, mods[0].1)
      case Err(e) => Err(e)
      case Ok(next) => ApplyMods(next, mods[1..])
  }

  /** What one stat becomes under its (single) modifier: skipped when the
      modifier is not a number, otherwise the sum clamped to at least 1. */
  lemma {:induction false} StatAfterMods(stats: seq<(string, Json)>, mods: seq<(string, Json)>, stat: string)
    requires DistinctKeys(mods) && HasKey(mods, stat) && HasKey(stats, stat)
    requires ApplyMods(stats, mods).Ok?
    decreases |mods|
    ensures Adjusted(Lookup(stats, stat).value, Lookup(ApplyMods(stats, mods).value, stat), Lookup(mods, stat).value)
  {
    var tail := mods[1..];
    var next := Step(stats, mods[0].0, mods[0].1).value;
    assert ApplyMods(stats, mods) == ApplyMods(next, tail);
    DistinctTail(mods);
    if mods[0].0 == stat {
      assert Lookup(mods, stat) == Some(mods[0].1);
      assert Lookup(ApplyMods(next, tail).value, stat) == Lookup(next, stat);
    } else {
      assert Lookup(next, stat) == Lookup(stats, stat);
      StatAfterMods(next, tail, stat);
    }
  }

  /** Dropping the first modifier keeps the keys distinct, loses exactly
      the first key, and leaves every other key's modifier as it was. */
  lemma DistinctTail(mods: seq<(string, Json)>)
    requires DistinctKeys(mods) && |mods| > 0
    ensures DistinctKeys(mods[1..]) && !HasKey(mods[1..], mods[0].0)
    ensures forall k :: k != mods[0].0 ==> (HasKey(mods[1..], k) <==> HasKey(mods, k)) && Lookup(mods[1..], k) == Lookup(mods, k)
  {
    var tail := mods[1..];
    forall i | 0 <= i < |tail| ensures tail[i].0 != mods[0].0 {
      assert tail[i] == mods[i + 1];
    }
    forall i, j | 0 <= i < j < |tail| ensures tail[i].0 != tail[j].0 {
      assert tail[i] == mods[i + 1] && tail[j] == mods[j + 1];
    }
    forall k | k != mods[0].0 && HasKey(mods, k) ensures HasKey(tail, k) {
      var i :| 0 <= i < |mods| && mods[i].0 == k;
      assert tail[i - 1].0 == k;
    }
    forall k | HasKey(tail, k) ensures HasKey(mods, k) {
      var i :| 0 <= i < |tail| && tail[i].0 == k;
      assert mods[i + 1].0 == k;
    }
  }

  /** A stat a parsable modifier names is at least 1 afterwards. */
  lemma ModifiedStatAtLeastOne(stats: seq<(string, Json)>, mods: seq<(string, Json)>, stat: string, m: int)
    requires DistinctKeys(mods) && HasKey(stats, stat)
    requires Lookup(mods, stat) == Some(JStr(IntToString(m)))
    requires ApplyMods(stats, mods).Ok?
    ensures Lookup(ApplyMods(stats, mods).value, stat).Some?
    ensures var v := Lookup(ApplyMods(stats, mods).value, stat).value; v.JInt? && v.n >= 1
  {
    IntToStringRoundTrip(m);
    assert Modifier(JStr(IntToString(m))) == Ok(Some(m));
    StatAfterMods(stats, mods, stat);
  }

  // ---------------------------------------------------------------------
  // Hit points, abilities, the template

  /** Endurance plus twice Vitality, each 10 when the NPC lacks it. */
  function BaseHp(stats: seq<(string, Json)>): (r: Result<int>)
    ensures !HasKey(stats, "Endurance") && !HasKey(stats, "Vitality") ==> r == Ok(30)
    ensures Lookup(stats, "Endurance").Some? && Lookup(stats, "Endurance").value.JInt?
            && Lookup(stats, "Vitality").Some? && Lookup(stats, "Vitality").value.JInt?
            ==> r == Ok(Lookup(stats, "Endurance").value.n + 2 * Lookup(stats, "Vitality").value.n)
  {
    match (Number(Lookup(stats, "Endurance").GetOr(JInt(10))), Number(Lookup(stats, "Vitality").GetOr(JInt(10))))
    case (Some(e), Some(v)) => Ok(e + v * 2)
    case _ => Err("TypeError: unsupported operand type(s) for +")
  }

  /** The first ability suggested for a non-empty focus, when the focus has
      suggestions; a focus the suggestions do not list gives none. */
  function Abilities(suggestions: Json, focus: Option<string>): (r: Result<seq<Json>>)
    ensures r.Ok? ==> |r.value| <= 1
    ensures focus.None? || focus.value == [] ==> r == Ok([])
    ensures focus.Some? && suggestions.JObj? && !HasKey(suggestions.fields, focus.value) ==> r == Ok([])
    ensures focus.Some? && focus.value != [] && suggestions.JObj? && Lookup(suggestions.fields, focus.value).Some?
              && Lookup(suggestions.fields, focus.value).value.JArr?
            ==> var items := Lookup(suggestions.fields, focus.value).value.items;
                r == Ok(if items == [] then [] else [items[0]])
  {
    if focus.None? || focus.value == [] then Ok([])
    else
      match PyIn(suggestions, focus.value)
      case Err(e) => Err(e)
      case Ok(false) => Ok([])
      case Ok(true) =>
        if !suggestions.JObj? then Err("TypeError: indices must be integers")
        else
          var suggested := Lookup(suggestions.fields, focus.value).value;
          if !Truthy(suggested) then Ok([])
          else match suggested
            case JArr(items) => Ok([items[0]])
            case JStr(s) => Ok([JStr([s[0]])])
            case JObj(_) => Err("KeyError: 0")
            case _ => Err("TypeError: object is not subscriptable")
  }

  /** `generate_npc_template` without the text fields and the multiplier. */
  function GenerateNpc(rules: seq<(string, Json)>, request: NpcRequest): (r: Result<NpcTemplate>)
    ensures r.Ok? ==> BaseStats(rules, request.kingdom).Ok?
                      && Keys(r.value.stats) == Keys(BaseStats(rules, request.kingdom).value)
    ensures r.Ok? ==> r.value.skills == [("Survival", JInt(1))] && |r.value.abilities| <= 1
    ensures r.Ok? ==> r.value.lootTableRef == request.kingdom + "_" + request.difficulty + "_loot"
    ensures r.Ok? ==> BaseHp(r.value.stats) == Ok(r.value.baseHp)
  {
    var base :- BaseStats(rules, request.kingdom);
    var styles :- Fields(Lookup(rules, "stat_modifiers_by_style").GetOr(JObj([])));
    var offense :- PyGet(Lookup(styles, "offense").GetOr(JObj([])), Lower(request.offenseStyle), JObj([]));
    var defense :- PyGet(Lookup(styles, "defense").GetOr(JObj([])), Lower(request.defenseStyle), JObj([]));
    var offenseMods :- Fields(offense);
    var defenseMods :- Fields(defense);
    var stats :- ApplyMods(base, Update(offenseMods, defenseMods));
    var hp :- BaseHp(stats);
    var abilities :- Abilities(Lookup(rules, "ability_suggestions").GetOr(JObj([])), request.abilityFocus);
    var behaviorMap := Lookup(rules, "behavior_map").GetOr(JObj([]));
    var tags :- PyGet(behaviorMap, Lower(request.behavior), JArr([]));
    Ok(NpcTemplate(stats, [("Survival", JInt(1))], abilities, hp, tags, request.kingdom + "_" + request.difficulty + "_loot"))
  }

  /** A kingdom the rules do not list gets the mammal stats. */
  lemma UnknownKingdomIsMammal(table: seq<(string, Json)>, kingdom: string, mammal: seq<(string, Json)>)
    requires !HasKey(table, Lower(kingdom)) && Lookup(table, "mammal") == Some(JObj(mammal))
    ensures BaseStats([("base_stats_by_kingdom", JObj(table))], kingdom) == Ok(mammal)
  {
  }

  /** With a list of suggestions for the focus, the NPC gets the first. */
  lemma FirstSuggestionOnly(focus: string, first: Json, more: seq<Json>)
    requires focus != []
    ensures Abilities(JObj([(focus, JArr([first] + more))]), Some(focus)) == Ok([first])
  {
    var entries := [(focus, JArr([first] + more))];
    assert entries[0].0 == focus;
    assert Lookup(entries, focus) == Some(JArr([first] + more));
  }
}

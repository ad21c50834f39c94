/** The story engine's combat handler
    (AI-TTRPG/story_engine/app/combat_handler.py): building the turn order
    when combat starts, reading stats, skills and equipment out of an actor's
    context, and the bookkeeping of an attack once the rules engine has
    answered.

    The calls to the other services are not modelled: what they return is
    given as parameters (the initiative each participant rolled, whether an
    NPC spawned, the attack outcome, each hit's final damage). */
module CombatHandler {
  import opened Wrappers
  import opened Text
  import opened Json
  import opened Rules

  // ---------------------------------------------------------------------
  // Initiative stats

  /** `_extract_initiative_stats`: the six initiative stats, by their
      capitalised names, each 10 when missing. */
  function InitiativeStatsOf(stats: map<string, int>): InitiativeStats {
    InitiativeStats(StatOr(stats, "Endurance", 10), StatOr(stats, "Agility", 10),
                    StatOr(stats, "Fortitude", 10), StatOr(stats, "Logic", 10),
                    StatOr(stats, "Intuition", 10), StatOr(stats, "Willpower", 10))
  }

  const InitiativeStatNames: set<string> := {"Endurance", "Agility", "Fortitude", "Logic", "Intuition", "Willpower"}

  /** Only the six initiative stats are read: any other entry is ignored. */
  lemma InitiativeStatsIgnoreOthers(stats: map<string, int>, k: string, v: int)
    requires k !in InitiativeStatNames
    ensures InitiativeStatsOf(stats[k := v]) == InitiativeStatsOf(stats)
  {
  }

  /** An actor without stats rolls a bare d20 for initiative. */
  lemma InitiativeWithoutStats(roll: int)
    ensures InitiativeStatsOf(map[]) == InitiativeStats(10, 10, 10, 10, 10, 10)
    ensures Initiative(InitiativeStatsOf(map[]), roll).total == roll
  {
    InitiativeOfAverage(roll);
  }

  // ---------------------------------------------------------------------
  // Turn order

  datatype ActorKind = Player | Npc

  datatype Participant = Participant(id: string, kind: ActorKind, initiative: int)

  /** A spawned NPC: its instance id (None when the world engine gave none)
      and the initiative total the rules engine returned (None when the
      call failed or the total was missing). */
  datatype NpcSpawn = NpcSpawn(id: Option<int>, initiative: Option<int>)

  /** The actor id of a spawned NPC, `f"npc_{npc_id}"`. */
  function NpcActorId(id: Option<int>): string {
    "npc_" + (if id.Some? then IntToString(id.value) else "None")
  }

  /** The participants in the order they were collected: the players in
      request order, then the NPCs that spawned, in spawn order. A failed
      initiative roll counts as 0; a failed spawn is skipped. */
  function Roster(players: seq<(string, Option<int>)>, spawns: seq<Option<NpcSpawn>>): (r: seq<Participant>)
    ensures |r| >= |players|
    ensures forall i :: 0 <= i < |players| ==> r[i] == Participant(players[i].0, Player, players[i].1.GetOr(0))
    ensures forall i :: |players| <= i < |r| ==> r[i].kind == Npc && "npc_" <= r[i].id
    ensures |r| == 0 <==> |players| == 0 && forall i :: 0 <= i < |spawns| ==> spawns[i].None?
  {
    PlayerParticipants(players) + NpcParticipants(spawns)
  }

  function PlayerParticipants(players: seq<(string, Option<int>)>): (r: seq<Participant>)
    ensures |r| == |players|
    ensures forall i :: 0 <= i < |players| ==> r[i] == Participant(players[i].0, Player, players[i].1.GetOr(0))
  {
    seq(|players|, i requires 0 <= i < |players| => Participant(players[i].0, Player, players[i].1.GetOr(0)))
  }

  function NpcParticipants(spawns: seq<Option<NpcSpawn>>): (r: seq<Participant>)
    ensures forall i :: 0 <= i < |r| ==> r[i].kind == Npc && "npc_" <= r[i].id
    ensures |r| == 0 <==> forall i :: 0 <= i < |spawns| ==> spawns[i].None?
  {
    if |spawns| == 0 then []
    else
      var here := match spawns[0]
        case None => []
        case Some(n) => [Participant(NpcActorId(n.id), Npc, n.initiative.GetOr(0))];
      var rest := NpcParticipants(spawns[1..]);
      assert forall i :: 1 <= i < |spawns| ==> spawns[i] == spawns[1..][i - 1];
      here + rest
  }

  predicate SortedByInitiative(s: seq<Participant>) {
    forall i, j :: 0 <= i < j < |s| ==> s[i].initiative >= s[j].initiative
  }

  /** The participants with initiative v, in their order in s. */
  function WithInitiative(s: seq<Participant>, v: int): (r: seq<Participant>)
    ensures forall i :: 0 <= i < |r| ==> r[i].initiative == v
  {
    if |s| == 0 then []
    else (if s[0].initiative == v then [s[0]] else []) + WithInitiative(s[1..], v)
  }

  lemma {:induction false} WithInitiativeConcat(a: seq<Participant>, b: seq<Participant>, v: int)
    ensures WithInitiative(a + b, v) == WithInitiative(a, v) + WithInitiative(b, v)
    decreases |a|
  {
    if |a| == 0 {
      assert a + b == b;
    } else {
      assert (a + b)[0] == a[0];
      assert (a + b)[1..] == a[1..] + b;
      WithInitiativeConcat(a[1..], b, v);
    }
  }

  lemma {:induction false} WithInitiativeNone(s: seq<Participant>, v: int)
    requires forall i :: 0 <= i < |s| ==> s[i].initiative < v
    ensures WithInitiative(s, v) == []
    decreases |s|
  {
    if |s| > 0 {
      WithInitiativeNone(s[1..], v);
    }
  }

  lemma {:induction false} WithInitiativeAll(s: seq<Participant>, v: int)
    requires forall i :: 0 <= i < |s| ==> s[i].initiative == v
    ensures WithInitiative(s, v) == s
    decreases |s|
  {
    if |s| > 0 {
      WithInitiativeAll(s[1..], v);
    }
  }

  /** Places x after every participant whose initiative is at least x's. */
  function Insert(x: Participant, s: seq<Participant>): seq<Participant> {
    if |s| == 0 then [x]
    else if s[0].initiative >= x.initiative then [s[0]] + Insert(x, s[1..])
    else [x] + s
  }

  lemma {:induction false} InsertPermutes(x: Participant, s: seq<Participant>)
    ensures multiset(Insert(x, s)) == multiset(s) + multiset{x}
    decreases |s|
  {
    if |s| > 0 {
      InsertPermutes(x, s[1..]);
      assert s == [s[0]] + s[1..];
    }
  }

  lemma {:induction false} InsertSorted(x: Participant, s: seq<Participant>)
    requires SortedByInitiative(s)
    ensures SortedByInitiative(Insert(x, s))
    decreases |s|
  {
    if |s| > 0 && s[0].initiative >= x.initiative {
      InsertSorted(x, s[1..]);
      assert forall k :: 0 <= k < |s[1..]| ==> s[1..][k] == s[k + 1];
      InsertBelow(x, s[1..], s[0].initiative);
      var r := Insert(x, s);
      var tail := Insert(x, s[1..]);
      assert r == [s[0]] + tail;
      forall i, j | 0 <= i < j < |r| ensures r[i].initiative >= r[j].initiative {
        assert r[j] == tail[j - 1];
        if i > 0 {
          assert r[i] == tail[i - 1];
        }
      }
    }
  }

  /** Inserting below a bound keeps every initiative below it. */
  lemma {:induction false} InsertBelow(x: Participant, s: seq<Participant>, bound: int)
    requires x.initiative <= bound
    requires forall k :: 0 <= k < |s| ==> s[k].initiative <= bound
    ensures forall j :: 0 <= j < |Insert(x, s)| ==> Insert(x, s)[j].initiative <= bound
    decreases |s|
  {
    if |s| > 0 && s[0].initiative >= x.initiative {
      assert forall k :: 0 <= k < |s[1..]| ==> s[1..][k] == s[k + 1];
      InsertBelow(x, s[1..], bound);
      var r := Insert(x, s);
      var tail := Insert(x, s[1..]);
      assert r == [s[0]] + tail;
      forall j | 0 < j < |r| ensures r[j].initiative <= bound {
        assert r[j] == tail[j - 1];
      }
    }
  }

  lemma {:induction false} InsertFilter(x: Participant, s: seq<Participant>, v: int)
    requires SortedByInitiative(s)
    ensures WithInitiative(Insert(x, s), v) == WithInitiative(s, v) + (if x.initiative == v then [x] else [])
    decreases |s|
  {
    if |s| == 0 {
    } else if s[0].initiative >= x.initiative {
      SortedTail(s);
      InsertFilter(x, s[1..], v);
      InsertBehind(x, s, v);
    } else {
      InsertFront(x, s, v);
    }
  }

  /** Inserting below the current head keeps the head first. */
  lemma InsertBehind(x: Participant, s: seq<Participant>, v: int)
    requires |s| > 0 && s[0].initiative >= x.initiative
    requires WithInitiative(Insert(x, s[1..]), v) == WithInitiative(s[1..], v) + (if x.initiative == v then [x] else [])
    ensures WithInitiative(Insert(x, s), v) == WithInitiative(s, v) + (if x.initiative == v then [x] else [])
  {
    assert Insert(x, s) == [s[0]] + Insert(x, s[1..]);
    assert s == [s[0]] + s[1..];
    WithInitiativeConcat([s[0]], Insert(x, s[1..]), v);
    WithInitiativeConcat([s[0]], s[1..], v);
    var head := WithInitiative([s[0]], v);
    var added := if x.initiative == v then [x] else [];
    assert WithInitiative(Insert(x, s), v) == head + (WithInitiative(s[1..], v) + added);
    assert WithInitiative(s, v) == head + WithInitiative(s[1..], v);
  }

  lemma SortedTail(s: seq<Participant>)
    requires |s| > 0 && SortedByInitiative(s)
    ensures SortedByInitiative(s[1..])
  {
    forall i, j | 0 <= i < j < |s[1..]| ensures s[1..][i].initiative >= s[1..][j].initiative {
      assert s[1..][i] == s[i + 1] && s[1..][j] == s[j + 1];
    }
  }

  /** Inserting above the current head puts the newcomer first. */
  lemma InsertFront(x: Participant, s: seq<Participant>, v: int)
    requires SortedByInitiative(s)
    requires |s| > 0 && s[0].initiative < x.initiative
    ensures WithInitiative(Insert(x, s), v) == WithInitiative(s, v) + (if x.initiative == v then [x] else [])
  {
    assert Insert(x, s) == [x] + s;
    WithInitiativeConcat([x], s, v);
    assert WithInitiative([x], v) == (if x.initiative == v then [x] else []) by {
      assert [x][1..] == [];
    }
    if x.initiative == v {
      assert forall i :: 0 < i < |s| ==> s[0].initiative >= s[i].initiative;
      WithInitiativeNone(s, v);
    }
  }

  /** Python's `list.sort(key=initiative, reverse=True)`: a stable sort by
      descending initiative. */
  function SortByInitiative(xs: seq<Participant>): (r: seq<Participant>)
    ensures SortedByInitiative(r)
    ensures multiset(r) == multiset(xs)
  {
    if |xs| == 0 then []
    else
      var init := xs[..|xs| - 1];
      var r := Insert(xs[|xs| - 1], SortByInitiative(init));
      InsertSorted(xs[|xs| - 1], SortByInitiative(init));
      InsertPermutes(xs[|xs| - 1], SortByInitiative(init));
      SplitLast(xs);
      r
  }

  /** The sort is stable: among participants with equal initiative the
      collected order is kept. Together with the ordering and permutation
      facts this pins the result down completely. */
  lemma {:induction false} SortStable(xs: seq<Participant>, v: int)
    ensures WithInitiative(SortByInitiative(xs), v) == WithInitiative(xs, v)
    decreases |xs|
  {
    if |xs| > 0 {
      var init := xs[..|xs| - 1];
      var last := xs[|xs| - 1];
      SortStable(init, v);
      assert SortByInitiative(xs) == Insert(last, SortByInitiative(init));
      InsertFilter(last, SortByInitiative(init), v);
      SplitLast(xs);
      WithInitiativeConcat(init, [last], v);
      assert WithInitiative([last], v) == (if last.initiative == v then [last] else []) by {
        assert [last][1..] == [];
      }
    }
  }

  /** When everybody ties (for instance when every roll failed and counts
      as 0), the turn order is the collection order: players first, in
      request order, then the NPCs. */
  lemma SortOfTies(xs: seq<Participant>, v: int)
    requires forall i :: 0 <= i < |xs| ==> xs[i].initiative == v
    ensures SortByInitiative(xs) == xs
  {
    var r := SortByInitiative(xs);
    SortStable(xs, v);
    WithInitiativeAll(xs, v);
    forall i | 0 <= i < |r| ensures r[i].initiative == v {
      assert r[i] in multiset(xs);
    }
    WithInitiativeAll(r, v);
  }

  function Ids(ps: seq<Participant>): (r: seq<string>)
    ensures |r| == |ps| && forall i :: 0 <= i < |ps| ==> r[i] == ps[i].id
  {
    seq(|ps|, i requires 0 <= i < |ps| => ps[i].id)
  }

  datatype Start = Start(turnOrder: seq<string>, participants: seq<Participant>)

  /** The turn-order part of `start_combat`: with nobody to fight it fails
      with a 400; otherwise the participants sorted by initiative, highest
      first, and their ids as the turn order. */
  function StartCombat(players: seq<(string, Option<int>)>, spawns: seq<Option<NpcSpawn>>): (r: Result<Start>)
    ensures r.Err? <==> |players| == 0 && forall i :: 0 <= i < |spawns| ==> spawns[i].None?
    ensures r.Ok? ==> SortedByInitiative(r.value.participants)
    ensures r.Ok? ==> multiset(r.value.participants) == multiset(Roster(players, spawns))
    ensures r.Ok? ==> r.value.turnOrder == Ids(r.value.participants)
  {
    var roster := Roster(players, spawns);
    if |roster| == 0 then Err("Cannot start combat with no participants.")
    else
      var sorted := SortByInitiative(roster);
      Ok(Start(Ids(sorted), sorted))
  }

  /** Every participant gets exactly one turn: the turn order has as many
      entries as there are participants, and every player is in it. */
  lemma TurnOrderCoversPlayers(players: seq<(string, Option<int>)>, spawns: seq<Option<NpcSpawn>>, i: int)
    requires StartCombat(players, spawns).Ok? && 0 <= i < |players|
    ensures players[i].0 in StartCombat(players, spawns).value.turnOrder
    ensures |StartCombat(players, spawns).value.turnOrder| == |Roster(players, spawns)|
  {
    var roster := Roster(players, spawns);
    var st := StartCombat(players, spawns).value;
    assert roster[i] in multiset(st.participants);
    var k :| 0 <= k < |st.participants| && st.participants[k] == roster[i];
    assert st.turnOrder[k] == players[i].0;
    assert |st.participants| == |multiset(st.participants)| == |multiset(roster)| == |roster|;
  }

  // ---------------------------------------------------------------------
  // Reading an actor's context

  /** The dict an actor's stats and skills sit in: a truthy
      `character_sheet` marks a player, whose data is inside the sheet;
      otherwise the NPC's data is at the top level. */
  function Holder(ctx: Json): (r: Result<Json>)
    ensures r.Ok? <==> ctx.JObj?
    ensures r.Ok? && IsPlayer(ctx) ==> r.value == Get(ctx, "character_sheet").value
    ensures r.Ok? && !IsPlayer(ctx) ==> r.value == ctx
  {
    var sheet :- PyGet(ctx, "character_sheet", JNull);
    if Truthy(sheet) then Ok(sheet) else Ok(ctx)
  }

  /** The context has a truthy `character_sheet`: a player. */
  predicate IsPlayer(ctx: Json) {
    Truthy(Get(ctx, "character_sheet").GetOr(JNull))
  }

  /** `x.get(key, default)` on a value known to be a dict. */
  function GetOr(j: Json, key: string, default: Json): Json {
    Get(j, key).GetOr(default)
  }

  /** `get_stat_score`: the stat in the holder's "stats" dict, 10 when
      absent. The stat name is whatever the caller read from a weapon or
      armour record, so it is any JSON value. */
  function StatScore(ctx: Json, stat: Json): (r: Result<Json>)
    ensures Holder(ctx).Ok? && Holder(ctx).value.JObj? && !HasKey(Holder(ctx).value.fields, "stats") && stat.JStr? ==> r == Ok(JInt(10))
    ensures Holder(ctx).Ok? && Get(Holder(ctx).value, "stats") == Some(JObj([])) && stat.JStr? ==> r == Ok(JInt(10))
    ensures ctx.JObj? && !IsPlayer(ctx) && GetOr(ctx, "stats", JObj([])).JObj? && stat.JStr? ==>
              r == Ok(Lookup(GetOr(ctx, "stats", JObj([])).fields, stat.s).GetOr(JInt(10)))
    ensures ctx.JObj? && IsPlayer(ctx) && Get(ctx, "character_sheet").value.JObj? && stat.JStr? ==>
              var stats := GetOr(Get(ctx, "character_sheet").value, "stats", JObj([]));
              stats.JObj? ==> r == Ok(Lookup(stats.fields, stat.s).GetOr(JInt(10)))
    ensures r.Ok? <==> && ctx.JObj? && Holder(ctx).value.JObj?
                       && GetOr(Holder(ctx).value, "stats", JObj([])).JObj? && !stat.JArr? && !stat.JObj?
  {
    var holder :- Holder(ctx);
    var stats :- PyGet(holder, "stats", JObj([]));
    PyGetKey(stats, stat, JInt(10))
  }

  /** `get_skill_rank`: a player's skill is a dict whose "rank" defaults to 0;
      an NPC's skill is the rank itself, 0 when absent. */
  function SkillRank(ctx: Json, skill: string): (r: Result<Json>)
    ensures !ctx.JObj? ==> r.Err?
    ensures ctx.JObj? && !IsPlayer(ctx) && GetOr(ctx, "skills", JObj([])).JObj? ==>
              r == Ok(Lookup(GetOr(ctx, "skills", JObj([])).fields, skill).GetOr(JInt(0)))
    ensures ctx.JObj? && IsPlayer(ctx) && Get(ctx, "character_sheet").value.JObj? ==>
              var skills := GetOr(Get(ctx, "character_sheet").value, "skills", JObj([]));
              && (skills.JObj? && !HasKey(skills.fields, skill) ==> r == Ok(JInt(0)))
              && (skills.JObj? && HasKey(skills.fields, skill) && Lookup(skills.fields, skill).value.JObj? ==>
                    r == Ok(Lookup(Lookup(skills.fields, skill).value.fields, "rank").GetOr(JInt(0))))
  {
    var sheet :- PyGet(ctx, "character_sheet", JNull);
    if Truthy(sheet) then
      var skills :- PyGet(sheet, "skills", JObj([]));
      var entry :- PyGet(skills, skill, JObj([]));
      PyGet(entry, "rank", JInt(0))
    else
      PyGet(GetOr(ctx, "skills", JObj([])), skill, JInt(0))
  }

  /** Which context shape is read is decided by the sheet alone: a player
      whose sheet is present but empty is read like an NPC. */
  lemma EmptySheetReadsTopLevel(fields: seq<(string, Json)>, stat: string)
    requires Lookup(fields, "character_sheet") == Some(JObj([]))
    ensures StatScore(JObj(fields), JStr(stat)) == StatScore(JObj(Delete(fields, "character_sheet")), JStr(stat))
  {
  }

  /** A player's stat is read from the sheet, whatever the top level holds. */
  lemma PlayerStatFromSheet(sheet: seq<(string, Json)>, stats: seq<(string, Json)>, top: seq<(string, Json)>, stat: string)
    requires |sheet| > 0 && Lookup(sheet, "stats") == Some(JObj(stats))
    ensures StatScore(JObj([("character_sheet", JObj(sheet))] + top), JStr(stat)) == Ok(Lookup(stats, stat).GetOr(JInt(10)))
  {
  }

  /** `get_equipped_weapon`: a player's right-hand (category, type), each
      None when missing; anyone without a right-hand item wields the
      default ("Great Weapons", "melee"). */
  function EquippedWeapon(ctx: Json): (r: Result<(Json, Json)>)
    ensures ctx.JObj? && !Truthy(Get(ctx, "character_sheet").GetOr(JNull)) ==> r == Ok((JStr("Great Weapons"), JStr("melee")))
    ensures !ctx.JObj? ==> r.Err?
    ensures ctx.JObj? && IsPlayer(ctx) && Get(ctx, "character_sheet").value.JObj? ==>
              var equipment := GetOr(Get(ctx, "character_sheet").value, "equipment", JObj([]));
              && (equipment.JObj? && !HasKey(equipment.fields, "right_hand") ==> r == Ok((JStr("Great Weapons"), JStr("melee"))))
              && (equipment.JObj? && HasKey(equipment.fields, "right_hand") ==>
                    var weapon := Lookup(equipment.fields, "right_hand").value;
                    && (!weapon.JObj? ==> r.Err?)
                    && (weapon.JObj? ==> r == Ok((Lookup(weapon.fields, "category").GetOr(JNull), Lookup(weapon.fields, "type").GetOr(JNull)))))
  {
    var sheet :- PyGet(ctx, "character_sheet", JNull);
    if !Truthy(sheet) then Ok((JStr("Great Weapons"), JStr("melee")))
    else
      var equipment :- PyGet(sheet, "equipment", JObj([]));
      var wielding :- PyIn(equipment, "right_hand");
      if !wielding then Ok((JStr("Great Weapons"), JStr("melee")))
      else if !equipment.JObj? then Err("TypeError: indices must be integers")
      else
        var weapon := Lookup(equipment.fields, "right_hand").value;
        if !weapon.JObj? then Err("AttributeError: object has no attribute 'get'")
        else Ok((Lookup(weapon.fields, "category").GetOr(JNull), Lookup(weapon.fields, "type").GetOr(JNull)))
  }

  /** `get_equipped_armor`: a player's body-slot category, None when the item
      has none; anyone without a body item wears the default "Plate Armor". */
  function EquippedArmor(ctx: Json): (r: Result<Json>)
    ensures ctx.JObj? && !Truthy(Get(ctx, "character_sheet").GetOr(JNull)) ==> r == Ok(JStr("Plate Armor"))
    ensures !ctx.JObj? ==> r.Err?
    ensures ctx.JObj? && IsPlayer(ctx) && Get(ctx, "character_sheet").value.JObj? ==>
              var equipment := GetOr(Get(ctx, "character_sheet").value, "equipment", JObj([]));
              && (equipment.JObj? && !HasKey(equipment.fields, "body") ==> r == Ok(JStr("Plate Armor")))
              && (equipment.JObj? && HasKey(equipment.fields, "body") && Lookup(equipment.fields, "body").value.JObj? ==>
                    r == Ok(Lookup(Lookup(equipment.fields, "body").value.fields, "category").GetOr(JNull)))
  {
    var sheet :- PyGet(ctx, "character_sheet", JNull);
    if !Truthy(sheet) then Ok(JStr("Plate Armor"))
    else
      var equipment :- PyGet(sheet, "equipment", JObj([]));
      var wearing :- PyIn(equipment, "body");
      if !wearing then Ok(JStr("Plate Armor"))
      else if !equipment.JObj? then Err("TypeError: indices must be integers")
      else PyGet(Lookup(equipment.fields, "body").value, "category", JNull)
  }

  /** A player with a sheet but nothing in hand or on the body gets both defaults. */
  lemma EmptyEquipmentDefaults(sheet: seq<(string, Json)>)
    requires |sheet| > 0 && !HasKey(sheet, "equipment")
    ensures EquippedWeapon(JObj([("character_sheet", JObj(sheet))])) == Ok((JStr("Great Weapons"), JStr("melee")))
    ensures EquippedArmor(JObj([("character_sheet", JObj(sheet))])) == Ok(JStr("Plate Armor"))
  {
  }

  /** A right-hand item is read field by field. */
  lemma WeaponFromRightHand(sheet: seq<(string, Json)>, category: string, kind: string)
    requires Lookup(sheet, "equipment") == Some(JObj([("right_hand", JObj([("category", JStr(category)), ("type", JStr(kind))]))]))
    ensures EquippedWeapon(JObj([("character_sheet", JObj(sheet))])) == Ok((JStr(category), JStr(kind)))
  {
    var equipment := JObj([("right_hand", JObj([("category", JStr(category)), ("type", JStr(kind))]))]);
    var ctx := JObj([("character_sheet", JObj(sheet))]);
    assert HasKey(equipment.fields, "right_hand") by { assert equipment.fields[0].0 == "right_hand"; }
    assert |sheet| > 0;
    assert PyGet(ctx, "character_sheet", JNull) == Ok(JObj(sheet));
    assert PyGet(JObj(sheet), "equipment", JObj([])) == Ok(equipment);
    assert PyIn(equipment, "right_hand") == Ok(true);
    var weapon := Lookup(equipment.fields, "right_hand").value;
    assert weapon.fields[1].0 == "type";
    assert Lookup(weapon.fields, "category") == Some(JStr(category));
    assert Lookup(weapon.fields, "type") == Some(JStr(kind));
  }

  // ---------------------------------------------------------------------
  // Multi-hit weapons

  /** The end of the run of digits starting at k. */
  function DigitsEnd(s: string, k: nat): (j: nat)
    requires k <= |s|
    ensures k <= j <= |s|
    ensures forall m :: k <= m < j ==> IsDigit(s[m])
    ensures j == |s| || !IsDigit(s[j])
    decreases |s| - k
  {
    if k == |s| || !IsDigit(s[k]) then k else DigitsEnd(s, k + 1)
  }

  /** The pattern `(.+)\(x(\d+)\)` matches with its first group ending at i:
      a non-empty first line up to i, then "(x", digits and ")". */
  predicate MultiHitAt(s: string, i: int) {
    1 <= i && i + 2 <= |s| && '\n' !in s[..i] && s[i] == '(' && s[i + 1] == 'x' &&
    var j := DigitsEnd(s, i + 2);
    j > i + 2 && j < |s| && s[j] == ')'
  }

  /** The largest i <= hi at which the pattern matches. */
  function LastMultiHit(s: string, hi: int): (r: Option<nat>)
    ensures r.Some? ==> r.value <= hi && MultiHitAt(s, r.value)
    ensures r.Some? ==> forall i :: r.value < i <= hi ==> !MultiHitAt(s, i)
    ensures r.None? ==> forall i :: i <= hi ==> !MultiHitAt(s, i)
    decreases hi
  {
    if hi < 1 then None
    else if MultiHitAt(s, hi) then Some(hi)
    else LastMultiHit(s, hi - 1)
  }

  /** `re.match(r"(.+)\(x(\d+)\)", base)`: a weapon whose damage reads
      "X(xN)" strikes N times for X; the greedy first group takes the last
      place the suffix fits. Anything else strikes once for the whole string. */
  function ParseMultiHit(base: string): (r: (string, nat))
    ensures (forall i :: !MultiHitAt(base, i)) ==> r == (base, 1)
  {
    match LastMultiHit(base, |base|)
    case None => (base, 1)
    case Some(i) => (base[..i], DecimalValue(base[i + 2..DigitsEnd(base, i + 2)]))
  }

  /** Writing N hits of X and reading them back gives X and N. */
  lemma MultiHitRoundTrip(dice: string, n: nat)
    requires |dice| > 0 && '\n' !in dice
    ensures ParseMultiHit(dice + "(x" + NatToString(n) + ")") == (dice, n)
  {
    var digits := NatToString(n);
    var s := dice + "(x" + digits + ")";
    var i := |dice|;
    assert s[..i] == dice;
    assert s[i + 2..i + 2 + |digits|] == digits;
    DigitsEndOf(s, i + 2, |digits|);
    assert MultiHitAt(s, i);
    forall k | i < k <= |s| ensures !MultiHitAt(s, k) {
      if k < |s| {
        assert s[k] != '(' by {
          if k == i + 1 { } else if k < i + 2 + |digits| { assert s[k] == digits[k - i - 2]; } else { }
        }
      }
    }
    assert LastMultiHit(s, |s|) == Some(i);
    NatToStringRoundTrip(n);
  }

  lemma DigitsEndOf(s: string, k: nat, len: nat)
    requires k + len < |s| && IsDigits(s[k..k + len]) && !IsDigit(s[k + len])
    ensures DigitsEnd(s, k) == k + len
  {
    assert forall m :: k <= m < k + len ==> s[m] == s[k..k + len][m - k];
    DigitsRun(s, k, len);
  }

  lemma {:induction false} DigitsRun(s: string, k: nat, len: nat)
    requires k + len < |s| && !IsDigit(s[k + len])
    requires forall m :: k <= m < k + len ==> IsDigit(s[m])
    ensures DigitsEnd(s, k) == k + len
    decreases len
  {
    if len > 0 {
      DigitsRun(s, k + 1, len - 1);
    }
  }

  /** A damage string without a parenthesis is a single strike. */
  lemma SingleStrike(base: string)
    requires '(' !in base
    ensures ParseMultiHit(base) == (base, 1)
  {
  }
}

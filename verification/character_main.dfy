/** The character engine's endpoints that hold logic of their own
    (AI-TTRPG/character_engine/app/main.py): adding skill-rank experience
    (SRE) with its rank-up and the diff of newly unlocked talents, and the
    input guards of the damage and status endpoints.

    The stored sheet is given as a JSON object; the eligible-talent lookup
    is a parameter standing for the rules engine call; the database write
    is not modelled. An exception no handler catches is a 500 answer. */
module CharacterMain {
  import opened Wrappers
  import opened Text
  import opened Json

  /** An endpoint's answer: a value, or an HTTP status with its detail. */
  datatype Reply<+T> = Done(value: T) | Refused(status: int, detail: string)

  const Internal: Reply<SreUpdate> := Refused(500, "Internal Server Error")

  /** Experience a skill needs per rank. */
  const SrePerRank: int := 5

  datatype SreReply = SreReply(skill: string, newRank: Json, newSre: int, message: string, unlocked: seq<Json>)

  /** The updated sheet and the endpoint's answer. */
  datatype SreUpdate = SreUpdate(sheet: seq<(string, Json)>, reply: SreReply)

  /** A skill record after one SRE: the record, the SRE now held, the rank
      now held and whether the rank went up. */
  datatype Counted = Counted(data: seq<(string, Json)>, sre: int, rank: Json, rankedUp: bool)

  // ---------------------------------------------------------------------
  // Counting one SRE

  /** The record after an SRE that does not complete a rank. */
  function Counting(data: seq<(string, Json)>, sre: int): (c: Counted)
    ensures !c.rankedUp && c.sre == sre + 1
  {
    Counted(Put(data, "sre", JInt(sre + 1)), sre + 1, Lookup(data, "rank").GetOr(JInt(0)), false)
  }

  /** The record after the SRE that completes a rank held at `rank`. */
  function RankUp(data: seq<(string, Json)>, rank: int): (c: Counted)
    ensures c.rankedUp && c.sre == 0 && c.rank == JInt(rank + 1)
  {
    Counted(Put(Put(data, "sre", JInt(0)), "rank", JInt(rank + 1)), 0, JInt(rank + 1), true)
  }

  /** One SRE as written: SRE (0 when absent) goes up by one; at five it
      resets and `skill_data["rank"] += 1` runs, which raises when the record
      has no rank although the line before reads it with a default of 0. */
  function CountSreAsWritten(data: seq<(string, Json)>): (r: Option<Counted>)
    ensures r.Some? && r.value.rankedUp ==> HasKey(data, "rank")
  {
    var sre :- SreOf(data);
    if sre + 1 < SrePerRank then Some(Counting(data, sre))
    else
      var stored :- Lookup(data, "rank");
      var rank :- Number(stored);
      Some(RankUp(data, rank))
  }

  /** A skill record holding four SRE and no rank cannot rank up as written. */
  lemma RankUpWithoutRankRaises()
    ensures CountSreAsWritten([("sre", JInt(4))]) == None
    ensures CountSre([("sre", JInt(4))]) == Some(Counted([("sre", JInt(0)), ("rank", JInt(1))], 0, JInt(1), true))
  {
    var data := [("sre", JInt(4))];
    assert Lookup(data, "sre") == Some(JInt(4));
    assert Lookup(data, "rank") == None;
    assert SreOf(data) == Some(4) && RankOf(data) == Some(0);
    assert Put(data, "sre", JInt(0)) == [("sre", JInt(0))];
    assert Put([], "rank", JInt(1)) == [("rank", JInt(1))];
    assert Put([("sre", JInt(0))], "rank", JInt(1)) == [("sre", JInt(0))] + Put([], "rank", JInt(1));
    assert Put(Put(data, "sre", JInt(0)), "rank", JInt(1)) == [("sre", JInt(0)), ("rank", JInt(1))];
    assert CountSre(data).Some?;
    assert CountSre(data).value.rankedUp;
  }

  /** The SRE count a record holds, 0 when absent; None when it is no number. */
  function SreOf(data: seq<(string, Json)>): Option<int> {
    Number(Lookup(data, "sre").GetOr(JInt(0)))
  }

  /** The rank a record holds, 0 when absent; None when it is no number. */
  function RankOf(data: seq<(string, Json)>): Option<int> {
    Number(Lookup(data, "rank").GetOr(JInt(0)))
  }

  /** What one SRE does to a record: the count goes up by one, and the
      fifth completes the rank: the count resets and the rank goes up by one. */
  predicate CountedFrom(data: seq<(string, Json)>, c: Counted) {
    && SreOf(data).Some?
    && c.rankedUp == (SreOf(data).value + 1 >= SrePerRank)
    && (!c.rankedUp ==> c.sre == SreOf(data).value + 1)
    && (c.rankedUp ==> RankOf(data).Some? && c.sre == 0 && c.rank == JInt(RankOf(data).value + 1))
  }

  /** One SRE with the rank read as the code reads it elsewhere (0 when
      absent): below five SRE the count goes up by one and the rank stays;
      at five the count resets to 0 and the rank goes up by exactly one. */
  function CountSre(data: seq<(string, Json)>): (r: Option<Counted>)
    ensures r.Some? <==> SreOf(data).Some? && (SreOf(data).value + 1 >= SrePerRank ==> RankOf(data).Some?)
  {
    match SreOf(data)
    case None => None
    case Some(sre) =>
      if sre + 1 < SrePerRank then Some(Counting(data, sre))
      else
        match RankOf(data)
        case None => None
        case Some(rank) => Some(RankUp(data, rank))
  }

  /** A counted SRE is what `CountedFrom` describes. */
  lemma CountSreCounts(data: seq<(string, Json)>)
    ensures CountSre(data).Some? ==> CountedFrom(data, CountSre(data).value)
  {
    if CountSre(data).Some? {
      var sre := SreOf(data).value;
      if sre + 1 < SrePerRank {
        assert CountSre(data).value == Counting(data, sre);
      } else {
        assert CountSre(data).value == RankUp(data, RankOf(data).value);
      }
    }
  }

  /** The updated record holds the new count and rank; every other field of
      the record is kept. */
  lemma CountSreRecord(data: seq<(string, Json)>, k: string)
    ensures CountSre(data).Some? ==>
            var c := CountSre(data).value;
            && Lookup(c.data, "sre") == Some(JInt(c.sre))
            && (c.rankedUp ==> Lookup(c.data, "rank") == Some(c.rank))
            && (!c.rankedUp ==> Lookup(c.data, "rank") == Lookup(data, "rank"))
            && (k != "sre" && k != "rank" ==> Lookup(c.data, k) == Lookup(data, k))
  {
    if CountSre(data).Some? {
      var sre := SreOf(data).value;
      if sre + 1 < SrePerRank {
        assert CountSre(data).value == Counting(data, sre);
        CountingRecord(data, sre, k);
      } else {
        var rank := RankOf(data).value;
        assert CountSre(data).value == RankUp(data, rank);
        RankUpRecord(data, rank, k);
      }
    }
  }

  lemma CountingRecord(data: seq<(string, Json)>, sre: int, k: string)
    ensures var c := Counting(data, sre);
            && Lookup(c.data, "sre") == Some(JInt(c.sre))
            && Lookup(c.data, "rank") == Lookup(data, "rank")
            && (k != "sre" ==> Lookup(c.data, k) == Lookup(data, k))
  {
    assert "rank" != "sre" by { assert |"rank"| != |"sre"|; }
  }

  lemma RankUpRecord(data: seq<(string, Json)>, rank: int, k: string)
    ensures var c := RankUp(data, rank);
            && Lookup(c.data, "sre") == Some(JInt(0))
            && Lookup(c.data, "rank") == Some(JInt(rank + 1))
            && (k != "sre" && k != "rank" ==> Lookup(c.data, k) == Lookup(data, k))
  {
    assert "rank" != "sre" by { assert |"rank"| != |"sre"|; }
    var reset := Put(data, "sre", JInt(0));
    assert Lookup(reset, "sre") == Some(JInt(0));
    assert Lookup(Put(reset, "rank", JInt(rank + 1)), "sre") == Lookup(reset, "sre");
  }

  /** The two agree on every record that has a rank. */
  lemma CountSreAgrees(data: seq<(string, Json)>)
    requires HasKey(data, "rank")
    ensures CountSreAsWritten(data) == CountSre(data)
  {
    assert RankOf(data) == Number(Lookup(data, "rank").value);
  }

  // ---------------------------------------------------------------------
  // Talent diff

  /** `{name: data.get("rank", 0) for name, data in skills.items()}`. */
  function Ranks(skills: seq<(string, Json)>): (r: Result<seq<(string, Json)>>)
    ensures r.Ok? ==> |r.value| == |skills|
    ensures r.Ok? ==> forall i :: 0 <= i < |skills| ==> r.value[i].0 == skills[i].0
  {
    if |skills| == 0 then Ok([])
    else
      var rank :- PyGet(skills[0].1, "rank", JInt(0));
      var rest :- Ranks(skills[1..]);
      Ok([(skills[0].0, rank)] + rest)
  }

  /** The names of the talents already held: the `name` of each held dict
      that has one; other entries are skipped, and a name that is a list or
      a dict cannot go into a set and raises. */
  function HeldNames(items: seq<Json>): (r: Result<seq<Json>>)
    ensures r.Ok? ==> forall t :: t in items && t.JObj? && HasKey(t.fields, "name") ==> Lookup(t.fields, "name").value in r.value
    ensures r.Ok? ==> forall n :: n in r.value ==> exists t :: t in items && t.JObj? && Lookup(t.fields, "name") == Some(n)
  {
    if |items| == 0 then Ok([])
    else
      var rest :- HeldNames(items[1..]);
      assert forall t :: t in items ==> t == items[0] || t in items[1..];
      var t := items[0];
      if t.JObj? && HasKey(t.fields, "name") then
        var n := Lookup(t.fields, "name").value;
        if n.JArr? || n.JObj? then Err("TypeError: unhashable type") else Ok([n] + rest)
      else Ok(rest)
  }

  /** The name a candidate talent reports, `talent_dict.get("name")`. */
  function NameOf(t: Json): Json
    requires t.JObj?
  {
    Lookup(t.fields, "name").GetOr(JNull)
  }

  /** The eligible talents whose name is not held, in order. A candidate
      that is not a dict, or whose name is a list or a dict, raises; the ones
      found before it stay in the answer. */
  function Unheld(eligible: seq<Json>, held: seq<Json>): (r: (seq<Json>, bool))
    ensures |r.0| <= |eligible|
    ensures forall t :: t in r.0 ==> t in eligible && t.JObj? && NameOf(t) !in held
    ensures !r.1 ==> forall t :: t in eligible ==> t.JObj? && (NameOf(t) !in held ==> t in r.0)
  {
    if |eligible| == 0 then ([], false)
    else
      var t := eligible[0];
      if !t.JObj? || NameOf(t).JArr? || NameOf(t).JObj? then ([], true)
      else
        var rest := Unheld(eligible[1..], held);
        assert forall x :: x in eligible ==> x == t || x in eligible[1..];
        if NameOf(t) !in held then ([t] + rest.0, rest.1) else rest
  }

  /** When nothing is held, every eligible talent is new, in order. */
  lemma {:induction false} NothingHeldAllNew(eligible: seq<Json>)
    requires forall t :: t in eligible ==> t.JObj? && !NameOf(t).JArr? && !NameOf(t).JObj?
    ensures Unheld(eligible, []) == (eligible, false)
  {
    if |eligible| > 0 {
      assert forall t :: t in eligible[1..] ==> t in eligible;
      NothingHeldAllNew(eligible[1..]);
      assert eligible == [eligible[0]] + eligible[1..];
    }
  }

  /** The talent step after a rank-up: the talents the lookup returns whose
      names are not yet held, and the sheet with them appended to
      `unlocked_talents`. Any failure is caught: the sheet then keeps its
      talents, and the answer keeps the talents found before the failure. */
  function TalentDiff(sheet: seq<(string, Json)>, skills: seq<(string, Json)>,
                      lookup: (Json, seq<(string, Json)>) -> Result<Json>): (r: (seq<Json>, seq<(string, Json)>))
    ensures r.1 == sheet || (Lookup(sheet, "unlocked_talents").GetOr(JArr([])).JArr?
                             && r.1 == Put(sheet, "unlocked_talents", JArr(Lookup(sheet, "unlocked_talents").GetOr(JArr([])).items + r.0)))
    ensures forall k :: k != "unlocked_talents" ==> Lookup(r.1, k) == Lookup(sheet, k)
  {
    var stats := Lookup(sheet, "stats").GetOr(JObj([]));
    var current := Lookup(sheet, "unlocked_talents").GetOr(JArr([]));
    match Ranks(skills)
    case Err(_) => ([], sheet)
    case Ok(ranks) =>
      match lookup(stats, ranks)
      case Err(_) => ([], sheet)
      case Ok(answer) =>
        match Iterate(current)
        case Err(_) => ([], sheet)
        case Ok(currentItems) =>
          match HeldNames(currentItems)
          case Err(_) => ([], sheet)
          case Ok(held) =>
            match Iterate(answer)
            case Err(_) => ([], sheet)
            case Ok(eligible) =>
              var (found, raised) := Unheld(eligible, held);
              if raised || |found| == 0 || !current.JArr? then (found, sheet)
              else (found, Put(sheet, "unlocked_talents", JArr(current.items + found)))
  }

  // ---------------------------------------------------------------------
  // add_sre

  /** The skill's record: `sheet.get("skills", {}).get(skill)`. */
  function SkillRecord(sheet: seq<(string, Json)>, skill: string): (r: Reply<seq<(string, Json)>>)
    ensures r.Done? ==> Lookup(sheet, "skills").Some? && Lookup(sheet, "skills").value.JObj?
                        && Lookup(Lookup(sheet, "skills").value.fields, skill) == Some(JObj(r.value))
    ensures r.Refused? && r.status == 400 <==>
              var skills := Lookup(sheet, "skills").GetOr(JObj([]));
              skills.JObj? && Lookup(skills.fields, skill).GetOr(JNull) == JNull
  {
    var skills := Lookup(sheet, "skills").GetOr(JObj([]));
    if !skills.JObj? then Refused(500, "Internal Server Error")
    else
      var data := Lookup(skills.fields, skill).GetOr(JNull);
      if data == JNull then Refused(400, "Skill '" + skill + "' not found for character.")
      else if !data.JObj? then Refused(500, "Internal Server Error")
      else Done(data.fields)
  }

  function SreMessage(skill: string, c: Counted): string
    requires c.rankedUp ==> c.rank.JInt?
  {
    if c.rankedUp then "Ranked up " + skill + " to Rank " + IntToString(c.rank.n) + "!"
    else "Added 1 SRE to " + skill + ". Current SRE: " + IntToString(c.sre) + "."
  }

  /** `add_sre_to_character`: one SRE to the named skill, the skill record
      updated in place inside the sheet, and after a rank-up the talent diff. */
  function AddSre(sheet: seq<(string, Json)>, skill: string,
                  lookup: (Json, seq<(string, Json)>) -> Result<Json>): (r: Reply<SreUpdate>)
    ensures SkillRecord(sheet, skill).Refused? ==> r == Refused(SkillRecord(sheet, skill).status, SkillRecord(sheet, skill).detail)
    ensures r.Done? ==> SkillRecord(sheet, skill).Done? && CountSre(SkillRecord(sheet, skill).value).Some?
    ensures r.Done? ==> var c := CountSre(SkillRecord(sheet, skill).value).value;
            var skills := Put(Lookup(sheet, "skills").value.fields, skill, JObj(c.data));
            && Lookup(r.value.sheet, "skills") == Some(JObj(skills))
            && r.value.reply.newSre == c.sre && r.value.reply.newRank == c.rank
            && (!c.rankedUp ==> r.value.sheet == Put(sheet, "skills", JObj(skills)) && r.value.reply.unlocked == [])
  {
    match SkillRecord(sheet, skill)
    case Refused(status, detail) => Refused(status, detail)
    case Done(data) =>
      match CountSre(data)
      case None => Internal
      case Some(c) =>
        var skills := Put(Lookup(sheet, "skills").value.fields, skill, JObj(c.data));
        var counted := Put(sheet, "skills", JObj(skills));
        var message := SreMessage(skill, c);
        if !c.rankedUp then Done(SreUpdate(counted, SreReply(skill, c.rank, c.sre, message, [])))
        else
          var (unlocked, updated) := TalentDiff(counted, skills, lookup);
          Done(SreUpdate(updated, SreReply(skill, c.rank, c.sre, message, unlocked)))
  }

  /** A skill the sheet does not hold is a 400 and no sheet is written. */
  lemma UnknownSkillRefused(sheet: seq<(string, Json)>, skill: string, lookup: (Json, seq<(string, Json)>) -> Result<Json>)
    requires !HasKey(sheet, "skills") || Lookup(sheet, "skills") == Some(JObj([]))
    ensures AddSre(sheet, skill, lookup) == Refused(400, "Skill '" + skill + "' not found for character.")
  {
  }

  /** The fifth SRE of a rank resets the count and raises the rank by one,
      even when the talent lookup fails. */
  lemma FifthSreRanksUp(sheet: seq<(string, Json)>, skill: string, skills: seq<(string, Json)>, rank: int,
                        lookup: (Json, seq<(string, Json)>) -> Result<Json>)
    requires Lookup(sheet, "skills") == Some(JObj(skills))
    requires Lookup(skills, skill) == Some(JObj([("sre", JInt(4)), ("rank", JInt(rank))]))
    requires forall stats, ranks :: lookup(stats, ranks).Err?
    ensures var r := AddSre(sheet, skill, lookup);
            && r.Done? && r.value.reply.newSre == 0 && r.value.reply.newRank == JInt(rank + 1)
            && r.value.reply.unlocked == []
            && Lookup(r.value.sheet, "skills") == Some(JObj(Put(skills, skill, JObj([("sre", JInt(0)), ("rank", JInt(rank + 1))]))))
  {
    var data := [("sre", JInt(4)), ("rank", JInt(rank))];
    assert SkillRecord(sheet, skill) == Done(data);
    var updated := [("sre", JInt(0)), ("rank", JInt(rank + 1))];
    FourthSreCounted(rank);
    var skillsAfter := Put(skills, skill, JObj(updated));
    var counted := Put(sheet, "skills", JObj(skillsAfter));
    FailedLookupUnlocksNothing(counted, skillsAfter, lookup);
  }

  lemma FailedLookupUnlocksNothing(sheet: seq<(string, Json)>, skills: seq<(string, Json)>,
                                   lookup: (Json, seq<(string, Json)>) -> Result<Json>)
    requires forall stats, ranks :: lookup(stats, ranks).Err?
    ensures TalentDiff(sheet, skills, lookup) == ([], sheet)
  {
  }

  lemma FourthSreCounted(rank: int)
    ensures CountSre([("sre", JInt(4)), ("rank", JInt(rank))])
            == Some(Counted([("sre", JInt(0)), ("rank", JInt(rank + 1))], 0, JInt(rank + 1), true))
  {
    var data := [("sre", JInt(4)), ("rank", JInt(rank))];
    FourthSreRecord(rank);
    assert CountSre(data) == Some(RankUp(data, rank));
  }

  lemma FourthSreRecord(rank: int)
    ensures var data := [("sre", JInt(4)), ("rank", JInt(rank))];
            SreOf(data) == Some(4) && RankOf(data) == Some(rank)
            && Put(Put(data, "sre", JInt(0)), "rank", JInt(rank + 1)) == [("sre", JInt(0)), ("rank", JInt(rank + 1))]
  {
    var data := [("sre", JInt(4)), ("rank", JInt(rank))];
    assert Lookup(data, "sre") == Some(JInt(4));
    assert Lookup(data, "rank") == Some(JInt(rank));
    ResetThenRaise(rank);
  }

  lemma ResetThenRaise(rank: int)
    ensures Put(Put([("sre", JInt(4)), ("rank", JInt(rank))], "sre", JInt(0)), "rank", JInt(rank + 1))
            == [("sre", JInt(0)), ("rank", JInt(rank + 1))]
  {
    var reset := [("sre", JInt(0)), ("rank", JInt(rank))];
    assert Put([("sre", JInt(4)), ("rank", JInt(rank))], "sre", JInt(0)) == reset;
    assert Put(reset[1..], "rank", JInt(rank + 1)) == [("rank", JInt(rank + 1))];
  }

  /** After a rank-up with a held-talent list, the sheet's talents are the
      held ones followed by the new ones. */
  lemma NewTalentsAppended(sheet: seq<(string, Json)>, skills: seq<(string, Json)>,
                           lookup: (Json, seq<(string, Json)>) -> Result<Json>, held: seq<Json>)
    ensures Lookup(sheet, "unlocked_talents") == Some(JArr(held)) && TalentDiff(sheet, skills, lookup).1 != sheet ==>
            Lookup(TalentDiff(sheet, skills, lookup).1, "unlocked_talents") == Some(JArr(held + TalentDiff(sheet, skills, lookup).0))
  {
  }

  // ---------------------------------------------------------------------
  // Damage and status guards

  /** `apply_damage`'s checks: an unknown character is a 404, then a
      negative amount a 400. */
  function DamageGuard(found: bool, amount: int): (r: Reply<nat>)
    ensures r.Done? <==> found && amount >= 0
    ensures r.Done? ==> r.value == amount
    ensures !found ==> r.Refused? && r.status == 404
    ensures found && amount < 0 ==> r == Refused(400, "Damage amount cannot be negative.")
  {
    if !found then Refused(404, "Character not found")
    else if amount < 0 then Refused(400, "Damage amount cannot be negative.")
    else Done(amount)
  }

  /** `apply_status`'s checks: an unknown character is a 404, then an empty
      status id a 400. */
  function StatusGuard(found: bool, statusId: string): (r: Reply<string>)
    ensures r.Done? <==> found && statusId != ""
    ensures r.Done? ==> r.value == statusId
    ensures !found ==> r.Refused? && r.status == 404
    ensures found && statusId == "" ==> r == Refused(400, "Status ID cannot be empty.")
  {
    if !found then Refused(404, "Character not found")
    else if statusId == "" then Refused(400, "Status ID cannot be empty.")
    else Done(statusId)
  }
}

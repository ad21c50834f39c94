/** The rules arithmetic of the rules engine (AI-TTRPG/rules_engine/app/core.py):
    attribute modifiers, the skill-mastery bonus, dice strings, the contested
    attack, damage after damage reduction, initiative, skill and ability checks
    and base vitals. Every d20 and damage die is a parameter. */
module Rules {
  import opened Wrappers
  import opened Text

  // ---------------------------------------------------------------------
  // Modifiers

  /** `floor((score - 10) / 2)`: the largest r with 2r <= score - 10. */
  function Modifier(score: int): (r: int)
    ensures 2 * r <= score - 10 < 2 * r + 2
  {
    (score - 10) / 2
  }

  lemma ModifierExamples()
    ensures Modifier(10) == 0 && Modifier(11) == 0
    ensures Modifier(9) == -1 && Modifier(8) == -1
    ensures Modifier(12) == 1 && Modifier(20) == 5 && Modifier(1) == -5
  {
  }

  lemma ModifierMonotone(a: int, b: int)
    requires a <= b
    ensures Modifier(a) <= Modifier(b)
  {
  }

  /** Two more points of score give exactly one more point of modifier. */
  lemma ModifierStep(s: int)
    ensures Modifier(s + 2) == Modifier(s) + 1
  {
  }

  /** Skill-mastery bonus: a negative rank counts as 0, then `floor(rank / 3)`. */
  function MasteryBonus(rank: int): (r: nat)
    ensures rank < 0 ==> r == 0
    ensures rank >= 0 ==> 3 * r <= rank < 3 * r + 3
  {
    if rank < 0 then 0 else rank / 3
  }

  lemma MasteryBonusMonotone(a: int, b: int)
    requires a <= b
    ensures MasteryBonus(a) <= MasteryBonus(b)
  {
  }

  // ---------------------------------------------------------------------
  // Dice strings

  /** `parse_dice_string`: "0" means no roll; otherwise the string must contain
      a lower-case 'd' BEFORE lower-casing, and its lower-cased form must split
      on 'd' into exactly two ASCII digit strings. */
  function ParseDice(s: string): Result<(nat, nat)> {
    if s == "0" then Ok((0, 0))
    else if 'd' !in s then Err("Invalid dice string format")
    else
      var parts := Split(Lower(s), 'd');
      if |parts| != 2 || !IsDigits(parts[0]) || !IsDigits(parts[1]) then Err("Invalid dice string format")
      else Ok((DecimalValue(parts[0]), DecimalValue(parts[1])))
  }

  /** `s` is `<digits>d<digits>` with its only 'd' at index i. */
  predicate DiceShapeAt(s: string, i: int) {
    0 <= i < |s| && s[i] == 'd' && IsDigits(s[..i]) && IsDigits(s[i + 1..])
  }

  /** The strings `parse_dice_string` accepts are exactly "0" and `<digits>d<digits>`,
      and the pair it yields is the two decimal values. */
  lemma ParseDiceExact(s: string)
    ensures ParseDice(s).Ok? <==> s == "0" || exists i :: DiceShapeAt(s, i)
    ensures s == "0" ==> ParseDice(s) == Ok((0, 0))
    ensures forall i :: DiceShapeAt(s, i) ==>
              ParseDice(s) == Ok((DecimalValue(s[..i]), DecimalValue(s[i + 1..])))
  {
    forall i | DiceShapeAt(s, i)
      ensures ParseDice(s) == Ok((DecimalValue(s[..i]), DecimalValue(s[i + 1..])))
    {
      DiceShapeAccepted(s, i);
    }
    if ParseDice(s).Ok? && s != "0" {
      var i := DiceShapeOfAccepted(s);
      assert DiceShapeAt(s, i);
    }
  }

  lemma DiceShapeAccepted(s: string, i: int)
    requires DiceShapeAt(s, i)
    ensures ParseDice(s) == Ok((DecimalValue(s[..i]), DecimalValue(s[i + 1..])))
  {
    var a, b := s[..i], s[i + 1..];
    assert s == a + ['d'] + b;
    assert 'd' in s;
    assert Lower(s) == s by {
      forall k | 0 <= k < |s| ensures Lower(s)[k] == s[k] {
        if k < i { assert s[k] == a[k]; } else if k > i { assert s[k] == b[k - i - 1]; }
      }
    }
    assert 'd' !in a by {
      forall k | 0 <= k < |a| ensures a[k] != 'd' { assert IsDigit(a[k]); }
    }
    assert 'd' !in b by {
      forall k | 0 <= k < |b| ensures b[k] != 'd' { assert IsDigit(b[k]); }
    }
    SplitAround(a, b, 'd');
  }

  lemma DiceShapeOfAccepted(s: string) returns (i: int)
    requires ParseDice(s).Ok? && s != "0"
    ensures DiceShapeAt(s, i)
  {
    var low := Lower(s);
    var parts := Split(low, 'd');
    SplitJoin(low, 'd');
    assert low == parts[0] + ['d'] + parts[1];
    i := |parts[0]|;
    // every character of the lower-cased string is a digit or the one 'd'
    assert forall k :: 0 <= k < |low| && k != i ==> IsDigit(low[k]) by {
      forall k | 0 <= k < |low| && k != i ensures IsDigit(low[k]) {
        if k < i { assert low[k] == parts[0][k]; } else { assert low[k] == parts[1][k - i - 1]; }
      }
    }
    // lower-casing leaves digits alone, so s agrees with low off index i
    assert forall k :: 0 <= k < |s| && k != i ==> s[k] == low[k] by {
      forall k | 0 <= k < |s| && k != i ensures s[k] == low[k] {
        assert low[k] == LowerChar(s[k]);
      }
    }
    // the lower-case 'd' that the presence check saw can only sit at index i
    var j :| 0 <= j < |s| && s[j] == 'd';
    assert low[j] == 'd';
    assert j == i;
    assert s[..i] == parts[0];
    assert s[i + 1..] == parts[1];
  }

  /** A dice count or side count may not be empty. */
  lemma ParseDiceRejectsEmptyCounts()
    ensures ParseDice("d6").Err? && ParseDice("2d").Err?
  {
    ParseDiceExact("d6");
    ParseDiceExact("2d");
  }

  /** A string whose only d is upper case fails the presence check. */
  lemma ParseDiceRejectsUpperCase()
    ensures ParseDice("2D6").Err?
  {
    assert 'd' !in "2D6";
  }

  lemma ParseDiceExample()
    ensures ParseDice("2d6") == Ok((2, 6))
  {
    DiceShapeAccepted("2d6", 1);
    assert "2d6"[..1] == "2";
    assert "2d6"[2..] == "6";
  }

  // ---------------------------------------------------------------------
  // Contested attack

  /** The request fields; the defaults of the optional fields are 0. */
  datatype AttackRequest = AttackRequest(
    attackerStat: int, attackerRank: int, attackBonus: int, attackPenalty: int,
    defenderStat: int, defenderRank: int, weaponPenalty: int,
    defenseBonus: int, defensePenalty: int)

  datatype Outcome = CriticalFumble | CriticalHit | SolidHit | Hit | Miss

  datatype AttackResult = AttackResult(
    attackerRoll: int, attackerStatMod: int, attackerSkillBonus: int,
    attackerTotalModifier: int, attackerFinal: int,
    defenderRoll: int, defenderStatMod: int, defenderSkillBonus: int,
    defenderTotalModifier: int, defenderFinal: int,
    outcome: Outcome, margin: int)

  /** The outcome ladder: the attacker's natural 1 and 20 decide first,
      then the margin. */
  function Classify(attackerRoll: int, margin: int): Outcome {
    if attackerRoll == 1 then CriticalFumble
    else if attackerRoll == 20 then CriticalHit
    else if margin >= 5 then SolidHit
    else if margin >= 0 then Hit
    else Miss
  }

  /** How good an outcome is for the attacker, worst first. */
  function Rank(o: Outcome): nat {
    match o
    case CriticalFumble => 0
    case Miss => 1
    case Hit => 2
    case SolidHit => 3
    case CriticalHit => 4
  }

  function ContestedAttack(req: AttackRequest, attackerRoll: int, defenderRoll: int): (r: AttackResult)
    ensures r.attackerFinal == attackerRoll + Modifier(req.attackerStat) + MasteryBonus(req.attackerRank)
                               + req.attackBonus - req.attackPenalty
    ensures r.defenderFinal == defenderRoll + Modifier(req.defenderStat) + MasteryBonus(req.defenderRank)
                               - req.weaponPenalty + req.defenseBonus - req.defensePenalty
    ensures r.margin == r.attackerFinal - r.defenderFinal
    ensures r.attackerRoll == 1 ==> r.outcome == CriticalFumble
    ensures r.attackerRoll == 20 ==> r.outcome == CriticalHit
    ensures r.attackerRoll != 1 && r.attackerRoll != 20 ==>
              (r.outcome == SolidHit <==> r.margin >= 5) &&
              (r.outcome == Hit <==> 0 <= r.margin < 5) &&
              (r.outcome == Miss <==> r.margin < 0)
  {
    var aMod := Modifier(req.attackerStat);
    var aBonus := MasteryBonus(req.attackerRank);
    var aTotal := aMod + aBonus + req.attackBonus - req.attackPenalty;
    var aFinal := attackerRoll + aTotal;
    var dMod := Modifier(req.defenderStat);
    var dBonus := MasteryBonus(req.defenderRank);
    var dTotal := dMod + dBonus - req.weaponPenalty + req.defenseBonus - req.defensePenalty;
    var dFinal := defenderRoll + dTotal;
    var margin := aFinal - dFinal;
    AttackResult(attackerRoll, aMod, aBonus, aTotal, aFinal,
                 defenderRoll, dMod, dBonus, dTotal, dFinal,
                 Classify(attackerRoll, margin), margin)
  }

  /** A larger margin never gives the attacker a worse outcome. */
  lemma ClassifyMonotone(roll: int, m1: int, m2: int)
    requires m1 <= m2
    ensures Rank(Classify(roll, m1)) <= Rank(Classify(roll, m2))
  {
  }

  /** A better attacking stat or skill rank never worsens the outcome of the
      same rolls against the same defender. */
  lemma {:induction false} AttackMonotone(req: AttackRequest, better: AttackRequest, aRoll: int, dRoll: int)
    requires better == req.(attackerStat := better.attackerStat, attackerRank := better.attackerRank)
    requires req.attackerStat <= better.attackerStat && req.attackerRank <= better.attackerRank
    ensures ContestedAttack(req, aRoll, dRoll).margin <= ContestedAttack(better, aRoll, dRoll).margin
    ensures Rank(ContestedAttack(req, aRoll, dRoll).outcome) <= Rank(ContestedAttack(better, aRoll, dRoll).outcome)
  {
    ModifierMonotone(req.attackerStat, better.attackerStat);
    MasteryBonusMonotone(req.attackerRank, better.attackerRank);
    ClassifyMonotone(aRoll, ContestedAttack(req, aRoll, dRoll).margin, ContestedAttack(better, aRoll, dRoll).margin);
  }

  // ---------------------------------------------------------------------
  // Damage

  datatype DamageRequest = DamageRequest(
    dice: string, statScore: int, damageBonus: int, damagePenalty: int,
    drModifier: int, baseDr: int)

  datatype DamageResult = DamageResult(
    rolls: seq<int>, rollTotal: int, statBonus: int, miscBonus: int,
    subtotal: int, drApplied: int, finalDamage: int)

  function Sum(xs: seq<int>): int {
    if |xs| == 0 then 0 else Sum(xs[..|xs| - 1]) + xs[|xs| - 1]
  }

  function Max(a: int, b: int): int { if a >= b then a else b }
  function Min(a: int, b: int): int { if a <= b then a else b }

  const ZeroDamage := DamageResult([], 0, 0, 0, 0, 0, 0)

  /** `calculate_damage`, with `die(i)` the result of the i-th damage die.
      An unparsable dice string gives the all-zero response. */
  function Damage(req: DamageRequest, die: nat -> int): (r: DamageResult)
    ensures ParseDice(req.dice).Err? ==> r == ZeroDamage
    ensures ParseDice(req.dice).Ok? ==>
              |r.rolls| == ParseDice(req.dice).value.0 &&
              (forall i :: 0 <= i < |r.rolls| ==> r.rolls[i] == die(i)) &&
              r.rollTotal == Sum(r.rolls) &&
              r.statBonus == Modifier(req.statScore) && r.miscBonus == req.damageBonus - req.damagePenalty &&
              r.subtotal == r.rollTotal + r.statBonus + r.miscBonus
    ensures r.finalDamage >= 0
    ensures r.finalDamage + r.drApplied == r.subtotal
    ensures ParseDice(req.dice).Ok? ==>
              (r.finalDamage == 0 <==> r.subtotal <= Max(0, req.baseDr - req.drModifier)) &&
              r.drApplied <= Max(0, req.baseDr - req.drModifier)
    ensures ParseDice(req.dice).Ok? && r.subtotal > Max(0, req.baseDr - req.drModifier) ==>
              r.drApplied == Max(0, req.baseDr - req.drModifier)
    ensures ParseDice(req.dice).Ok? && r.subtotal <= Max(0, req.baseDr - req.drModifier) ==>
              r.drApplied == r.subtotal && r.finalDamage == 0
  {
    match ParseDice(req.dice)
    case Err(_) => ZeroDamage
    case Ok((n, _)) =>
      var rolls := seq(n, i requires 0 <= i < n => die(i));
      var total := Sum(rolls);
      var statBonus := Modifier(req.statScore);
      var misc := req.damageBonus - req.damagePenalty;
      var subtotal := total + statBonus + misc;
      var effectiveDr := Max(0, req.baseDr - req.drModifier);
      DamageResult(rolls, total, statBonus, misc, subtotal,
                   Min(subtotal, effectiveDr), Max(0, subtotal - effectiveDr))
  }

  /** More armour (or a smaller DR modifier) never increases the damage dealt. */
  lemma DamageMonotoneInDr(req: DamageRequest, die: nat -> int, moreDr: int)
    requires req.baseDr <= moreDr
    ensures Damage(req.(baseDr := moreDr), die).finalDamage <= Damage(req, die).finalDamage
  {
  }

  // ---------------------------------------------------------------------
  // Initiative

  datatype InitiativeStats = InitiativeStats(
    endurance: int, agility: int, fortitude: int,
    logic: int, intuition: int, willpower: int)

  datatype InitiativeResult = InitiativeResult(
    roll: int, details: seq<(string, int)>, total: int)

  /** d20 plus the modifiers of Endurance, Agility, Fortitude, Logic,
      Intuition and Willpower, itemised in that order. */
  function Initiative(st: InitiativeStats, roll: int): (r: InitiativeResult)
    ensures |r.details| == 6
    ensures r.details[0].1 == Modifier(st.endurance) && r.details[1].1 == Modifier(st.agility)
    ensures r.details[2].1 == Modifier(st.fortitude) && r.details[3].1 == Modifier(st.logic)
    ensures r.details[4].1 == Modifier(st.intuition) && r.details[5].1 == Modifier(st.willpower)
    ensures r.roll == roll
    ensures r.total == roll + r.details[0].1 + r.details[1].1 + r.details[2].1
                            + r.details[3].1 + r.details[4].1 + r.details[5].1
  {
    var details := [
      ("Endurance (B) Mod", Modifier(st.endurance)),
      ("Agility (D) Mod", Modifier(st.agility)),
      ("Fortitude (F) Mod", Modifier(st.fortitude)),
      ("Logic (H) Mod", Modifier(st.logic)),
      ("Intuition (J) Mod", Modifier(st.intuition)),
      ("Willpower (L) Mod", Modifier(st.willpower))];
    InitiativeResult(roll, details, roll + details[0].1 + details[1].1 + details[2].1
                                        + details[3].1 + details[4].1 + details[5].1)
  }

  /** Average scores (10 everywhere) add nothing to the d20. */
  lemma InitiativeOfAverage(roll: int)
    ensures Initiative(InitiativeStats(10, 10, 10, 10, 10, 10), roll).total == roll
  {
  }

  lemma InitiativeMonotone(a: InitiativeStats, b: InitiativeStats, roll: int)
    requires a.endurance <= b.endurance && a.agility <= b.agility && a.fortitude <= b.fortitude
    requires a.logic <= b.logic && a.intuition <= b.intuition && a.willpower <= b.willpower
    ensures Initiative(a, roll).total <= Initiative(b, roll).total
  {
    ModifierMonotone(a.endurance, b.endurance);
    ModifierMonotone(a.agility, b.agility);
    ModifierMonotone(a.fortitude, b.fortitude);
    ModifierMonotone(a.logic, b.logic);
    ModifierMonotone(a.intuition, b.intuition);
    ModifierMonotone(a.willpower, b.willpower);
  }

  // ---------------------------------------------------------------------
  // Skill and ability checks

  datatype RollResult = RollResult(
    roll: int, total: int, dc: int, isSuccess: bool,
    isCriticalSuccess: bool, isCriticalFailure: bool, sreTriggered: bool)

  /** `calculate_skill_check`: success iff the total meets the DC; a natural
      20 or 1 triggers SRE. */
  function SkillCheck(statMod: int, rank: int, dc: int, roll: int): (r: RollResult)
    ensures r.roll == roll && r.dc == dc && r.total == roll + statMod + rank
    ensures r.isSuccess <==> r.total >= dc
    ensures r.isCriticalSuccess <==> roll == 20
    ensures r.isCriticalFailure <==> roll == 1
    ensures r.sreTriggered <==> (roll == 1 || roll == 20)
  {
    var total := roll + statMod + rank;
    RollResult(roll, total, dc, total >= dc, roll == 20, roll == 1, roll == 20 || roll == 1)
  }

  /** A higher rank never turns a success into a failure. */
  lemma SkillCheckMonotone(statMod: int, rank: int, better: int, dc: int, roll: int)
    requires rank <= better
    ensures SkillCheck(statMod, rank, dc, roll).isSuccess ==> SkillCheck(statMod, better, dc, roll).isSuccess
  {
  }

  /** The tiered ability DC: 12 up to tier 3, 14 up to 6, 16 up to 9, 20 above. */
  function AbilityDc(tier: int): (dc: int)
    ensures dc in {12, 14, 16, 20}
    ensures tier <= 3 <==> dc == 12
    ensures dc == 20 <==> tier > 9
  {
    if tier <= 3 then 12 else if tier <= 6 then 14 else if tier <= 9 then 16 else 20
  }

  lemma AbilityDcMonotone(t1: int, t2: int)
    requires t1 <= t2
    ensures AbilityDc(t1) <= AbilityDc(t2)
  {
  }

  /** `calculate_ability_check`: roll + rank + stat modifier against the tiered
      DC; an ability check never triggers SRE. */
  function AbilityCheck(rank: int, statMod: int, tier: int, roll: int): (r: RollResult)
    ensures r.dc == AbilityDc(tier) && r.total == roll + rank + statMod
    ensures r.isSuccess <==> r.total >= r.dc
    ensures r.isCriticalSuccess <==> roll == 20
    ensures r.isCriticalFailure <==> roll == 1
    ensures !r.sreTriggered
  {
    var dc := AbilityDc(tier);
    var total := roll + rank + statMod;
    RollResult(roll, total, dc, total >= dc, roll == 20, roll == 1, false)
  }

  // ---------------------------------------------------------------------
  // Base vitals

  datatype Pool = Pool(max: int, current: int)

  datatype Vitals = Vitals(maxHp: int, resources: seq<(string, Pool)>)

  function StatOr(stats: map<string, int>, name: string, default: int): int {
    if name in stats then stats[name] else default
  }

  /** The six resource pools, each paired with the stat whose modifier feeds it. */
  const PoolStats: seq<(string, string)> := [
    ("Presence", "Charm"), ("Stamina", "Endurance"), ("Chi", "Finesse"),
    ("Guile", "Knowledge"), ("Tactics", "Logic"), ("Instinct", "Intuition")]

  function PoolsFor(stats: map<string, int>, ps: seq<(string, string)>): (r: seq<(string, Pool)>)
    ensures |r| == |ps|
    ensures forall i :: 0 <= i < |ps| ==>
              r[i].0 == ps[i].0 && r[i].1.max == 5 + Modifier(StatOr(stats, ps[i].1, 10)) &&
              r[i].1.current == r[i].1.max
  {
    if |ps| == 0 then []
    else
      var m := 5 + Modifier(StatOr(stats, ps[0].1, 10));
      [(ps[0].0, Pool(m, m))] + PoolsFor(stats, ps[1..])
  }

  /** `calculate_base_vitals`: HP is 5 + Vitality + Endurance modifier, at
      least 1; each pool starts full at 5 + the modifier of its stat; a
      missing stat counts as 10. */
  function BaseVitals(stats: map<string, int>): (r: Vitals)
    ensures r.maxHp >= 1
    ensures r.maxHp == Max(1, 5 + StatOr(stats, "Vitality", 10) + Modifier(StatOr(stats, "Endurance", 10)))
    ensures |r.resources| == 6
    ensures forall i :: 0 <= i < 6 ==>
              r.resources[i].0 == PoolStats[i].0 &&
              r.resources[i].1.current == r.resources[i].1.max == 5 + Modifier(StatOr(stats, PoolStats[i].1, 10))
  {
    var hp := 5 + StatOr(stats, "Vitality", 10) + Modifier(StatOr(stats, "Endurance", 10));
    Vitals(Max(1, hp), PoolsFor(stats, PoolStats))
  }

  /** With no stats at all, HP is 15 and every pool is 5. */
  lemma BaseVitalsOfEmpty()
    ensures BaseVitals(map[]).maxHp == 15
    ensures forall i :: 0 <= i < 6 ==> BaseVitals(map[]).resources[i].1.max == 5
  {
  }

  lemma BaseVitalsMonotone(stats: map<string, int>, v: int)
    requires "Vitality" in stats && stats["Vitality"] <= v
    ensures BaseVitals(stats).maxHp <= BaseVitals(stats["Vitality" := v]).maxHp
  {
  }
}

/** The rules engine's request models (AI-TTRPG/rules_engine/app/models.py):
    the field bounds and validators pydantic applies before a request reaches
    the rules arithmetic. A rejected request is `Err`. */
module Requests {
  import opened Wrappers
  import opened Rules

  /** `validate_weapon_penalty`: the weapon penalty is subtracted from the
      defender's total, so it must not be positive. */
  function ValidateWeaponPenalty(v: int): (r: Result<int>)
    ensures r.Ok? <==> v <= 0
    ensures r.Ok? ==> r.value == v
  {
    if v > 0 then Err("defender_weapon_penalty should not be positive.") else Ok(v)
  }

  /** `validate_dice_string`, through `_core_parse_dice_string`, which runs the
      same steps as the rules core's parser: the accepted strings are "0" and
      `<digits>d<digits>`, and the field keeps the string as given. */
  function ValidateDiceString(v: string): (r: Result<string>)
    ensures r.Ok? <==> v == "0" || exists i :: DiceShapeAt(v, i)
    ensures r.Ok? ==> r.value == v
  {
    ParseDiceExact(v);
    match ParseDice(v)
    case Err(e) => Err(e)
    case Ok(_) => Ok(v)
  }

  /** `validate_non_negative`, applied to both DR fields. */
  function ValidateNonNegative(v: int): (r: Result<int>)
    ensures r.Ok? <==> v >= 0
    ensures r.Ok? ==> r.value == v
  {
    if v < 0 then Err("DR values cannot be negative.") else Ok(v)
  }

  /** A `ContestedAttackRequest` is built iff its weapon penalty passes. */
  function MakeAttackRequest(req: AttackRequest): (r: Result<AttackRequest>)
    ensures r.Ok? <==> req.weaponPenalty <= 0
    ensures r.Ok? ==> r.value == req
  {
    var _ :- ValidateWeaponPenalty(req.weaponPenalty);
    Ok(req)
  }

  /** A `DamageRequest` is built iff its dice string parses and neither DR
      field is negative. */
  function MakeDamageRequest(req: DamageRequest): (r: Result<DamageRequest>)
    ensures r.Ok? <==> ParseDice(req.dice).Ok? && req.baseDr >= 0 && req.drModifier >= 0
    ensures r.Ok? ==> r.value == req
  {
    var _ :- ValidateDiceString(req.dice);
    var _ :- ValidateNonNegative(req.drModifier);
    var _ :- ValidateNonNegative(req.baseDr);
    Ok(req)
  }

  /** An accepted damage request never takes the all-zero path of the
      damage calculation, and the effective DR never exceeds the armour's DR. */
  lemma AcceptedDamageRolls(req: DamageRequest, die: nat -> int)
    requires MakeDamageRequest(req).Ok?
    ensures |Damage(req, die).rolls| == ParseDice(req.dice).value.0
    ensures Damage(req, die).drApplied <= req.baseDr
  {
  }

  /** `InjuryLookupRequest.severity` lies in 1..5. */
  function ValidateSeverity(severity: int): (r: Result<int>)
    ensures r.Ok? <==> 1 <= severity <= 5
    ensures r.Ok? ==> r.value == severity
  {
    if severity < 1 || severity > 5 then Err("severity must be between 1 and 5") else Ok(severity)
  }

  /** `AbilityCheckRequest.ability_tier` lies in 1..10. */
  function ValidateTier(tier: int): (r: Result<int>)
    ensures r.Ok? <==> 1 <= tier <= 10
    ensures r.Ok? ==> r.value == tier
  {
    if tier <= 0 || tier > 10 then Err("ability_tier must be in 1..10") else Ok(tier)
  }

  /** Over the accepted tiers the tiered DC is one of the four steps. */
  lemma AcceptedTierDc(tier: int)
    requires ValidateTier(tier).Ok?
    ensures 12 <= AbilityDc(tier) <= 20
    ensures tier == 10 <==> AbilityDc(tier) == 20
  {
  }

  /** `validate_stats`: at least twelve stats, Vitality and Endurance among them. */
  function ValidateStats(stats: map<string, int>): (r: Result<map<string, int>>)
    ensures r.Ok? <==> |stats| >= 12 && "Vitality" in stats && "Endurance" in stats
    ensures r.Ok? ==> r.value == stats
  {
    if |stats| < 12 then Err("Must provide all 12 stats.")
    else if "Vitality" !in stats || "Endurance" !in stats then
      Err("Stats dictionary missing required Vitality or Endurance.")
    else Ok(stats)
  }

  /** For an accepted request the HP formula reads the given Vitality and
      Endurance, never the default of 10. */
  lemma AcceptedStatsHp(stats: map<string, int>)
    requires ValidateStats(stats).Ok?
    ensures BaseVitals(stats).maxHp == Max(1, 5 + stats["Vitality"] + Modifier(stats["Endurance"]))
  {
  }
}

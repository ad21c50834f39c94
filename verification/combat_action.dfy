/** One combat action of the story engine's combat handler
    (AI-TTRPG/story_engine/app/combat_handler.py, `execute_combat_action`):
    an attack fetches both actors' contexts, resolves a contested roll,
    rolls damage once per hit of a multi-hit weapon, applies the total and
    the hit's side effects, and reports what happened.

    The other services (character, NPC, rules) are a `Services` parameter:
    each answer is given, an HTTP error is an `Err`. The handler's text log
    is a list of structured entries, one per line it appends. */
module CombatAction {
  import opened Wrappers
  import opened Text
  import opened Json
  import opened Rules
  import opened CombatHandler

  /** Why an action stopped: a service answered with an HTTP error, or the
      handler itself raised (a missing key, a value of the wrong type). */
  datatype Fault = ServiceFault(detail: string) | InternalFault(detail: string)

  datatype LogEntry =
    | Targeting(actor: string, target: string)
    | AttackRoll(attackerTotal: Json, defenderTotal: Json, margin: Json)
    | Fumbled
    | Missed
    | Struck(hitType: string)
    | DamageRoll(hit: nat, roll: Json, statBonus: Json, miscBonus: Json, subtotal: Json)
    | DrApplied(hit: nat, dr: Json, finalDamage: int)
    | ApplyingDamage(amount: int, kind: ActorKind, target: string, before: int, after: int)
    | ApplyingStaggered
    | ApplyingInjury
    | InjuryApplied(severityName: Json, effects: Json)
    | InjuryFailed(detail: string)
    | TargetDefeated(target: string)
    | Failed(fault: Fault)

  /** The calls that change another service's state, in the order made. */
  datatype Call =
    | DamageCharacter(target: string, amount: int)
    | SetNpcHp(npc: int, hp: int)
    | StatusCharacter(target: string, status: string)
    | SetNpcStatuses(npc: int, statuses: Json)

  datatype AttackParams = AttackParams(attackerStat: Json, attackerSkill: Json, defenderStat: Json, defenderSkill: Json, weaponPenalty: Json)
  datatype DamageParams = DamageParams(dice: string, stat: Json, dr: Json)

  /** The answers of the services an attack calls. `damage` is told which
      hit it rolls; `apply` gives the detail of an HTTP error, if any. */
  datatype Services = Services(
    context: (ActorKind, int) -> Result<Json>,
    weapon: (Json, Json) -> Result<Json>,
    armor: Json -> Result<Json>,
    attack: AttackParams -> Result<Json>,
    damage: (nat, DamageParams) -> Result<Json>,
    apply: Call -> Option<string>,
    injury: Result<Json>)

  datatype Report = Report(
    success: bool,
    message: string,
    log: seq<LogEntry>,
    outcome: Option<Json>,
    damageDealt: Option<int>,
    hpRemaining: Option<int>,
    calls: seq<Call>)

  /** An action in progress: either it goes on with a value, or it has
      already produced its report. */
  datatype Step<+T> = Next(value: T) | Stop(report: Report) {
    predicate IsFailure() { Stop? }
    function PropagateFailure<U>(): Step<U> requires Stop? { Stop(report) }
    function Extract(): T requires Next? { value }
  }

  // ---------------------------------------------------------------------
  // Actor ids

  /** The actor id the handler gives a player or an NPC with a numeric id. */
  function ActorId(kind: ActorKind, n: int): string {
    (if kind == Player then "player_" else "npc_") + IntToString(n)
  }

  /** `get_actor_context`'s reading of an id: "player_<int>" or "npc_<int>",
      the number being the second "_"-separated part. */
  function ParseActorId(id: string): (r: Result<(ActorKind, int)>)
    ensures r.Ok? ==> StartsWith(id, if r.value.0 == Player then "player_" else "npc_")
    ensures !StartsWith(id, "player_") && !StartsWith(id, "npc_") ==> r.Err?
  {
    var kind := if StartsWith(id, "player_") then Some(Player) else if StartsWith(id, "npc_") then Some(Npc) else None;
    if kind.None? then Err("Unknown actor ID format: " + id)
    else
      var noun := if kind.value == Player then "player" else "NPC";
      var parts := Split(id, '_');
      if |parts| < 2 then Err("Invalid " + noun + " actor ID format: " + id)
      else match ParseInt(parts[1])
        case None => Err("Invalid " + noun + " actor ID format: " + id)
        case Some(n) => Ok((kind.value, n))
  }

  /** Every id the handler builds reads back as the actor it names; in
      particular the "npc_<id>" of a spawned NPC. */
  lemma ParseActorIdRoundTrip(kind: ActorKind, n: int)
    ensures ParseActorId(ActorId(kind, n)) == Ok((kind, n))
    ensures kind == Npc ==> ParseActorId(NpcActorId(Some(n))) == Ok((Npc, n))
  {
    var digits := IntToString(n);
    assert '_' !in digits by {
      if n < 0 {
        assert digits == "-" + NatToString(-n);
        assert IsDigits(NatToString(-n));
        assert forall i :: 1 <= i < |digits| ==> digits[i] == NatToString(-n)[i - 1];
      } else {
        assert IsDigits(digits);
      }
    }
    var head := if kind == Player then "player" else "npc";
    var id := ActorId(kind, n);
    assert id == head + ['_'] + digits;
    SplitAround(head, digits, '_');
    IntToStringRoundTrip(n);
    if kind == Player {
      assert StartsWith(id, "player_") by { assert id[..7] == "player_"; }
    } else {
      assert StartsWith(id, "npc_") by { assert id[..4] == "npc_"; }
      assert !StartsWith(id, "player_") by { assert id[0] != "player_"[0]; }
    }
  }

  /** The actor's kind, numeric id and context; the error is the detail of
      the HTTP error the handler raises. */
  function ActorContext(svc: Services, id: string): (r: Result<(ActorKind, int, Json)>)
    ensures r.Ok? ==> ParseActorId(id) == Ok((r.value.0, r.value.1))
    ensures r.Ok? ==> svc.context(r.value.0, r.value.1) == Ok(r.value.2)
  {
    var who :- ParseActorId(id);
    match svc.context(who.0, who.1)
    case Err(e) => Err("Could not get context for " + id + ": " + e)
    case Ok(ctx) => Ok((who.0, who.1, ctx))
  }

  // ---------------------------------------------------------------------
  // Failing

  /** The report of an action that raised after `log` and `calls`. */
  function Fail(log: seq<LogEntry>, calls: seq<Call>, fault: Fault): (r: Report)
    ensures !r.success && r.log == log + [Failed(fault)] && r.calls == calls
    ensures r.outcome.None? && r.damageDealt.None? && r.hpRemaining.None?
  {
    var message := match fault
      case ServiceFault(d) => "Action failed: " + d
      case InternalFault(_) => "Action failed: An unexpected error occurred.";
    Report(false, message, log + [Failed(fault)], None, None, None, calls)
  }

  function Service<T>(r: Result<T>, log: seq<LogEntry>, calls: seq<Call>): (s: Step<T>)
    ensures r.Ok? <==> s.Next?
    ensures s.Next? ==> s.value == r.value
    ensures s.Stop? ==> s.report == Fail(log, calls, ServiceFault(r.error))
  {
    match r
    case Ok(v) => Next(v)
    case Err(e) => Stop(Fail(log, calls, ServiceFault(e)))
  }

  function Internal<T>(r: Result<T>, log: seq<LogEntry>, calls: seq<Call>): (s: Step<T>)
    ensures r.Ok? <==> s.Next?
    ensures s.Next? ==> s.value == r.value
    ensures s.Stop? ==> s.report == Fail(log, calls, InternalFault(r.error))
  {
    match r
    case Ok(v) => Next(v)
    case Err(e) => Stop(Fail(log, calls, InternalFault(e)))
  }

  const NotANumber := "TypeError: unsupported operand type"

  function NumberOf(j: Json, log: seq<LogEntry>, calls: seq<Call>): (s: Step<int>)
    ensures s.Next? <==> Number(j).Some?
    ensures s.Next? ==> s.value == Number(j).value
    ensures s.Stop? ==> s.report == Fail(log, calls, InternalFault(NotANumber))
  {
    match Number(j)
    case Some(n) => Next(n)
    case None => Stop(Fail(log, calls, InternalFault(NotANumber)))
  }

  /** `d[key]` on an object's fields: a missing key raises a KeyError. */
  function Field(fields: seq<(string, Json)>, key: string): (r: Result<Json>)
    ensures r.Ok? <==> HasKey(fields, key)
    ensures r.Ok? ==> Lookup(fields, key) == Some(r.value)
  {
    match Lookup(fields, key)
    case Some(v) => Ok(v)
    case None => Err("KeyError: '" + key + "'")
  }

  // ---------------------------------------------------------------------
  // Before the roll

  /** The armour assumed when the defender wears none. */
  const DefaultArmor: seq<(string, Json)> := [("skill_stat", JStr("Agility")), ("dr", JInt(0)), ("specialty", JStr("None"))]

  /** The skill that goes with a weapon or armour category: a lookup in a
      small table with "Unknown Skill" as the default; a list or dict as
      the category is unhashable and raises. */
  function SkillFor(table: map<string, string>, category: Json): (r: Result<string>)
    ensures r.Ok? <==> !category.JArr? && !category.JObj?
    ensures category.JStr? && category.s in table ==> r == Ok(table[category.s])
    ensures r.Ok? && !(category.JStr? && category.s in table) ==> r.value == "Unknown Skill"
  {
    match category
    case JStr(c) => Ok(if c in table then table[c] else "Unknown Skill")
    case JArr(_) => Err("TypeError: unhashable type: 'list'")
    case JObj(_) => Err("TypeError: unhashable type: 'dict'")
    case _ => Ok("Unknown Skill")
  }

  const WeaponSkills := map["Precision Blades" := "Dueling Blades"]
  const ArmorSkills := map["Leather/Hides" := "Leather/Hides"]

  /** An NPC target at or below 0 HP (1 when the context has none) cannot
      be attacked again. */
  function StandingCheck(defender: (ActorKind, int, Json), targetId: string, log: seq<LogEntry>): (s: Step<()>)
    ensures s.Stop? ==> !s.report.success && s.report.calls == [] && s.report.damageDealt.None?
    ensures defender.0 == Player ==> s.Next?
    ensures s.Stop? && s.report.log == log ==>
      defender.2.JObj? && Number(Lookup(defender.2.fields, "current_hp").GetOr(JInt(1))).Some? &&
      Number(Lookup(defender.2.fields, "current_hp").GetOr(JInt(1))).value <= 0
  {
    if defender.0 == Player then Next(())
    else
      var hp :- Internal(PyGet(defender.2, "current_hp", JInt(1)), log, []);
      var n :- NumberOf(hp, log, []);
      if n <= 0 then Stop(Report(false, "Target " + targetId + " is already defeated.", log, None, None, None, []))
      else Next(())
  }

  // ---------------------------------------------------------------------
  // Damage

  /** The final damage the rules service reports for hit k: its
      "final_damage", 0 when it gives none. */
  function HitFinal(svc: Services, params: DamageParams, k: nat): int {
    match svc.damage(k, params)
    case Ok(JObj(fields)) => Number(Lookup(fields, "final_damage").GetOr(JInt(0))).GetOr(0)
    case _ => 0
  }

  /** The final damages of hits 0..n-1. */
  function HitFinals(svc: Services, params: DamageParams, n: nat): (r: seq<int>)
    ensures |r| == n && forall k :: 0 <= k < n ==> r[k] == HitFinal(svc, params, k)
  {
    seq(n, k requires 0 <= k < n => HitFinal(svc, params, k))
  }

  datatype Hits = Hits(log: seq<LogEntry>, total: int, details: seq<Json>)

  /** Hit k (counted from 0): the rules service's damage result, from which
      the final damage is added up and two lines are logged. */
  function RollHit(svc: Services, params: DamageParams, k: nat, log: seq<LogEntry>): (s: Step<(seq<LogEntry>, int, Json)>)
    ensures s.Next? ==> s.value.1 == HitFinal(svc, params, k)
    ensures s.Next? ==> |s.value.0| == 2 && s.value.0[0].DamageRoll? && s.value.0[0].hit == k + 1 && s.value.0[1].DrApplied? && s.value.0[1].hit == k + 1
    ensures s.Stop? ==> !s.report.success && s.report.calls == [] && s.report.damageDealt.None? && s.report.hpRemaining.None?
  {
    var result :- Service(svc.damage(k, params), log, []);
    var fields :- Internal(Fields(result), log, []);
    var final :- NumberOf(Lookup(fields, "final_damage").GetOr(JInt(0)), log, []);
    var roll :- Internal(Field(fields, "damage_roll_details"), log, []);
    var statBonus :- Internal(Field(fields, "stat_bonus"), log, []);
    var miscBonus :- Internal(Field(fields, "misc_bonus"), log, []);
    var subtotal :- Internal(Field(fields, "subtotal_damage"), log, []);
    var line := DamageRoll(k + 1, roll, statBonus, miscBonus, subtotal);
    var dr :- Internal(Field(fields, "damage_reduction_applied"), log + [line], []);
    Next(([line, DrApplied(k + 1, dr, final)], final, result))
  }

  /** The damage of hits 1..n, rolled in turn: each hit's final damage is
      added to the total and two lines are logged for it. */
  function RollHits(svc: Services, params: DamageParams, n: nat, log: seq<LogEntry>): (s: Step<Hits>)
    ensures s.Next? ==> s.value.total == Sum(HitFinals(svc, params, n))
    ensures s.Next? ==> |s.value.details| == n && |s.value.log| == |log| + 2 * n && s.value.log[..|log|] == log
    ensures s.Stop? ==> !s.report.success && s.report.calls == [] && s.report.damageDealt.None? && s.report.hpRemaining.None?
  {
    if n == 0 then Next(Hits(log, 0, []))
    else
      match RollHits(svc, params, n - 1, log)
      case Stop(report) => Stop(report)
      case Next(before) =>
      match RollHit(svc, params, n - 1, before.log)
      case Stop(report) => Stop(report)
      case Next(hit) =>
        var finals := HitFinals(svc, params, n);
        assert finals[..n - 1] == HitFinals(svc, params, n - 1);
        assert Sum(finals) == Sum(HitFinals(svc, params, n - 1)) + hit.1;
        var after := before.log + hit.0;
        assert after[..|log|] == log;
        Next(Hits(after, before.total + hit.1, before.details + [hit.2]))
  }

  /** The statuses an NPC is given on a solid hit: "Staggered" is added
      unless it is already there, and nothing else changes. A string is
      searched as a substring and has no `append`; other values raise. */
  function WithStaggered(statuses: Json): (r: Result<Json>)
    ensures statuses.JArr? ==> r.Ok? && r.value.JArr?
    ensures statuses.JArr? ==> multiset(r.value.items)[JStr("Staggered")] == Max(1, multiset(statuses.items)[JStr("Staggered")])
    ensures statuses.JArr? ==> forall x :: x != JStr("Staggered") ==> multiset(r.value.items)[x] == multiset(statuses.items)[x]
    ensures statuses.JArr? ==> statuses.items <= r.value.items
  {
    var present :- PyIn(statuses, "Staggered");
    if present then Ok(statuses)
    else if statuses.JArr? then Ok(JArr(statuses.items + [JStr("Staggered")]))
    else Err("AttributeError: object has no attribute 'append'")
  }

  /** Staggering twice adds the status once. */
  lemma StaggeredOnce(statuses: seq<Json>)
    ensures WithStaggered(WithStaggered(JArr(statuses)).value) == WithStaggered(JArr(statuses))
  {
    var once := WithStaggered(JArr(statuses)).value;
    assert JStr("Staggered") in multiset(once.items);
  }

  /** The roll's "outcome" value as one of the contested attack's
      outcomes; None for any other value. */
  function KindOf(outcome: Json): Option<Outcome> {
    if outcome == JStr("critical_fumble") then Some(CriticalFumble)
    else if outcome == JStr("miss") then Some(Miss)
    else if outcome == JStr("hit") then Some(Hit)
    else if outcome == JStr("solid_hit") then Some(SolidHit)
    else if outcome == JStr("critical_hit") then Some(CriticalHit)
    else None
  }

  /** The outcomes that deal damage. */
  predicate Lands(kind: Option<Outcome>) {
    kind == Some(Hit) || kind == Some(SolidHit) || kind == Some(CriticalHit)
  }

  function HitType(kind: Option<Outcome>): string {
    if kind == Some(SolidHit) then "Solid Hit!"
    else if kind == Some(CriticalHit) then "Critical Hit!"
    else "Hit!"
  }

  /** What was struck and with what: the target and its context, the
      outcome, the weapon's "base_damage", the attacker's stat score and the
      armour's DR. */
  datatype Blow = Blow(
    target: string,
    defender: (ActorKind, int, Json),
    outcome: Json,
    damage: Json,
    stat: Json,
    dr: Json)

  /** The damage request of each hit of a blow whose damage string is `base`. */
  function BlowParams(b: Blow, base: string): DamageParams {
    DamageParams(ParseMultiHit(base).0, b.stat, b.dr)
  }

  /** The target's HP before the damage: a player's "HP" stat (10 when
      absent), an NPC's "current_hp" (0 when absent). */
  function CurrentHp(defender: (ActorKind, int, Json)): Result<Json> {
    if defender.0 == Player then StatScore(defender.2, JStr("HP"))
    else PyGet(defender.2, "current_hp", JInt(0))
  }

  /** A call to another service: an HTTP error stops the action. */
  function Apply(svc: Services, call: Call, log: seq<LogEntry>, calls: seq<Call>): (s: Step<seq<Call>>)
    ensures s.Next? <==> svc.apply(call).None?
    ensures s.Next? ==> s.value == calls + [call]
    ensures s.Stop? ==> s.report == Fail(log, calls, ServiceFault(svc.apply(call).value))
  {
    match svc.apply(call)
    case Some(detail) => Stop(Fail(log, calls, ServiceFault(detail)))
    case None => Next(calls + [call])
  }

  /** The log line of an injury lookup, whose failure is logged and does not
      stop the action. */
  function InjuryLine(injury: Result<Json>): LogEntry {
    match injury
    case Err(e) => InjuryFailed(e)
    case Ok(JObj(fields)) => InjuryApplied(Lookup(fields, "severity_name").GetOr(JNull), Lookup(fields, "effects").GetOr(JArr([])))
    case Ok(_) => InjuryFailed("AttributeError: object has no attribute 'get'")
  }

  /** A solid hit staggers the target; a critical hit looks up a minor
      injury (torso, ribs/lungs, severity 2) and logs its effects. */
  function HitEffects(svc: Services, b: Blow, log: seq<LogEntry>, calls: seq<Call>): (s: Step<(seq<LogEntry>, seq<Call>)>)
    ensures s.Next? ==> |s.value.0| > 0 && !s.value.0[|s.value.0| - 1].TargetDefeated?
    ensures s.Next? ==> |s.value.1| >= |calls| && s.value.1[..|calls|] == calls
    ensures s.Stop? ==> !s.report.success && s.report.damageDealt.None? && s.report.hpRemaining.None?
    requires |log| > 0 && !log[|log| - 1].TargetDefeated?
  {
    if KindOf(b.outcome) == Some(SolidHit) then
      var log := log + [ApplyingStaggered];
      if b.defender.0 == Player then
        var calls :- Apply(svc, StatusCharacter(b.target, "Staggered"), log, calls);
        Next((log, calls))
      else
        var current :- Internal(PyGet(b.defender.2, "status_effects", JArr([])), log, calls);
        var statuses :- Internal(WithStaggered(current), log, calls);
        var calls :- Apply(svc, SetNpcStatuses(b.defender.1, statuses), log, calls);
        Next((log, calls))
    else if KindOf(b.outcome) == Some(CriticalHit) then
      Next((log + [ApplyingInjury, InjuryLine(svc.injury)], calls))
    else
      Next((log, calls))
  }

  /** A solid hit that goes through staggers the target: a player through
      the character service, an NPC by storing its statuses with
      "Staggered" added once. */
  lemma SolidHitStaggers(svc: Services, b: Blow, log: seq<LogEntry>, calls: seq<Call>)
    requires |log| > 0 && !log[|log| - 1].TargetDefeated?
    requires KindOf(b.outcome) == Some(SolidHit) && HitEffects(svc, b, log, calls).Next?
    ensures HitEffects(svc, b, log, calls).value.0 == log + [ApplyingStaggered]
    ensures b.defender.0 == Player ==> HitEffects(svc, b, log, calls).value.1 == calls + [StatusCharacter(b.target, "Staggered")]
    ensures b.defender.0 == Npc ==>
      PyGet(b.defender.2, "status_effects", JArr([])).Ok? && WithStaggered(PyGet(b.defender.2, "status_effects", JArr([])).value).Ok? &&
      HitEffects(svc, b, log, calls).value.1 == calls + [SetNpcStatuses(b.defender.1, WithStaggered(PyGet(b.defender.2, "status_effects", JArr([])).value).value)]
  {
  }

  /** Only a solid hit calls another service after the damage; a critical
      hit's injury lookup is logged, whatever its answer. */
  lemma OnlySolidHitsCall(svc: Services, b: Blow, log: seq<LogEntry>, calls: seq<Call>)
    requires |log| > 0 && !log[|log| - 1].TargetDefeated?
    requires KindOf(b.outcome) != Some(SolidHit)
    ensures HitEffects(svc, b, log, calls).Next? && HitEffects(svc, b, log, calls).value.1 == calls
    ensures KindOf(b.outcome) == Some(CriticalHit) ==> HitEffects(svc, b, log, calls).value.0 == log + [ApplyingInjury, InjuryLine(svc.injury)]
  {
  }

  /** After the damage: the hit's side effects, then the report, which
      names the target defeated when its HP ended at 0 or below. */
  function Aftermath(svc: Services, b: Blow, total: int, newHp: int, log: seq<LogEntry>, calls: seq<Call>): (s: Step<Report>)
    requires |log| > 0 && !log[|log| - 1].TargetDefeated?
    ensures s.Next? ==> s.value.success && s.value.message == HitType(KindOf(b.outcome)) && s.value.outcome == Some(b.outcome)
    ensures s.Next? ==> s.value.damageDealt == Some(total) && s.value.hpRemaining == Some(newHp)
    ensures s.Next? ==> |s.value.log| > 0 && (s.value.log[|s.value.log| - 1] == TargetDefeated(b.target) <==> newHp <= 0)
    ensures s.Next? ==> |s.value.calls| >= |calls| && s.value.calls[..|calls|] == calls
    ensures s.Stop? ==> !s.report.success && s.report.damageDealt.None? && s.report.hpRemaining.None?
  {
    match HitEffects(svc, b, log, calls)
    case Stop(report) => Stop(report)
    case Next(effects) =>
      var log := effects.0 + (if newHp <= 0 then [TargetDefeated(b.target)] else []);
      Next(Report(true, HitType(KindOf(b.outcome)), log, Some(b.outcome), Some(total), Some(newHp), effects.1))
  }

  /** Applying a blow's total damage to a target whose HP reads `current`;
      the HP left is the HP before less the total. */
  function Land(svc: Services, b: Blow, total: int, current: Json, log: seq<LogEntry>): (s: Step<Report>)
    requires |log| > 0
    ensures s.Next? ==> s.value.success && s.value.message == HitType(KindOf(b.outcome)) && s.value.outcome == Some(b.outcome)
    ensures s.Next? ==> s.value.damageDealt == Some(total) && s.value.hpRemaining.Some?
    ensures s.Next? ==> Number(current) == Some(s.value.hpRemaining.value + total)
    ensures s.Next? ==> |s.value.log| > 0 && (s.value.log[|s.value.log| - 1] == TargetDefeated(b.target) <==> s.value.hpRemaining.value <= 0)
    ensures s.Next? ==> |s.value.calls| > 0 && s.value.calls[0] == (if b.defender.0 == Player then DamageCharacter(b.target, total) else SetNpcHp(b.defender.1, s.value.hpRemaining.value))
    ensures s.Stop? ==> !s.report.success && s.report.damageDealt.None? && s.report.hpRemaining.None?
  {
    match Number(current)
    case None => Stop(Fail(log, [], InternalFault(NotANumber)))
    case Some(hp) =>
      var newHp := hp - total;
      var log := log + [ApplyingDamage(total, b.defender.0, b.target, hp, newHp)];
      var call := if b.defender.0 == Player then DamageCharacter(b.target, total) else SetNpcHp(b.defender.1, newHp);
      match svc.apply(call)
      case Some(detail) => Stop(Fail(log, [], ServiceFault(detail)))
      case None => Aftermath(svc, b, total, newHp, log, [call])
  }

  /** A hit: the weapon's damage string is read for "X(xN)", N hits of X
      are rolled, and their total is applied. */
  function Strike(svc: Services, b: Blow, log: seq<LogEntry>): (s: Step<Report>)
    requires Lands(KindOf(b.outcome))
    ensures s.Next? ==> s.value.success && s.value.message == HitType(KindOf(b.outcome)) && s.value.outcome == Some(b.outcome)
    ensures s.Next? ==> s.value.hpRemaining.Some?
    ensures s.Next? ==> b.damage.JStr? && s.value.damageDealt == Some(Sum(HitFinals(svc, BlowParams(b, b.damage.s), ParseMultiHit(b.damage.s).1)))
    ensures s.Stop? ==> !s.report.success && s.report.damageDealt.None? && s.report.hpRemaining.None?
  {
    var log := log + [Struck(HitType(KindOf(b.outcome)))];
    if !b.damage.JStr? then Stop(Fail(log, [], InternalFault("TypeError: expected string or bytes-like object")))
    else match RollHits(svc, BlowParams(b, b.damage.s), ParseMultiHit(b.damage.s).1, log)
      case Stop(report) => Stop(report)
      case Next(hits) =>
        match CurrentHp(b.defender)
        case Err(e) => Stop(Fail(hits.log, [], InternalFault(e)))
        case Ok(current) => Land(svc, b, hits.total, current, hits.log)
  }

  // ---------------------------------------------------------------------
  // The action

  /** Everything fetched before the roll: both actors, the attacker's
      weapon, the defender's armour category and the two rules records. */
  datatype Setup = Setup(
    attacker: (ActorKind, int, Json),
    defender: (ActorKind, int, Json),
    weapon: (Json, Json),
    armorCategory: Json,
    weaponData: seq<(string, Json)>,
    armorData: seq<(string, Json)>)

  /** `get_weapon_data` accepts only these two weapon types. */
  predicate IsWeaponType(t: Json) {
    t == JStr("melee") || t == JStr("ranged")
  }

  /** What `get_weapon_data` raises, before any request, for another type. */
  const InvalidWeaponType := "ValueError: Invalid weapon_type specified. Use 'melee' or 'ranged'."

  /** Fetching the actors, refusing a defeated NPC target or an attacker
      without a weapon, and fetching the weapon and armour records. */
  function Prepare(svc: Services, actorId: string, targetId: string): (s: Step<Setup>)
    ensures s.Stop? ==> !s.report.success && s.report.damageDealt.None? && s.report.hpRemaining.None? && s.report.calls == []
    ensures s.Next? ==> Truthy(s.value.weapon.0) && IsWeaponType(s.value.weapon.1)
    ensures s.Next? ==> ActorContext(svc, actorId) == Ok(s.value.attacker) && ActorContext(svc, targetId) == Ok(s.value.defender)
  {
    var attacker :- Service(ActorContext(svc, actorId), [], []);
    var defender :- Service(ActorContext(svc, targetId), [], []);
    var log := [Targeting(actorId, targetId)];
    var _ :- StandingCheck(defender, targetId, log);
    var weapon :- Internal(EquippedWeapon(attacker.2), log, []);
    var armorCategory :- Internal(EquippedArmor(defender.2), log, []);
    if !Truthy(weapon.0) || !Truthy(weapon.1) then Stop(Report(false, actorId + " has no weapon equipped?", log, None, None, None, []))
    else
      var weaponData :- if IsWeaponType(weapon.1) then Service(svc.weapon(weapon.0, weapon.1), log, [])
                        else Stop(Fail(log, [], InternalFault(InvalidWeaponType)));
      var armorData :- if Truthy(armorCategory) then Service(svc.armor(armorCategory), log, []) else Next(JObj(DefaultArmor));
      var weaponFields :- Internal(Fields(weaponData), log, []);
      var armorFields :- Internal(Fields(armorData), log, []);
      Next(Setup(attacker, defender, weapon, armorCategory, weaponFields, armorFields))
  }

  /** The contested roll: its result record, the attacker's stat score
      (reused for damage), and the log with the roll's line added. */
  function RollAttack(svc: Services, st: Setup, log: seq<LogEntry>): (s: Step<(seq<(string, Json)>, Json, seq<LogEntry>)>)
    ensures s.Stop? ==> !s.report.success && s.report.damageDealt.None? && s.report.hpRemaining.None? && s.report.calls == []
    ensures s.Next? ==> |s.value.2| == |log| + 1 && s.value.2[..|log|] == log && s.value.2[|log|].AttackRoll?
  {
    var attackStat := Lookup(st.weaponData, "skill_stat").GetOr(JNull);
    var armorStat := Lookup(st.armorData, "skill_stat").GetOr(JNull);
    var weaponSkill :- Internal(SkillFor(WeaponSkills, st.weapon.0), log, []);
    var armorSkill :- Internal(SkillFor(ArmorSkills, st.armorCategory), log, []);
    var attackerStat :- Internal(StatScore(st.attacker.2, attackStat), log, []);
    var attackerSkill :- Internal(SkillRank(st.attacker.2, weaponSkill), log, []);
    var defenderStat :- Internal(StatScore(st.defender.2, armorStat), log, []);
    var defenderSkill :- Internal(SkillRank(st.defender.2, armorSkill), log, []);
    var penalty := Lookup(st.weaponData, "defense_penalty").GetOr(JInt(0));
    var rolled :- Service(svc.attack(AttackParams(attackerStat, attackerSkill, defenderStat, defenderSkill, penalty)), log, []);
    var fields :- Internal(Fields(rolled), log, []);
    var attackerTotal :- Internal(Field(fields, "attacker_final_total"), log, []);
    var defenderTotal :- Internal(Field(fields, "defender_final_total"), log, []);
    var margin :- Internal(Field(fields, "margin"), log, []);
    Next((fields, attackerStat, log + [AttackRoll(attackerTotal, defenderTotal, margin)]))
  }

  /** Acting on the roll's "outcome": a fumble or a miss ends the action
      successfully, a hit strikes, anything else is a failure. */
  function Resolve(svc: Services, st: Setup, targetId: string, rolled: seq<(string, Json)>, stat: Json, log: seq<LogEntry>): (s: Step<Report>)
    ensures s.Next? && s.value.success ==> s.value.outcome == Some(Lookup(rolled, "outcome").GetOr(JNull)) && KindOf(s.value.outcome.value).Some?
    ensures s.Next? && s.value.success ==> (s.value.damageDealt.Some? <==> Lands(KindOf(s.value.outcome.value)))
    ensures s.Next? && s.value.damageDealt.Some? ==> s.value.hpRemaining.Some?
    ensures s.Next? && !s.value.success ==> s.value.damageDealt.None? && s.value.outcome == Some(Lookup(rolled, "outcome").GetOr(JNull)) && KindOf(s.value.outcome.value).None?
    ensures s.Stop? ==> !s.report.success && s.report.damageDealt.None? && s.report.hpRemaining.None?
  {
    var outcome := Lookup(rolled, "outcome").GetOr(JNull);
    var kind := KindOf(outcome);
    if kind == Some(CriticalFumble) then Next(Report(true, "Critical Fumble!", log + [Fumbled], Some(outcome), None, None, []))
    else if kind == Some(Miss) then Next(Report(true, "Miss!", log + [Missed], Some(outcome), None, None, []))
    else if Lands(kind) then
      var damage := Lookup(st.weaponData, "base_damage").GetOr(JStr("0"));
      var dr := Lookup(st.armorData, "dr").GetOr(JInt(0));
      Strike(svc, Blow(targetId, st.defender, outcome, damage, stat, dr), log)
    else Next(Report(false, "Unknown attack outcome.", log, Some(outcome), None, None, []))
  }

  /** `execute_combat_action`: only "attack" is implemented, and an attack
      needs a target; the report of a successful action names its outcome,
      and damage is reported exactly for the hits. */
  function ExecuteAction(svc: Services, actorId: string, action: string, targetId: Option<string>): (r: Report)
    ensures action != "attack" || targetId.None? || targetId.value == "" ==> !r.success && r.log == [] && r.calls == []
    ensures r.success ==> r.outcome.Some? && KindOf(r.outcome.value).Some?
    ensures r.damageDealt.Some? <==> r.success && r.outcome.Some? && Lands(KindOf(r.outcome.value))
    ensures r.damageDealt.Some? ==> r.hpRemaining.Some?
  {
    if action != "attack" then Report(false, "Action type '" + action + "' not yet implemented.", [], None, None, None, [])
    else if targetId.None? || targetId.value == "" then Report(false, "Attack action requires a target_id.", [], None, None, None, [])
    else
      var target := targetId.value;
      match Prepare(svc, actorId, target)
      case Stop(report) => report
      case Next(st) =>
      match RollAttack(svc, st, [Targeting(actorId, target)])
      case Stop(report) => report
      case Next(roll) =>
      match Resolve(svc, st, target, roll.0, roll.1, roll.2)
      case Stop(report) => report
      case Next(report) => report
  }

  /** An attacker whose weapon type is neither "melee" nor "ranged" makes
      the weapon lookup raise before any request, and the action ends in
      the unexpected-error report, whatever the rules service holds. */
  lemma UnknownWeaponTypeRaises(svc: Services, actorId: string, targetId: string,
                                attacker: (ActorKind, int, Json), defender: (ActorKind, int, Json))
    requires targetId != ""
    requires ActorContext(svc, actorId) == Ok(attacker) && ActorContext(svc, targetId) == Ok(defender)
    requires StandingCheck(defender, targetId, [Targeting(actorId, targetId)]).Next?
    requires EquippedWeapon(attacker.2).Ok? && Truthy(EquippedWeapon(attacker.2).value.0)
    requires Truthy(EquippedWeapon(attacker.2).value.1) && !IsWeaponType(EquippedWeapon(attacker.2).value.1)
    requires EquippedArmor(defender.2).Ok?
    ensures ExecuteAction(svc, actorId, "attack", Some(targetId))
            == Fail([Targeting(actorId, targetId)], [], InternalFault(InvalidWeaponType))
    ensures ExecuteAction(svc, actorId, "attack", Some(targetId)).message == "Action failed: An unexpected error occurred."
  {
    PrepareRejectsWeaponType(svc, actorId, targetId, attacker, defender);
  }

  lemma PrepareRejectsWeaponType(svc: Services, actorId: string, targetId: string,
                                 attacker: (ActorKind, int, Json), defender: (ActorKind, int, Json))
    requires ActorContext(svc, actorId) == Ok(attacker) && ActorContext(svc, targetId) == Ok(defender)
    requires StandingCheck(defender, targetId, [Targeting(actorId, targetId)]).Next?
    requires EquippedWeapon(attacker.2).Ok? && Truthy(EquippedWeapon(attacker.2).value.0)
    requires Truthy(EquippedWeapon(attacker.2).value.1) && !IsWeaponType(EquippedWeapon(attacker.2).value.1)
    requires EquippedArmor(defender.2).Ok?
    ensures Prepare(svc, actorId, targetId) == Stop(Fail([Targeting(actorId, targetId)], [], InternalFault(InvalidWeaponType)))
  {
    var log := [Targeting(actorId, targetId)];
    assert Service(ActorContext(svc, actorId), [], []) == Next(attacker);
    assert Service(ActorContext(svc, targetId), [], []) == Next(defender);
    assert Internal(EquippedWeapon(attacker.2), log, []) == Next(EquippedWeapon(attacker.2).value);
    assert Internal(EquippedArmor(defender.2), log, []) == Next(EquippedArmor(defender.2).value);
  }

  /** An NPC target whose HP is already 0 or below is refused before any
      equipment is read or any service changed. */
  lemma DefeatedNpcRefused(svc: Services, actorId: string, targetId: string, npc: int, fields: seq<(string, Json)>)
    ensures (&& ActorContext(svc, actorId).Ok?
             && ActorContext(svc, targetId) == Ok((Npc, npc, JObj(fields)))
             && Number(Lookup(fields, "current_hp").GetOr(JInt(1))).Some?
             && Number(Lookup(fields, "current_hp").GetOr(JInt(1))).value <= 0)
            ==> ExecuteAction(svc, actorId, "attack", Some(targetId))
                == Report(false, "Target " + targetId + " is already defeated.", [Targeting(actorId, targetId)], None, None, None, [])
  {
    if ActorContext(svc, targetId).Ok? {
      assert |targetId| > 0;
    }
  }

  // ---------------------------------------------------------------------
  // A player's context, as written

  /** What `get_character_context` raises when it is handed the numeric id
      instead of the "player_<n>" string. */
  const SplitOnInt := "AttributeError: 'int' object has no attribute 'split'"

  /** The handler's own report of an error it did not expect. */
  function UnexpectedFailure(): (r: Report)
    ensures !r.success && r.message == "Action failed: An unexpected error occurred." && r.calls == []
  {
    Fail([], [], InternalFault(SplitOnInt))
  }

  /** `get_actor_context` as written: a "player_<n>" id passes the number
      `n` on, where the character service splits a string, so fetching a
      player raises an error the handler does not catch; an NPC is fetched
      as intended. */
  function FetchAsWritten(svc: Services, id: string): (s: Step<(ActorKind, int, Json)>)
    ensures ParseActorId(id).Ok? && ParseActorId(id).value.0 == Player ==> s == Stop(UnexpectedFailure())
    ensures !(ParseActorId(id).Ok? && ParseActorId(id).value.0 == Player) ==> s == Service(ActorContext(svc, id), [], [])
  {
    match ParseActorId(id)
    case Ok((Player, _)) => Stop(UnexpectedFailure())
    case _ => Service(ActorContext(svc, id), [], [])
  }

  /** `execute_combat_action` as written: the two actors are fetched as
      written; once both are NPCs everything goes on as intended. */
  function ExecuteActionAsWritten(svc: Services, actorId: string, action: string, targetId: Option<string>): (r: Report)
    ensures action != "attack" || targetId.None? || targetId.value == "" ==> r == ExecuteAction(svc, actorId, action, targetId)
  {
    if action != "attack" || targetId.None? || targetId.value == "" then ExecuteAction(svc, actorId, action, targetId)
    else
      match FetchAsWritten(svc, actorId)
      case Stop(report) => report
      case Next(_) =>
        match FetchAsWritten(svc, targetId.value)
        case Stop(report) => report
        case Next(_) => ExecuteAction(svc, actorId, action, targetId)
  }

  predicate IsPlayerId(id: string) {
    ParseActorId(id).Ok? && ParseActorId(id).value.0 == Player
  }

  /** As written, an attack by a player, or on a player by an actor that
      could be fetched, always ends in the unexpected-error report. */
  lemma PlayerAttackFailsAsWritten(svc: Services, actorId: string, targetId: string)
    requires targetId != ""
    requires IsPlayerId(actorId) || (IsPlayerId(targetId) && ActorContext(svc, actorId).Ok?)
    ensures ExecuteActionAsWritten(svc, actorId, "attack", Some(targetId)) == UnexpectedFailure()
  {
  }

  /** The services of a table where both actors are known but the
      attacker's weapon is not in the rules data. */
  function UnknownWeaponTable(): Services {
    Services((k: ActorKind, n: int) => Ok(JObj([])), (c: Json, t: Json) => Err("Weapon not found"),
             (c: Json) => Err("Armor not found"), (p: AttackParams) => Err("unused"),
             (k: nat, p: DamageParams) => Err("unused"), (c: Call) => None, Err("unused"))
  }

  /** The intended handler gets past the fetch: player 1 attacking NPC 2
      reaches the weapon lookup and reports its error, where the code as
      written reports the unexpected error. */
  lemma PlayerAttackIntended()
    ensures ExecuteActionAsWritten(UnknownWeaponTable(), "player_1", "attack", Some("npc_2")) == UnexpectedFailure()
    ensures ExecuteAction(UnknownWeaponTable(), "player_1", "attack", Some("npc_2"))
            == Fail([Targeting("player_1", "npc_2")], [], ServiceFault("Weapon not found"))
  {
    var svc := UnknownWeaponTable();
    KnownActors();
    PlayerAttackFailsAsWritten(svc, "player_1", "npc_2");
    UnknownWeaponStops();
  }

  lemma KnownActors()
    ensures ActorContext(UnknownWeaponTable(), "player_1") == Ok((Player, 1, JObj([])))
    ensures ActorContext(UnknownWeaponTable(), "npc_2") == Ok((Npc, 2, JObj([])))
    ensures IsPlayerId("player_1")
  {
    ParseActorIdRoundTrip(Player, 1);
    ParseActorIdRoundTrip(Npc, 2);
    assert ActorId(Player, 1) == "player_1";
    assert ActorId(Npc, 2) == "npc_2";
  }

  lemma UnknownWeaponStops()
    ensures Prepare(UnknownWeaponTable(), "player_1", "npc_2")
            == Stop(Fail([Targeting("player_1", "npc_2")], [], ServiceFault("Weapon not found")))
  {
    var svc := UnknownWeaponTable();
    var log := [Targeting("player_1", "npc_2")];
    KnownActors();
    DefaultsOfEmptyContext(log);
    assert Truthy(JStr("Great Weapons")) && Truthy(JStr("melee"));
    assert Service(svc.weapon(JStr("Great Weapons"), JStr("melee")), log, []) == Stop(Fail(log, [], ServiceFault("Weapon not found")));
  }

  /** An NPC with an empty context is standing, and an empty context wears
      and wields the defaults. */
  lemma DefaultsOfEmptyContext(log: seq<LogEntry>)
    ensures StandingCheck((Npc, 2, JObj([])), "npc_2", log) == Next(())
    ensures EquippedWeapon(JObj([])) == Ok((JStr("Great Weapons"), JStr("melee")))
    ensures EquippedArmor(JObj([])) == Ok(JStr("Plate Armor"))
  {
    assert PyGet(JObj([]), "current_hp", JInt(1)) == Ok(JInt(1));
  }

  /** When neither actor is a player the code as written and the intended
      handler agree. */
  lemma AsWrittenAgreesOnNpcs(svc: Services, actorId: string, action: string, targetId: Option<string>)
    requires !IsPlayerId(actorId) && (targetId.Some? ==> !IsPlayerId(targetId.value))
    ensures ExecuteActionAsWritten(svc, actorId, action, targetId) == ExecuteAction(svc, actorId, action, targetId)
  {
  }
}

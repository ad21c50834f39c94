# A verified model of the ttrpgai rule cores

This project models, in Dafny, the deterministic rule cores of the ttrpgai
tabletop role-playing system and proves what they promise. The system is a
set of FastAPI services (rules engine, character engine, story engine,
encounter, map and NPC generators) and a React player client. Dice rolls,
random choices and the answers of other services are parameters of the
model, so each operation is a pure function of its inputs.

The modules follow the system's structure:

- `Rules`, `Requests`, `Lookups`, `Talents`: the rules engine's arithmetic
  (modifiers, mastery bonus, dice strings, the contested attack, damage
  after damage reduction, initiative, skill and ability checks, base
  vitals), its request validators, its data lookups and its talent finder.
- `LegacyRules`: the older stand-alone rules engine, with its table of
  ability DCs and its "Constitution" read as "Vitality".
- `Loaders`, `Validator`: the three loaders' rules-data transforms and the
  structural validator of the rules data.
- `CombatHandler`, `CombatAction`: the story engine's turn order and its
  attack resolution. `Interaction` covers its door and pickup handler.
- `CharacterServices`, `CharacterMain`: the character engine's stat
  modifications, its character creation and context fallbacks, its
  skill-experience counter (SRE) with rank-up and the diff of newly
  unlocked talents, and its input guards.
- `EncounterGenerator`, `MapGenerator`, `NpcGenerator`: tag matching and
  response shaping in the three generators.
- `CombatScreen`, `CharacterCreation`, `AssetLoader`: the player client's
  combat controller, character-creation wizard and sprite lookup, each as
  pure transitions.
- `Wrappers`, `Text`, `Json`, `Assoc`: shared helpers. These are `Option`
  and `Result`, ASCII string operations, a small JSON value type, and the
  "assign each item under its key" pattern the loaders use.

The client combat screens advance the turn locally, as `(turn + 1) mod n`
after each refresh. They never read a turn index back from the server, and
they resolve no NPC turns.

One dice-string parser, `Rules.ParseDice`, serves both the core's
`parse_dice_string` and the request validator's dice check;
`Requests.ValidateDiceString` states that the validator accepts exactly
the strings the parser accepts.

## Model

| member | source | states |
|---|---|---|
| Rules.Modifier | AI-TTRPG/rules_engine/app/core.py:11-17 | the modifier is the floor of (score − 10) / 2: twice the modifier is at most score − 10 and less than two below it |
| Rules.ModifierExamples | AI-TTRPG/rules_engine/app/core.py:11-17 | scores 10 and 11 give 0, 9 and 8 give −1, 12 gives 1, 20 gives 5 and 1 gives −5 |
| Rules.ModifierMonotone | AI-TTRPG/rules_engine/app/core.py:11-17 | a higher score never gives a lower modifier |
| Rules.ModifierStep | AI-TTRPG/rules_engine/app/core.py:11-17 | two more points of score give exactly one more point of modifier |
| Rules.MasteryBonus | AI-TTRPG/rules_engine/app/core.py:21-30 | a negative rank gives 0; otherwise the bonus is the floor of rank / 3 |
| Rules.MasteryBonusMonotone | AI-TTRPG/rules_engine/app/core.py:21-30 | the mastery bonus never decreases as the rank grows |
| Rules.ParseDiceExact | AI-TTRPG/rules_engine/app/core.py:40-51 | a dice string is accepted exactly when it is "0" or `<digits>d<digits>` with a lower-case d; "0" gives (0, 0) and the shape gives the two decimal values |
| Rules.DiceShapeAccepted | AI-TTRPG/rules_engine/app/core.py:44-51 | every `<digits>d<digits>` string parses to its two decimal values |
| Rules.DiceShapeOfAccepted | AI-TTRPG/rules_engine/app/core.py:44-51 | every accepted string other than "0" has the `<digits>d<digits>` shape, with the d where the presence check found it |
| Rules.ParseDiceRejectsEmptyCounts | AI-TTRPG/rules_engine/app/core.py:47-49 | "d6" and "2d" are rejected: neither count may be empty |
| Rules.ParseDiceRejectsUpperCase | AI-TTRPG/rules_engine/app/core.py:44-45 | "2D6" is rejected, because the d presence check runs before lower-casing |
| Rules.ParseDiceExample | AI-TTRPG/rules_engine/app/core.py:40-51 | "2d6" parses to two six-sided dice |
| Rules.ContestedAttack | AI-TTRPG/rules_engine/app/core.py:59-104 | each final total is the d20 plus stat modifier plus mastery bonus plus the side's bonuses less its penalties (the weapon penalty counts against the defender); the margin is their difference; a natural 1 is a critical fumble, a natural 20 a critical hit, otherwise a solid hit iff margin ≥ 5, a hit iff 0 ≤ margin < 5, a miss iff margin < 0 |
| Rules.ClassifyMonotone | AI-TTRPG/rules_engine/app/core.py:89-95 | for the same attacker roll a larger margin never gives a worse outcome |
| Rules.AttackMonotone | AI-TTRPG/rules_engine/app/core.py:59-95 | a better attacking stat or skill rank never lowers the margin or worsens the outcome of the same rolls |
| Rules.Damage | AI-TTRPG/rules_engine/app/core.py:106-149 | an unparsable dice string gives the all-zero response; otherwise one roll per die, the roll total is their sum, and the subtotal adds the stat modifier and the net bonus; the final damage is never negative, final damage plus DR applied equals the subtotal, the final damage is 0 iff the subtotal does not exceed the effective DR max(0, base DR − DR modifier), and the DR applied is the lesser of the subtotal and that effective DR, so the final damage is the subtotal less the effective DR when it exceeds it; the response reports the stat modifier and the net bonus |
| Rules.DamageMonotoneInDr | AI-TTRPG/rules_engine/app/core.py:137-140 | more base DR never increases the final damage |
| Rules.Initiative | AI-TTRPG/rules_engine/app/core.py:151-182 | the six itemised modifiers are those of Endurance, Agility, Fortitude, Logic, Intuition and Willpower in that order, and the total is the roll plus their sum |
| Rules.InitiativeOfAverage | AI-TTRPG/rules_engine/app/core.py:151-182 | with every score 10 the initiative equals the d20 |
| Rules.InitiativeMonotone | AI-TTRPG/rules_engine/app/core.py:151-182 | higher scores never lower the initiative for the same roll |
| Rules.SkillCheck | AI-TTRPG/rules_engine/app/core.py:186-199 | success iff roll + stat modifier + rank reaches the DC; critical success iff 20, critical failure iff 1, SRE triggered iff either |
| Rules.SkillCheckMonotone | AI-TTRPG/rules_engine/app/core.py:189-190 | a higher rank never turns a success into a failure |
| Rules.AbilityDc | AI-TTRPG/rules_engine/app/core.py:203-206 | the DC is one of 12, 14, 16, 20; it is 12 iff the tier is at most 3 and 20 iff the tier exceeds 9 |
| Rules.AbilityDcMonotone | AI-TTRPG/rules_engine/app/core.py:203-206 | a higher tier never has a lower DC |
| Rules.AbilityCheck | AI-TTRPG/rules_engine/app/core.py:201-218 | roll + rank + stat modifier against the tiered DC; success iff the total reaches the DC; an ability check never triggers SRE |
| Rules.BaseVitals | AI-TTRPG/rules_engine/app/core.py:376-407 | max HP is max(1, 5 + Vitality + Endurance modifier), so at least 1; the six pools are Presence, Stamina, Chi, Guile, Tactics, Instinct, each starting full at 5 + the modifier of its stat; a missing stat counts as 10 |
| Rules.BaseVitalsOfEmpty | AI-TTRPG/rules_engine/app/core.py:384-398 | with no stats max HP is 15 and every pool is 5 |
| Rules.BaseVitalsMonotone | AI-TTRPG/rules_engine/app/core.py:384-387 | raising Vitality never lowers max HP |
| Requests.ValidateWeaponPenalty | AI-TTRPG/rules_engine/app/models.py:250-254 | the weapon penalty is accepted, unchanged, iff it is not positive |
| Requests.ValidateDiceString | AI-TTRPG/rules_engine/app/models.py:333-339 | the dice field is accepted iff it is "0" or `<digits>d<digits>`, the same strings the rules core accepts, and it is kept as given |
| Requests.ValidateNonNegative | AI-TTRPG/rules_engine/app/models.py:341-345 | a DR field is accepted, unchanged, iff it is not negative |
| Requests.MakeAttackRequest | AI-TTRPG/rules_engine/app/models.py:214-254 | a contested-attack request is built, unchanged, iff its weapon penalty is not positive |
| Requests.MakeDamageRequest | AI-TTRPG/rules_engine/app/models.py:307-345 | a damage request is built, unchanged, iff its dice string parses and neither the base DR nor the DR modifier is negative |
| Requests.AcceptedDamageRolls | AI-TTRPG/rules_engine/app/models.py:307-345 | an accepted damage request rolls one die per parsed die and never applies more DR than the armour's base DR |
| Requests.ValidateSeverity | AI-TTRPG/rules_engine/app/models.py:381-383 | an injury severity is accepted iff it lies in 1..5 |
| Requests.ValidateTier | AI-TTRPG/rules_engine/app/models.py:139 | an ability tier is accepted iff it lies in 1..10 |
| Requests.AcceptedTierDc | AI-TTRPG/rules_engine/app/models.py:139 | over the accepted tiers the DC lies between 12 and 20 and is 20 exactly at tier 10 |
| Requests.ValidateStats | AI-TTRPG/rules_engine/app/models.py:429-436 | the stats are accepted iff there are at least twelve and Vitality and Endurance are among them |
| Requests.AcceptedStatsHp | AI-TTRPG/rules_engine/app/models.py:429-436 | for accepted stats max HP reads the given Vitality and Endurance, never the default 10 |
| Assoc.Index | rules_engine/data_loader.py:52-57 | the keys of a dictionary built by assigning `d[key(x)] = val(x)` item by item are exactly the keys of the items that have one |
| Assoc.IndexLastWins | rules_engine/data_loader.py:52-57 | the value stored under a key is that of the last item with that key: later items overwrite earlier ones |
| Assoc.IndexValues | rules_engine/data_loader.py:52-57 | every stored value is the value of some item with that key |
| Loaders.CorrectList | AI-TTRPG/rules_engine/data_loader.py:39 | the stat list keeps its length and order; every "Constitution" becomes "Vitality", every other entry is kept, and no "Constitution" remains |
| Loaders.CorrectMods | AI-TTRPG/rules_engine/data_loader.py:31-43 | a non-dict is returned unchanged; a dict keeps its keys in order, its list values are renamed and its other values kept |
| Loaders.CorrectModsIdempotent | AI-TTRPG/rules_engine/data_loader.py:31-43 | correcting twice is the same as correcting once |
| Loaders.CorrectModsRemovesConstitution | AI-TTRPG/rules_engine/data_loader.py:31-43 | after correction no stat list of the mods names "Constitution" |
| Loaders.LegacyCorrectMods | rules_engine/data_loader.py:43-47 | the older correction succeeds iff the mods are a dict of lists, and then agrees with the package loader's correction |
| Loaders.KingdomFeatures | AI-TTRPG/rules_engine/app/data_loader.py:49-53 | the features of a category are exactly the dict items of its list-valued kingdom entries |
| Loaders.CategoryFeatures | AI-TTRPG/rules_engine/app/data_loader.py:46-53 | the candidate features are exactly those of the dict-valued categories; other categories are skipped |
| Loaders.FeatureCandidates | AI-TTRPG/rules_engine/app/data_loader.py:42-44 | a kingdom-features document that is not a dict has no features |
| Loaders.WithCorrectedMods | AI-TTRPG/rules_engine/data_loader.py:63-64 | a feature with mods keeps its keys and every other field, and its mods are corrected; a feature without mods is stored as it is |
| Loaders.AppFeatureMap | AI-TTRPG/rules_engine/app/data_loader.py:38-60 | the flat map's keys are exactly the names of the named dict features |
| Loaders.PackageFeatureMap | AI-TTRPG/rules_engine/data_loader.py:47-67 | the same keys as the app loader's map; a document that is not a dict gives the empty map |
| Loaders.FeatureMapLastWins | AI-TTRPG/rules_engine/data_loader.py:62-65 | a later feature of the same name overwrites an earlier one; the package loader stores the feature with corrected mods where the app loader stores it as it is |
| Loaders.FeatureMapKeyIsName | AI-TTRPG/rules_engine/app/data_loader.py:54-56 | every stored feature is found under its own name |
| Loaders.LegacyCandidates | rules_engine/data_loader.py:49-53 | where the older loader does not raise, it visits the same features as the newer loaders |
| Loaders.LegacyFix | rules_engine/data_loader.py:56 | where the older loader's mods fix does not raise, the feature has mods and is stored with them corrected |
| Loaders.LegacyFeatureMap | rules_engine/data_loader.py:34-57 | where the older `_process_kingdom_features` does not raise, it builds exactly the package loader's map |
| Loaders.LegacyEntriesAgree | rules_engine/data_loader.py:52-57 | the older loader's (name, feature) assignments are the named candidates with corrected mods, in order |
| Loaders.IndexOfNamed | rules_engine/data_loader.py:52-57 | assigning the named entries one by one builds the map keyed by feature name |
| Loaders.PackageSkills | AI-TTRPG/rules_engine/data_loader.py:69-93 | no stats give the empty triple; otherwise the stats and categories are returned as given and the mapped skills are exactly the skills listed in list-valued categories |
| Loaders.PackageSkillsListed | AI-TTRPG/rules_engine/data_loader.py:80-88 | every skill listed in a list-valued category is mapped |
| Loaders.PackageSkillsOnlyListed | AI-TTRPG/rules_engine/data_loader.py:80-90 | only listed skills are mapped; categories that are not lists contribute none |
| Loaders.PackageSkillStat | AI-TTRPG/rules_engine/data_loader.py:82-88 | the skill at position i of its category (its last listing) records that category and `stats_list[i % len(stats_list)]` |
| Loaders.LegacySkills | rules_engine/data_loader.py:61-80 | the older `_process_skills` succeeds iff every position modulo 12 indexes the stat list, so always with at least twelve stats, and then maps exactly the listed skills |
| Loaders.LegacySkillStat | rules_engine/data_loader.py:74-78 | the skill at position i of its category (its last listing) is governed by the stat at position i modulo 12, in its own category |
| Loaders.LegacySkillsAgree | rules_engine/data_loader.py:73-79 | with exactly twelve stats the older loader assigns every skill the same category and stat as the package loader |
| Loaders.DictSlots | AI-TTRPG/rules_engine/app/data_loader.py:76-78 | the (skill, governing stat) pairs visited are exactly those of the dict-valued categories, each with its category |
| Loaders.AppSkills | AI-TTRPG/rules_engine/app/data_loader.py:63-92 | no stats give the empty triple; otherwise the mapped skills are exactly those whose governing stat is in the stat list |
| Loaders.AppSkillsKnownStats | AI-TTRPG/rules_engine/app/data_loader.py:76-85 | every kept skill records a category it is listed under and a governing stat from the stat list |
| Lookups.FeatureStatsOf | AI-TTRPG/rules_engine/app/core.py:222-233 | an empty map and an unknown feature raise; a found feature succeeds iff it is a dict whose "name" (the query when absent) is a string and whose "mods" ({} when absent) is a dict of string lists, and then reports exactly those values |
| Lookups.FeatureStatsDefaults | AI-TTRPG/rules_engine/core.py:53-64 | a feature stored without a name or mods reports the name it was looked up by and no mods |
| Lookups.StringLists | AI-TTRPG/rules_engine/app/models.py:170-172 | a JSON value is accepted as `Dict[str, List[str]]` iff it is a dict whose every value is a list of strings, and then yields those lists under their keys, in order |
| Lookups.FeatureStatsRoundTrip | AI-TTRPG/rules_engine/app/core.py:222-233 | a feature stored with its name and mods is read back as it was stored |
| Lookups.SkillsByCategory | AI-TTRPG/rules_engine/core.py:66-70 | the category map is returned unchanged, and an empty map raises |
| Lookups.SkillForCategory | AI-TTRPG/rules_engine/app/core.py:242-248 | an empty map or an unknown category raises; otherwise the result is the value stored under the category |
| Lookups.AsStrings | AI-TTRPG/rules_engine/app/models.py:396-412 | a JSON list is accepted as a list of strings iff every item is a string, and then yields those strings in order |
| Lookups.FindCaseless | AI-TTRPG/rules_engine/app/core.py:257-261 | the case-insensitive search finds the first key equal to the name ignoring case, and finds none iff no key matches |
| Lookups.StatusEffectOf | AI-TTRPG/rules_engine/app/core.py:251-283 | no matching key is an error; it succeeds iff the first case-insensitive match is a non-empty dict whose fields fit the response (string name, description, type and duration type, a list of strings for effects, an integer or null default duration), and then reports each field, defaulting to the key, "No description.", [], "unknown", "condition" and no default duration |
| Lookups.StatusEffectRoundTrip | AI-TTRPG/rules_engine/app/core.py:251-283 | a status effect stored with all its fields is read back as it was stored, looked up in any case |
| Lookups.StatusEffectIgnoresCase | AI-TTRPG/rules_engine/app/core.py:257-279 | a key matching the name in another case is found, and the fields it lacks take their defaults |
| Lookups.StatusEffectEmptyEntry | AI-TTRPG/rules_engine/app/core.py:263-264 | a matching key whose value is empty counts as not found |
| Lookups.InjuryEffectsOf | AI-TTRPG/rules_engine/app/core.py:285-303 | an unknown location raises; it succeeds iff the location, the sub-location and the key `str(severity)` are each present, dict-valued and non-empty and the severity's name is a string and its effects a list of strings, and then reports that name ("Unknown" when absent) and those effects ([] when absent) |
| Lookups.InjuryRoundTrip | AI-TTRPG/rules_engine/app/core.py:285-303 | an injury stored under its location, sub-location and severity is read back as it was stored |
| Lookups.InjurySeverityKey | AI-TTRPG/rules_engine/app/core.py:295-303 | severity 3 is read from the key "3", and the missing effects default to none |
| Talents.Emit | AI-TTRPG/rules_engine/app/core.py:322-333 | a talent loop reports at most one talent per candidate, reports every unlocked candidate, and reports nothing else |
| Talents.EmitMonotone | AI-TTRPG/rules_engine/app/core.py:322-333 | loosening the unlock test only adds talents |
| Talents.FindEligible | AI-TTRPG/rules_engine/app/core.py:305-372 | empty talent data, an empty stat list or an empty skill map give no talents; otherwise the unlocked stat talents, then the unlocked dual-stat talents, then the unlocked skill talents, at most one per candidate |
| Talents.FindEligibleMembers | AI-TTRPG/rules_engine/app/core.py:314-372 | a talent is reported iff it unlocks: a stat talent with a named stat whose listed score reaches its score; a dual talent with exactly two paired stats both reaching its score (99 by default); a skill talent of a group whose skill is in the skill map and whose rank reaches the tier's rank |
| Talents.StatTalentsMembers | AI-TTRPG/rules_engine/app/core.py:322-333 | the stat talents reported are exactly those whose stat is named, whose score is present, and whose listed stat score (0 when unlisted) reaches it |
| Talents.DualTalentsMembers | AI-TTRPG/rules_engine/app/core.py:336-346 | the dual talents reported are exactly those with exactly two paired stats that both reach the score, 99 when absent |
| Talents.SkillTalentsMembers | AI-TTRPG/rules_engine/app/core.py:349-368 | the skill talents reported are exactly those of named groups in list-valued categories whose skill is in the skill map and whose rank reaches the required rank |
| Talents.FindEligibleMonotone | AI-TTRPG/rules_engine/app/core.py:305-372 | raising stats and skill ranks never loses a talent |
| Talents.RemoveMTFromDigits | AI-TTRPG/rules_engine/app/core.py:360 | removing "MT" from a digit string leaves it unchanged |
| Talents.RequiredRankOfMT | AI-TTRPG/rules_engine/app/core.py:357-361 | a tier "MTn" requires rank n |
| Talents.RequiredRankOfOther | AI-TTRPG/rules_engine/app/core.py:358-359 | a missing tier, or one not starting with "MT", requires rank 99 |
| Talents.SkillTalentUnlocksAtTier | AI-TTRPG/rules_engine/app/core.py:353-368 | a skill talent of tier "MTn" for a mapped skill unlocks iff the rank is at least n |
| LegacyRules.TableDc | rules_engine/core.py:51-53 | tiers 1 to 10 ask a DC between 12 and 20; every other tier asks 99 |
| LegacyRules.TableDcAgainstTiered | rules_engine/core.py:51-53 | the older table agrees with the newer tiered DC on every valid tier except 9 (18 against 16), and asks 99 outside 1 to 10 |
| LegacyRules.TableDcMonotone | rules_engine/core.py:51 | a higher valid tier never asks a lower DC |
| LegacyRules.AbilityCheck | rules_engine/core.py:41-65 | the total is roll plus rank plus modifier against the table DC; success iff the total reaches it; critical on 20 and 1; never triggers SRE |
| LegacyRules.FeatureStatsOf | rules_engine/core.py:69-80 | an unknown feature is an error; a known one succeeds iff it has both "name" and "mods", the name is a string and the mods a dict of string lists, and then returns exactly those values |
| LegacyRules.FeatureStatsRoundTrip | rules_engine/core.py:69-80 | a feature stored with its name and mods is read back as it was stored |
| LegacyRules.Correct | rules_engine/core.py:100-101 | the corrected stat name is never "Constitution", and any other name is kept |
| LegacyRules.MilestonesAsWritten | rules_engine/core.py:105-111 | as written, every milestone unlocked without reporting an error has a score of its own |
| LegacyRules.ScorelessMilestoneRaises | rules_engine/core.py:105-111 | a scoreless milestone reached at 99 or more raises instead of being granted |
| LegacyRules.Milestones | rules_engine/core.py:105-111 | intended rule: the milestones succeed iff every unlocked one has a name and an effect, and then exactly the unlocked milestones are reported, each with its score, 99 when absent |
| LegacyRules.ScorelessMilestoneGranted | rules_engine/core.py:105-111 | under the intended rule a scoreless milestone reached at 99 is granted as "Stat: Vitality 99" |
| LegacyRules.StatGroups | rules_engine/core.py:96-111 | the single-stat section (with the intended milestone rule) succeeds iff every group's reached milestones are complete, and reports exactly the milestones each group's corrected stat reaches |
| LegacyRules.DualTalents | rules_engine/core.py:113-131 | the dual-stat section succeeds iff every reached talent with two stats has a name and an effect, and reports exactly the talents whose two corrected stats both reach the score (99 when absent) |
| LegacyRules.TierRank | rules_engine/core.py:141 | a missing tier raises; a tier parses iff what is left after removing "MT" is an integer; "MTn" gives n |
| LegacyRules.SkillTalents | rules_engine/core.py:138-149 | one skill group succeeds iff every tier parses and every reached talent has a name and an effect, and reports exactly the talents whose tier the rank reaches |
| LegacyRules.SkillGroups | rules_engine/core.py:136-149 | one category succeeds iff each of its groups does, and reports exactly the reached talents of its groups |
| LegacyRules.SkillCategories | rules_engine/core.py:133-149 | the skill section succeeds iff every category does, and reports exactly the reached talents of every category |
| LegacyRules.FindEligible | rules_engine/core.py:89-151 | composed with the intended milestone rule: succeeds iff all three sections are complete, and reports as many talents as the three sections together |
| LegacyRules.FindEligibleMembers | rules_engine/core.py:89-151 | a talent is reported iff it is a reached stat milestone, a reached dual-stat talent or a reached skill talent |
| LegacyRules.ConstitutionReadAsVitality | rules_engine/core.py:96-130 | writing "Vitality" as "Constitution" anywhere in the single-stat or dual-stat data changes no result |
| LegacyRules.SkillTierUnlocks | rules_engine/core.py:139-148 | a named skill talent of tier "MTn" is granted iff the rank is at least n |
| Validator.Each | AI-TTRPG/rules_engine/app/data_validator.py:48-70 | a walk over a list reports nothing iff no item has an issue, and reports exactly the issues of its items |
| Validator.ValidateAbilities | AI-TTRPG/rules_engine/app/data_validator.py:17-72 | the verdict is true iff no error is reported; a non-dict is reported alone |
| Validator.MissingResourceReported | AI-TTRPG/rules_engine/app/data_validator.py:34-35 | a school is reported as lacking a resource iff it is a dict with neither "resource" nor "resource_pool" |
| Validator.SchoolMissingResource | AI-TTRPG/rules_engine/app/data_validator.py:28-70 | only the resource check of that school reports its missing resource; no branch or tier check does |
| Validator.AbilitiesValidIff | AI-TTRPG/rules_engine/app/data_validator.py:17-72 | the abilities are valid iff they form a dict of dict schools, each with a resource and a non-empty list of dict branches, each with a non-empty list of dict tiers that have a description |
| Validator.SchoolGood | AI-TTRPG/rules_engine/app/data_validator.py:29-70 | a school reports nothing iff it is well formed |
| Validator.MissingSections | AI-TTRPG/rules_engine/app/data_validator.py:86-89 | a section is reported missing iff it is required and absent |
| Validator.ValidateTalents | AI-TTRPG/rules_engine/app/data_validator.py:75-144 | the verdict is true iff no error is reported; a non-dict is reported alone; a section is reported missing iff it is required and absent |
| Validator.NoMissingSectionBelow | AI-TTRPG/rules_engine/app/data_validator.py:91-142 | the section walks never report a missing section |
| Validator.TalentsValidIff | AI-TTRPG/rules_engine/app/data_validator.py:75-144 | the talents are valid iff all three sections are present, the two stat sections are lists of dicts with "talent_name", and the skill section maps categories to lists of dict groups whose talents are dicts named by "talent_name" or "name" |
| Validator.ListSectionGood | AI-TTRPG/rules_engine/app/data_validator.py:92-113 | a stat section reports nothing iff it is absent or a list of dicts with "talent_name" |
| Validator.SkillMasteryGood | AI-TTRPG/rules_engine/app/data_validator.py:116-142 | the skill section reports nothing iff it is well formed |
| Validator.RequireFields | AI-TTRPG/rules_engine/app/data_validator.py:159-162 | nothing is reported iff every required field is present |
| Validator.ValidateOrigins | AI-TTRPG/rules_engine/app/data_validator.py:147-164 | the origins are valid iff they form a list of dicts each with "name" and "skills"; a non-list is reported alone |
| Validator.ValidateKingdomFeatures | AI-TTRPG/rules_engine/app/data_validator.py:167-194 | the verdict is true iff no error is reported; a non-dict is reported alone |
| Validator.KingdomFeaturesValidIff | AI-TTRPG/rules_engine/app/data_validator.py:167-194 | the features are valid iff every feature is a dict mapping each kingdom to a list of dict choices that have "name" and "mods" |
| Validator.Report | AI-TTRPG/rules_engine/app/data_validator.py:205-207 | a data set is listed iff it fails, and then with its own errors |
| Validator.Collect | AI-TTRPG/rules_engine/app/data_validator.py:202-224 | the combined verdict holds iff every data set is valid, iff nothing is listed, and every listed data set carries at least one error |
| Validator.ValidateAll | AI-TTRPG/rules_engine/app/data_validator.py:197-224 | all data is valid iff the abilities, talents, kingdom features and origins read with their defaults are each valid; every listed set carries an error |
| Validator.ValidateAllKeys | AI-TTRPG/rules_engine/app/data_validator.py:202-224 | the report has a key exactly for each failing data set, under its report name |
| Validator.EmptyTalentsReport | AI-TTRPG/rules_engine/app/data_validator.py:86-89 | an empty talents dict reports its three sections missing, in order, and nothing else |
| Validator.EmptyRulesReport | AI-TTRPG/rules_engine/app/data_validator.py:197-224 | with no data at all only the talents fail, for their three missing sections |
| Validator.EmptySectionsPass | AI-TTRPG/rules_engine/app/data_validator.py:28-72 | an empty abilities dict, an empty features dict and an empty origin list are valid |
| CombatHandler.InitiativeStatsIgnoreOthers | AI-TTRPG/story_engine/app/combat_handler.py:11-21 | only the six initiative stats are read; any other entry changes nothing |
| CombatHandler.InitiativeWithoutStats | AI-TTRPG/story_engine/app/combat_handler.py:11-21 | an actor without stats gets 10 in each initiative stat, so its initiative is the bare roll |
| CombatHandler.Roster | AI-TTRPG/story_engine/app/combat_handler.py:61-110 | the players come first, in request order, with their initiative or 0 when the roll failed; every later entry is an NPC whose id starts with "npc_"; the roster is empty iff there are no players and no NPC spawned |
| CombatHandler.NpcParticipants | AI-TTRPG/story_engine/app/combat_handler.py:84-110 | every spawned NPC becomes an "npc_" participant, and there are none iff no NPC spawned |
| CombatHandler.SortByInitiative | AI-TTRPG/story_engine/app/combat_handler.py:116 | the participants are ordered by initiative, highest first, and none is lost or added |
| CombatHandler.InsertPermutes | AI-TTRPG/story_engine/app/combat_handler.py:116 | inserting a participant adds exactly that participant |
| CombatHandler.InsertSorted | AI-TTRPG/story_engine/app/combat_handler.py:116 | inserting into an ordered list keeps it ordered |
| CombatHandler.InsertFilter | AI-TTRPG/story_engine/app/combat_handler.py:116 | inserting places a participant behind every earlier participant of equal initiative |
| CombatHandler.SortStable | AI-TTRPG/story_engine/app/combat_handler.py:116 | the sort is stable: participants with equal initiative keep their collection order |
| CombatHandler.SortOfTies | AI-TTRPG/story_engine/app/combat_handler.py:112-117 | when everyone ties the turn order is the collection order, players first |
| CombatHandler.StartCombat | AI-TTRPG/story_engine/app/combat_handler.py:112-117 | with nobody to fight combat is refused; otherwise the participants are a highest-first reordering of the roster and the turn order lists their ids in that order |
| CombatHandler.TurnOrderCoversPlayers | AI-TTRPG/story_engine/app/combat_handler.py:112-117 | every player appears in the turn order, which has one entry per participant |
| CombatHandler.StatScore | AI-TTRPG/story_engine/app/combat_handler.py:173-178 | it succeeds iff the context and its holder are dicts, the holder's "stats" is a dict and the stat name is hashable; then an NPC's stat is read from its top-level "stats" and a player's from the sheet's, 10 when absent, and an actor without stats has 10 in every stat |
| CombatHandler.Holder | AI-TTRPG/story_engine/app/combat_handler.py:175-178 | a dict context is read from its sheet when the sheet is truthy and from the top level otherwise; any other context raises |
| CombatHandler.SkillRank | AI-TTRPG/story_engine/app/combat_handler.py:180-186 | a context that is not a dict raises; an NPC's rank is its top-level skill entry, 0 when absent; a player's is the "rank" of the sheet's skill dict, 0 when the skill or the rank is absent |
| CombatHandler.EmptySheetReadsTopLevel | AI-TTRPG/story_engine/app/combat_handler.py:175-178 | a present but empty sheet is read like an NPC, from the top level |
| CombatHandler.PlayerStatFromSheet | AI-TTRPG/story_engine/app/combat_handler.py:175-176 | a player's stat comes from the sheet's stats, 10 when absent, whatever the top level holds |
| CombatHandler.EquippedWeapon | AI-TTRPG/story_engine/app/combat_handler.py:188-197 | a context that is not a dict raises; an actor without a sheet, or whose equipment has no right-hand item, wields "Great Weapons", "melee"; a right-hand item that is not a dict raises, and a dict gives its "category" and "type", each None when absent |
| CombatHandler.EquippedArmor | AI-TTRPG/story_engine/app/combat_handler.py:199-207 | a context that is not a dict raises; an actor without a sheet, or a player with nothing on the body, wears "Plate Armor"; a player's body item gives its category, None when absent |
| CombatHandler.EmptyEquipmentDefaults | AI-TTRPG/story_engine/app/combat_handler.py:188-207 | a player with a sheet but no equipment gets both defaults |
| CombatHandler.WeaponFromRightHand | AI-TTRPG/story_engine/app/combat_handler.py:190-195 | a player's right-hand item gives the weapon's category and type |
| CombatHandler.DigitsEnd | AI-TTRPG/story_engine/app/combat_handler.py:303 | the digit run starting at a position is maximal |
| CombatHandler.LastMultiHit | AI-TTRPG/story_engine/app/combat_handler.py:303 | the greedy match is at the last position where the "(xN)" suffix fits, and there is none iff the pattern matches nowhere |
| CombatHandler.ParseMultiHit | AI-TTRPG/story_engine/app/combat_handler.py:301-306 | a damage string the pattern does not match strikes once for the whole string |
| CombatHandler.MultiHitRoundTrip | AI-TTRPG/story_engine/app/combat_handler.py:301-306 | writing N hits of a one-line damage string X as "X(xN)" and parsing it gives back X and N |
| CombatHandler.SingleStrike | AI-TTRPG/story_engine/app/combat_handler.py:301-306 | a damage string without a parenthesis strikes once |
| CombatAction.ParseActorId | AI-TTRPG/story_engine/app/combat_handler.py:150-171 | an id read as a player starts with "player_" and one read as an NPC with "npc_"; any other id is refused |
| CombatAction.ParseActorIdRoundTrip | AI-TTRPG/story_engine/app/combat_handler.py:88 | every actor id the handler builds, including the "npc_" ids of the turn order, reads back as the actor it names |
| CombatAction.ActorContext | AI-TTRPG/story_engine/app/combat_handler.py:144-171 | the intended rule (see Findings): a context is returned only for an id that parses, and it is the one the player or NPC service gives for that kind and number |
| CombatAction.Field | AI-TTRPG/story_engine/app/combat_handler.py:281 | indexing a record succeeds iff the key is present, and gives its value |
| CombatAction.SkillFor | AI-TTRPG/story_engine/app/combat_handler.py:261-264 | a listed category gives its skill, any other hashable category "Unknown Skill", and a list or dict raises |
| CombatAction.StandingCheck | AI-TTRPG/story_engine/app/combat_handler.py:233-235 | a player target is never refused; an NPC target is refused only when its HP (1 when absent) is at most 0, and the refusal calls no service |
| CombatAction.HitFinals | AI-TTRPG/story_engine/app/combat_handler.py:311-322 | one final damage per hit, each the rules service's "final_damage" for that hit |
| CombatAction.RollHit | AI-TTRPG/story_engine/app/combat_handler.py:312-326 | a hit adds its damage roll line and its DR line, numbered from 1, and contributes its final damage |
| CombatAction.RollHits | AI-TTRPG/story_engine/app/combat_handler.py:308-326 | the damage dealt is the sum of the hits' final damages, with two log lines and one damage record per hit after the earlier log |
| CombatAction.WithStaggered | AI-TTRPG/story_engine/app/combat_handler.py:346-349 | the NPC's status list gains "Staggered" exactly when it lacked it, and nothing else changes |
| CombatAction.StaggeredOnce | AI-TTRPG/story_engine/app/combat_handler.py:346-349 | staggering twice is the same as staggering once |
| CombatAction.Apply | AI-TTRPG/story_engine/app/combat_handler.py:333-349 | a state-changing call is recorded after the earlier ones iff the service accepts it; otherwise the action stops with its error |
| CombatAction.HitEffects | AI-TTRPG/story_engine/app/combat_handler.py:340-363 | the hit's effects only append to the log and to the calls made so far |
| CombatAction.SolidHitStaggers | AI-TTRPG/story_engine/app/combat_handler.py:341-349 | a solid hit logs the stagger and applies it: to a player by name, to an NPC as its status list with "Staggered" added |
| CombatAction.OnlySolidHitsCall | AI-TTRPG/story_engine/app/combat_handler.py:340-363 | no other outcome calls a service after the damage; a critical hit logs the injury lookup, whose failure is only logged |
| CombatAction.Aftermath | AI-TTRPG/story_engine/app/combat_handler.py:340-368 | a hit reports success with its hit type, outcome, damage and remaining HP; the log ends with the defeat line iff the HP is at most 0 |
| CombatAction.Land | AI-TTRPG/story_engine/app/combat_handler.py:328-368 | the remaining HP is the current HP less the total damage; the first call applies the damage, to a player as the total and to an NPC as its new HP |
| CombatAction.Strike | AI-TTRPG/story_engine/app/combat_handler.py:294-368 | a landed attack deals the sum of the final damages of the N hits its "X(xN)" damage string names, one hit when there is no suffix |
| CombatAction.Prepare | AI-TTRPG/story_engine/app/combat_handler.py:228-253 | going on requires both contexts, a truthy weapon category and a weapon type of "melee" or "ranged" (any other type raises before the lookup); stopping calls no service |
| CombatAction.UnknownWeaponTypeRaises | AI-TTRPG/story_engine/app/services.py:88-93 | a weapon type other than "melee" or "ranged" raises before any request, so the action ends in "Action failed: An unexpected error occurred." whatever the rules service holds |
| CombatAction.RollAttack | AI-TTRPG/story_engine/app/combat_handler.py:255-281 | the contested roll adds exactly one attack-roll line to the log; stopping calls no service |
| CombatAction.Resolve | AI-TTRPG/story_engine/app/combat_handler.py:283-371 | a success carries a known outcome and deals damage iff it is a hit, solid hit or critical hit; an unknown outcome is a failure without damage |
| CombatAction.ExecuteAction | AI-TTRPG/story_engine/app/combat_handler.py:210-380 | the intended handler (see Findings): an action other than an attack, or an attack without a target, fails with an empty log and no call; damage is reported iff the attack succeeded with a landing outcome, and then so is the remaining HP |
| CombatAction.UnexpectedFailure | AI-TTRPG/story_engine/app/combat_handler.py:376-380 | the catch-all answer fails with "Action failed: An unexpected error occurred." and calls nothing |
| CombatAction.FetchAsWritten | AI-TTRPG/story_engine/app/combat_handler.py:150-159 | as written, a well-formed player id passes an integer to a service that splits it, which reaches the catch-all; any other id is fetched as intended |
| CombatAction.ExecuteActionAsWritten | AI-TTRPG/story_engine/app/combat_handler.py:210-380 | as written, the handler agrees with the intended one on every non-attack and on every attack without a target |
| CombatAction.PlayerAttackFailsAsWritten | AI-TTRPG/story_engine/app/combat_handler.py:150-159 | as written, an attack whose actor is a player, or whose reachable actor targets a player, always ends in the catch-all failure |
| CombatAction.PlayerAttackIntended | AI-TTRPG/story_engine/app/combat_handler.py:150-159 | a player attacking an NPC with an unknown weapon ends in the catch-all as written, but reports the weapon service's error as intended |
| CombatAction.AsWrittenAgreesOnNpcs | AI-TTRPG/story_engine/app/combat_handler.py:160-171 | as written and as intended agree whenever neither actor nor target is a player |
| CombatAction.DefeatedNpcRefused | AI-TTRPG/story_engine/app/combat_handler.py:229-235 | attacking an NPC at or below 0 HP fails with "already defeated" after one log line and no call |
| CharacterServices.AddToListed | AI-TTRPG/character_engine/app/services.py:237-242 | adding a value to the listed names keeps the stat names, and raises iff some listed name is a list or a dict |
| CharacterServices.ApplyFields | AI-TTRPG/character_engine/app/services.py:222-242 | applying the entries of a mods block keeps the stat names and raises iff some entry does |
| CharacterServices.ApplyMods | AI-TTRPG/character_engine/app/services.py:213-242 | applying mods never adds or removes a stat; a non-dict block changes nothing; it raises iff some "+2", "+1" or "-1" list holds an unhashable name |
| CharacterServices.AddToListedShift | AI-TTRPG/character_engine/app/services.py:237-239 | each known stat rises by the value once per time it is listed |
| CharacterServices.ApplyFieldsShift | AI-TTRPG/character_engine/app/services.py:222-242 | each known stat shifts by the sum of the values of the entries that list it, counted once per occurrence |
| CharacterServices.ApplyModsShift | AI-TTRPG/character_engine/app/services.py:213-242 | when nothing raises, every stat ends shifted by exactly what the block asks of it; entries other than "+2", "+1" and "-1", and non-list entries, ask nothing |
| CharacterServices.PlusTwoMight | AI-TTRPG/character_engine/app/services.py:227-239 | a block listing only Might under "+2" raises Might by 2 and leaves every other stat alone |
| CharacterServices.Uniform | AI-TTRPG/character_engine/app/services.py:264-265 | the starting dict has exactly the listed names, each with the same value |
| CharacterServices.KingdomKey | AI-TTRPG/character_engine/app/services.py:273 | feature F9 is looked up under "All" and every other feature under the character's kingdom |
| CharacterServices.FirstNamed | AI-TTRPG/character_engine/app/services.py:280-283 | the first item named as chosen is found, after only dicts with other names; none is found only when every item is such a dict; an error comes from the first item whose name cannot be compared |
| CharacterServices.FindChoice | AI-TTRPG/character_engine/app/services.py:277-283 | a list feature set is searched by name; iterating a non-empty dict or string raises, and an empty one finds nothing |
| CharacterServices.ApplyFeature | AI-TTRPG/character_engine/app/services.py:271-295 | a feature choice never adds or removes a stat, whatever goes wrong |
| CharacterServices.ApplyFeatures | AI-TTRPG/character_engine/app/services.py:271-295 | the feature choices together never add or remove a stat |
| CharacterServices.FirstMatchApplied | AI-TTRPG/character_engine/app/services.py:277-287 | the first item of the right set whose name matches contributes its mods, and only those |
| CharacterServices.FirstNamedAt | AI-TTRPG/character_engine/app/services.py:280-283 | a matching item after only non-matching dicts is the one found |
| CharacterServices.TalentMods | AI-TTRPG/character_engine/app/services.py:297-315 | a talent's mods keep the stat names; an unknown talent, or one that is not a dict with mods, changes nothing; a dict talent with mods raises iff applying them raises, and otherwise gives exactly what applying them gives |
| CharacterServices.TalentModsShift | AI-TTRPG/character_engine/app/services.py:297-315 | every stat moves by exactly the shift the talent's mods ask of it, counted per listing |
| CharacterServices.BaseAbilities | AI-TTRPG/character_engine/app/services.py:336-342 | at most one base ability; an unknown school, or one with no tiers, gives none |
| CharacterServices.TierZeroAbility | AI-TTRPG/character_engine/app/services.py:339-341 | a school whose first tier is a dict gives that tier's name, "Unknown Ability" when it has none |
| CharacterServices.CreateCharacter | AI-TTRPG/character_engine/app/services.py:246-373 | creation fails when the rules cannot be fetched; a new character is level 1 at full HP with the two chosen talents, exactly the listed stats and skills, every skill at 0, at most one ability, and empty inventory and equipment; its stats are the background talent's and then the ability talent's mods applied on top of the chosen features' mods over 8 in every stat |
| CharacterServices.ApplyFeaturesShift | AI-TTRPG/character_engine/app/services.py:271-295 | when no chosen feature's mods raise part-way, each stat moves by the summed shifts the chosen features' mods ask of it |
| CharacterServices.CreatedStats | AI-TTRPG/character_engine/app/services.py:263-315 | a created stat is 8 plus the shifts the chosen features' mods and the two talents' mods ask of it |
| CharacterServices.PlainCharacterAllEights | AI-TTRPG/character_engine/app/services.py:263-315 | without feature choices or talent mods every stat stays at 8 |
| CharacterServices.VitalsFromAnswer | AI-TTRPG/character_engine/app/services.py:319-334 | the maximum HP is the base-vitals answer's "max_hp", 1 when absent |
| CharacterServices.DictOr | AI-TTRPG/character_engine/app/services.py:58 | a dict column reads as itself, anything else as an empty dict |
| CharacterServices.ListOr | AI-TTRPG/character_engine/app/services.py:69-73 | a list column reads as itself, anything else as an empty list |
| CharacterServices.Context | AI-TTRPG/character_engine/app/services.py:31-101 | the context always has dict and list columns and a non-empty kingdom; a well-shaped row with a kingdom is returned unchanged; the id, name, level, HP and position are always kept |
| CharacterServices.ContextIdempotent | AI-TTRPG/character_engine/app/services.py:31-101 | building the context of a context changes nothing |
| CharacterServices.ListStatsReadEmpty | AI-TTRPG/character_engine/app/services.py:58 | a stats column stored as a list reads as an empty dict |
| CharacterMain.Counting | AI-TTRPG/character_engine/app/main.py:98-101 | an SRE that does not complete a rank raises the count by one and ranks nothing up |
| CharacterMain.RankUp | AI-TTRPG/character_engine/app/main.py:104-108 | the SRE that completes a rank resets the count to 0 and raises the rank by one |
| CharacterMain.CountSreAsWritten | AI-TTRPG/character_engine/app/main.py:98-108 | as written, a rank-up succeeds only for a record that stores a rank |
| CharacterMain.RankUpWithoutRankRaises | AI-TTRPG/character_engine/app/main.py:100-106 | a record with four SRE and no rank fails to rank up as written, while the intended rule ranks it up to 1 |
| CharacterMain.CountSre | AI-TTRPG/character_engine/app/main.py:98-108 | intended rule: an SRE is counted iff the stored count is a number and, when it completes a rank, the rank (0 when absent) is a number |
| CharacterMain.CountSreCounts | AI-TTRPG/character_engine/app/main.py:98-108 | a counted SRE raises the count by one below five; the fifth resets it to 0 and raises the rank by exactly one |
| CharacterMain.CountSreRecord | AI-TTRPG/character_engine/app/main.py:98-108 | the updated record holds the new count and rank, and every other field is kept |
| CharacterMain.CountingRecord | AI-TTRPG/character_engine/app/main.py:98 | counting changes only the "sre" field |
| CharacterMain.RankUpRecord | AI-TTRPG/character_engine/app/main.py:105-106 | a rank-up stores count 0 and the raised rank |
| CharacterMain.CountSreAgrees | AI-TTRPG/character_engine/app/main.py:98-108 | on every record that stores a rank, the code as written and the intended rule agree |
| CharacterMain.Ranks | AI-TTRPG/character_engine/app/main.py:116-118 | the rank map has one entry per skill, under the skill's own name |
| CharacterMain.HeldNames | AI-TTRPG/character_engine/app/main.py:125-130 | the held names are exactly the names of the held talents that are dicts with a name |
| CharacterMain.Unheld | AI-TTRPG/character_engine/app/main.py:132-139 | only eligible talents whose name is not held are new; when nothing fails every such talent is new |
| CharacterMain.NothingHeldAllNew | AI-TTRPG/character_engine/app/main.py:132-139 | when nothing is held every eligible talent is new, in order |
| CharacterMain.TalentDiff | AI-TTRPG/character_engine/app/main.py:112-148 | the sheet either stays as it was or gains the new talents after the held ones; no other field changes |
| CharacterMain.SkillRecord | AI-TTRPG/character_engine/app/main.py:84-95 | the record found is the skill's entry in the sheet's skills; the 400 refusal happens iff the skill is absent or null |
| CharacterMain.AddSre | AI-TTRPG/character_engine/app/main.py:70-168 | composed with the intended SRE count: an unknown skill is refused with the record's status; otherwise the sheet's skill record is replaced by the counted record, the reply carries its new count and rank, and without a rank-up nothing else changes and no talent is unlocked |
| CharacterMain.UnknownSkillRefused | AI-TTRPG/character_engine/app/main.py:88-95 | a skill the sheet does not hold is a 400 naming it |
| CharacterMain.FifthSreRanksUp | AI-TTRPG/character_engine/app/main.py:104-149 | the fifth SRE resets the count and raises the rank even when the talent lookup fails, which then unlocks nothing |
| CharacterMain.FailedLookupUnlocksNothing | AI-TTRPG/character_engine/app/main.py:146-148 | a failed talent lookup leaves the sheet as it was and unlocks nothing |
| CharacterMain.FourthSreCounted | AI-TTRPG/character_engine/app/main.py:104-108 | four SRE and a rank become zero SRE and the next rank |
| CharacterMain.NewTalentsAppended | AI-TTRPG/character_engine/app/main.py:141-144 | a changed sheet holds the held talents followed by the new ones |
| CharacterMain.DamageGuard | AI-TTRPG/character_engine/app/main.py:182-187 | damage goes through iff the character exists and the amount is not negative; otherwise a 404 or a 400 |
| CharacterMain.StatusGuard | AI-TTRPG/character_engine/app/main.py:205-210 | a status goes through iff the character exists and the id is not empty; otherwise a 404 or a 400 |
| Interaction.Fails | AI-TTRPG/story_engine/app/interaction_handler.py:25 | a refusal is an answer that does not succeed |
| Interaction.AnyHoldsKey | AI-TTRPG/story_engine/app/interaction_handler.py:47 | the scan finds the key iff some entry holds it and every entry before it was checked without error; it reports no key iff every entry was checked and none holds it |
| Interaction.HasKeyFor | AI-TTRPG/story_engine/app/interaction_handler.py:42-57 | the key can only be held when the character service answered; any failure counts as not holding it |
| Interaction.KeyInInventory | AI-TTRPG/story_engine/app/interaction_handler.py:44-47 | an inventory holding the key with a positive quantity, after entries that do not, holds the key |
| Interaction.SetStatus | AI-TTRPG/story_engine/app/interaction_handler.py:72-90 | the intended rule (see Findings): turning a door always answers, and on success writes back the annotations with only the door's status changed |
| Interaction.LockedDoor | AI-TTRPG/story_engine/app/interaction_handler.py:35-70 | a locked door gives no response exactly when a key is named and held; otherwise it refuses and writes nothing |
| Interaction.UseDoor | AI-TTRPG/story_engine/app/interaction_handler.py:34-92 | only a locked door can end without a response |
| Interaction.PickUp | AI-TTRPG/story_engine/app/interaction_handler.py:95-118 | the intended rule (see Findings): a successful pickup writes back the annotations without the picked-up object; a pickup without a truthy item id refuses |
| Interaction.Handle | AI-TTRPG/story_engine/app/interaction_handler.py:10-134 | only a "use" with a reachable character can end without a response, and a success means the location was read and annotations were written |
| Interaction.Dispatch | AI-TTRPG/story_engine/app/interaction_handler.py:27-127 | only a "use" with a reachable character can end without a response, and every success writes annotations |
| Interaction.NothingToUse | AI-TTRPG/story_engine/app/interaction_handler.py:20-30 | a location without annotations, or with empty ones, refuses |
| Interaction.HandleReachesDoor | AI-TTRPG/story_engine/app/interaction_handler.py:27-34 | a "use" of an annotated door is handled by the door rules |
| Interaction.UseDoorTurns | AI-TTRPG/story_engine/app/interaction_handler.py:72-90 | the intended rule (see Findings): using an open door closes it and using a closed or unlocked door opens it; the annotations are written back with that one status changed |
| Interaction.DoorRoundTrip | AI-TTRPG/story_engine/app/interaction_handler.py:72-90 | the intended rule (see Findings): closing an open door and using it again gives back the original annotations |
| Interaction.LockedWithoutKey | AI-TTRPG/story_engine/app/interaction_handler.py:61-70 | a locked door whose named key is not held refuses with a message naming the key |
| Interaction.PickupRemovesAnnotation | AI-TTRPG/story_engine/app/interaction_handler.py:96-115 | the intended rule (see Findings): a successful pickup removes the annotation and reports the quantity as 1 when none is given |
| Interaction.AsWritten | AI-TTRPG/story_engine/app/interaction_handler.py:75-108 | the services as written: the location and character calls are kept, and the item and annotation writes, which the service module does not define, raise |
| Interaction.HandleAsWritten | AI-TTRPG/story_engine/app/interaction_handler.py:10-134 | as written, no interaction succeeds or writes annotations; only a "use" with a reachable character can end without a response |
| Interaction.CrashingWritesFail | AI-TTRPG/story_engine/app/interaction_handler.py:72-134 | when every write raises, every answer is a failure and writes nothing |
| Interaction.ToggleFailsAsWritten | AI-TTRPG/story_engine/app/interaction_handler.py:72-90 | as written, opening or closing an open, closed or unlocked door answers the unexpected-error message |
| Interaction.PickupFailsAsWritten | AI-TTRPG/story_engine/app/interaction_handler.py:95-108 | as written, picking up an item with a truthy item id answers the unexpected-error message |
| EncounterGenerator.Matches | AI-TTRPG/encounter_generator/app/core.py:23-30 | the scan succeeds iff every encounter's tags can be read; the matches are exactly the encounters whose lowercased tags include every requested tag, and there are no more of them than encounters |
| EncounterGenerator.FindMatching | AI-TTRPG/encounter_generator/app/core.py:6-36 | nothing is found iff no combat or skill encounter covers the lowercased request; what is found is one of them that does |
| EncounterGenerator.NoTagsMatchAll | AI-TTRPG/encounter_generator/app/core.py:13-34 | with nothing requested, some encounter is found whenever there is one |
| EncounterGenerator.MatchingIgnoresCase | AI-TTRPG/encounter_generator/app/core.py:13 | a request and its lowercase form find the same encounter |
| EncounterGenerator.LowerAll | AI-TTRPG/encounter_generator/app/core.py:13 | each requested tag is lowercased, in place |
| EncounterGenerator.EncounterType | AI-TTRPG/encounter_generator/app/core.py:45-51 | a "skill" tag makes a skill encounter, else a "combat" tag a combat one, else the "type" field decides, "combat" when absent; tags that support no membership test raise |
| EncounterGenerator.BuildResponse | AI-TTRPG/encounter_generator/app/core.py:38-71 | a response is built only for a dict of readable type; it is a combat encounter iff the type is "combat"; any type other than combat or skill is an error; a skill challenge's threshold defaults to 1 |
| EncounterGenerator.SkillTagWins | AI-TTRPG/encounter_generator/app/core.py:48-49 | a "skill" tag makes a skill challenge whatever the type field says |
| EncounterGenerator.TypeFieldDecides | AI-TTRPG/encounter_generator/app/core.py:45-71 | without tags a "social" encounter is refused and one without a type is a combat encounter |
| MapGenerator.Candidates | AI-TTRPG/map_generator/app/core.py:9-13 | the scan succeeds iff every algorithm's required tags can be read; the candidates are exactly the algorithms whose lowercased required tags the request covers |
| MapGenerator.SelectAlgorithm | AI-TTRPG/map_generator/app/core.py:6-18 | no algorithm is chosen iff none suits the lowercased tags; a chosen one is listed and suits them |
| MapGenerator.UntaggedAlgorithmSuits | AI-TTRPG/map_generator/app/core.py:11-12 | an algorithm that requires no tags suits every request |
| MapGenerator.Dimension | AI-TTRPG/map_generator/app/core.py:30-31 | a non-zero override wins; without one and without a parameter the default is used |
| MapGenerator.Row | AI-TTRPG/map_generator/app/core.py:44-50 | a row has one cell per column (none for a negative width), each the wall tile where the draw says wall and the floor tile elsewhere |
| MapGenerator.Grid | AI-TTRPG/map_generator/app/core.py:43-51 | the grid has one row per line of the height (none for a negative height) |
| MapGenerator.RunGeneration | AI-TTRPG/map_generator/app/core.py:20-69 | the map has height rows of width cells, reports the seed and the algorithm's name ("Unknown Algorithm" when absent), puts the player at the centre and the enemies at (2, 2) and three in from the far corner |
| MapGenerator.CellsAreWallOrFloor | AI-TTRPG/map_generator/app/core.py:40-50 | every cell is the wall tile or the floor tile, 1 and 0 unless the parameters say otherwise |
| MapGenerator.DefaultSize | AI-TTRPG/map_generator/app/core.py:30-31 | without overrides or size parameters the map is 20 by 15, the player at (7, 10) and the enemies at (2, 2) and (12, 17) |
| MapGenerator.SpawnsOnGrid | AI-TTRPG/map_generator/app/core.py:57-60 | the player spawn always lies on a non-empty grid; the enemy spawns do iff the map is at least 3 by 3 |
| NpcGenerator.BaseStats | AI-TTRPG/npc_generator/app/core.py:13-16 | the base stats are the lowercased kingdom's entry, the mammal entry when the kingdom is not listed, and must be a dict |
| NpcGenerator.DefenseOverridesOffense | AI-TTRPG/npc_generator/app/core.py:23 | in the merged modifiers a defense value overrides the offense value for the same stat, and every other stat keeps its offense value |
| NpcGenerator.Modifier | AI-TTRPG/npc_generator/app/core.py:28 | an int or bool is a modifier as it stands, a string one only when it parses as an integer, and any other value raises |
| NpcGenerator.Step | AI-TTRPG/npc_generator/app/core.py:25-33 | one modifier keeps the NPC's stat names and every other stat; it is ignored for a stat the NPC lacks or a modifier that does not parse; a parsed one is added and the sum clamped to at least 1 |
| NpcGenerator.ApplyMods | AI-TTRPG/npc_generator/app/core.py:25-33 | the modifiers keep exactly the NPC's stat names and leave every stat no modifier names unchanged |
| NpcGenerator.StatAfterMods | AI-TTRPG/npc_generator/app/core.py:25-33 | each named stat ends as its own modifier makes it: skipped when unparsable, otherwise added and clamped to at least 1 |
| NpcGenerator.DistinctTail | AI-TTRPG/npc_generator/app/core.py:25 | the rest of a dict's entries have distinct keys, lack the first key and agree with the dict on every other key |
| NpcGenerator.ModifiedStatAtLeastOne | AI-TTRPG/npc_generator/app/core.py:29-31 | a stat a parsable modifier names is an integer of at least 1 afterwards |
| NpcGenerator.BaseHp | AI-TTRPG/npc_generator/app/core.py:37 | the base HP is Endurance plus twice Vitality, each 10 when absent, so 30 for an NPC with neither |
| NpcGenerator.Abilities | AI-TTRPG/npc_generator/app/core.py:42-47 | at most one ability: none without a focus or for an unlisted focus; for a listed list, its first entry when it has one |
| NpcGenerator.GenerateNpc | AI-TTRPG/npc_generator/app/core.py:5-74 | the NPC has exactly the base stats' names, the single skill Survival 1, at most one ability, the loot table "kingdom_difficulty_loot" and the base HP its final stats give |
| NpcGenerator.UnknownKingdomIsMammal | AI-TTRPG/npc_generator/app/core.py:13-16 | a kingdom the rules do not list gets the mammal stats |
| NpcGenerator.FirstSuggestionOnly | AI-TTRPG/npc_generator/app/core.py:43-47 | a focus with a list of suggestions gives its first one only |
| CombatScreen.AddLog | player_interface/srcsrc/screens/CombatScreen.tsx:55-58 | a logged message comes first and the log never holds more than ten messages |
| CombatScreen.AddAll | player_interface/srcsrc/screens/CombatScreen.tsx:125 | logging a non-empty batch leaves at most ten messages |
| CombatScreen.Reverse | player_interface/srcsrc/screens/CombatScreen.tsx:125 | the batch read newest first |
| CombatScreen.NewestOfNewest | player_interface/srcsrc/screens/CombatScreen.tsx:57 | trimming to the ten newest before adding more changes nothing about the ten newest |
| CombatScreen.AddAllNewestFirst | player_interface/srcsrc/screens/CombatScreen.tsx:55-58 | however many messages arrive one by one, the log holds the ten newest of all messages, newest first |
| CombatScreen.FindNpc | player_interface/srcsrc/screens/CombatScreen.tsx:76-78 | an NPC is found iff some instance has the actor's "npc_" id, and the one found is such an instance |
| CombatScreen.Gather | player_interface/srcsrc/screens/CombatScreen.tsx:60-95 | the participants are exactly the actors of the turn order whose fetch succeeds, each as fetched |
| CombatScreen.MissingNpcOmitted | player_interface/srcsrc/screens/CombatScreen.tsx:74-85 | an NPC the location does not hold is left out of the participants |
| CombatScreen.LivingCount | player_interface/srcsrc/screens/CombatScreen.tsx:168-198 | a side has no living count iff none of its participants has HP above 0 |
| CombatScreen.Verdict | player_interface/srcsrc/screens/CombatScreen.tsx:200-206 | the combat is lost iff no player lives; it is won iff some player lives and no NPC does |
| CombatScreen.Targets | player_interface/srcsrc/screens/CombatScreen.tsx:233-235 | the attack targets are exactly the living NPCs |
| CombatScreen.Refresh | player_interface/srcsrc/screens/CombatScreen.tsx:163-213 | a refresh refetches the participants; the combat ends iff one side is down; otherwise the turn moves to the next index, wrapping round the turn order; the log keeps at most ten messages |
| CombatScreen.BothSidesDownIsGameOver | player_interface/srcsrc/screens/CombatScreen.tsx:200-206 | when everyone is down the result is a defeat, not a victory |
| CombatScreen.TurnStaysInRange | player_interface/srcsrc/screens/CombatScreen.tsx:210 | a turn index inside the turn order stays inside it |
| CombatScreen.Load | player_interface/srcsrc/screens/CombatScreen.tsx:60-95 | the first load has the same participants as a refresh, keeps the starting turn and is not over; without fetch errors the log is the fetching line above "Combat started!" |
| CombatScreen.LoadErrors | player_interface/srcsrc/screens/CombatScreen.tsx:87-89 | at most one error line per actor, and none when every fetch succeeds |
| CombatScreen.AfterPost | player_interface/srcsrc/screens/CombatScreen.tsx:123-132 | a successful action logs the endpoint's lines and refreshes; a failed or thrown one changes neither the turn, the participants nor the end state; the log then holds the ten newest of the history with the endpoint's lines, then "Action failed: …" or the error line, on top |
| CombatScreen.ResetToMain | player_interface/srcsrc/screens/CombatScreen.tsx:139-142 | going back shows the main menu with nothing pending and the board untouched |
| CombatScreen.ChooseAttack | player_interface/srcsrc/screens/CombatScreen.tsx:143-146 | choosing attack asks for a target with an attack pending |
| CombatScreen.ChooseAbility | player_interface/srcsrc/screens/CombatScreen.tsx:147-154 | choosing an ability asks for a target with that ability pending under its name |
| CombatScreen.ChooseItem | player_interface/srcsrc/screens/CombatScreen.tsx:155-162 | choosing an item asks for a target with that item pending |
| CombatScreen.BackForgetsChoice | player_interface/srcsrc/screens/CombatScreen.tsx:139-162 | going back after choosing any action is the same as going back without choosing |
| CombatScreen.PayloadReadsBack | player_interface/srcsrc/screens/CombatScreen.tsx:100-122 | the request body reads back as the pending action's kind, its id and the target |
| CombatScreen.HandlePlayerAction | player_interface/srcsrc/screens/CombatScreen.tsx:97-137 | nothing happens unless it is the player's turn and an action is pending; otherwise the pending action is sent and, whatever the answer, the menu returns to main with nothing pending; the turn moves only after a success; the log holds the ten newest of the history in which "Player performing: <name> on <target>..." comes first, then the endpoint's lines, then "Action failed: …" or "Error performing action: …" |
| CombatScreen.HandlePlayerAttack | player_interface/src/screens/CombatScreen.tsx:78-104 | nothing happens unless it is "player_1"'s turn; otherwise an attack on the target is sent, and the turn and participants change only after a success; the log holds the ten newest of the history in which "Player attacking <target>..." comes first, then the endpoint's lines, then "Action failed: …" or "Error attacking: …" |
| CharacterCreation.Next | player_interface/src/screens/CharacterCreationScreen.tsx:184-224 | moving forward from a reachable step reaches a reachable step |
| CharacterCreation.Back | player_interface/src/screens/CharacterCreationScreen.tsx:226-269 | going back fails exactly on the kingdom step and otherwise reaches a reachable step |
| CharacterCreation.BackUndoesNext | player_interface/src/screens/CharacterCreationScreen.tsx:184-269 | going back after going forward returns to the same step and feature, on every step but the review |
| CharacterCreation.NextUndoesBack | player_interface/src/screens/CharacterCreationScreen.tsx:184-269 | going forward after going back returns to the same step and feature, on every step but the kingdom |
| CharacterCreation.SeventeenStepsToReview | player_interface/src/screens/CharacterCreationScreen.tsx:184-224 | the wizard reaches the review after the kingdom, eight features and eight further steps |
| CharacterCreation.FeaturesToReview | player_interface/src/screens/CharacterCreationScreen.tsx:189-222 | from feature j the review is 16 - j steps away |
| CharacterCreation.ReviewIsLast | player_interface/src/screens/CharacterCreationScreen.tsx:184-224 | no number of forward steps leaves the review |
| CharacterCreation.SelectKingdom | player_interface/src/screens/CharacterCreationScreen.tsx:273-276 | a new kingdom clears the feature choices and moves the wizard on |
| CharacterCreation.Without | player_interface/src/screens/CharacterCreationScreen.tsx:283-285 | the kept choices are exactly those for other features |
| CharacterCreation.SelectFeatureChoice | player_interface/src/screens/CharacterCreationScreen.tsx:278-297 | the new choice goes last, after the earlier choices for other features in their order; it is the only one for its feature, no other choice changes, and only a choice other than F9 moves the wizard on |
| CharacterCreation.SelectKeepsOnePerFeature | player_interface/src/screens/CharacterCreationScreen.tsx:278-292 | choosing never leaves two choices for one feature |
| CharacterCreation.WithoutKeepsOnePerFeature | player_interface/src/screens/CharacterCreationScreen.tsx:283-285 | dropping a feature's choices keeps at most one choice per feature |
| CharacterCreation.SelectBackground | player_interface/src/screens/CharacterCreationScreen.tsx:300-319 | a background choice is recorded for its own step, leaves the other steps' choices, the features, kingdom, school, talent and name alone, and moves the wizard on |
| CharacterCreation.SelectSchool | player_interface/src/screens/CharacterCreationScreen.tsx:322-329 | a new school clears the talent and moves the wizard on |
| CharacterCreation.SelectTalent | player_interface/src/screens/CharacterCreationScreen.tsx:331-334 | choosing a talent keeps the school and moves the wizard on |
| CharacterCreation.SetName | player_interface/src/screens/CharacterCreationScreen.tsx:543-547 | editing the name sets the name and leaves the step where it is |
| CharacterCreation.FindFeature | player_interface/src/screens/CharacterCreationScreen.tsx:565 | a choice is found iff one exists for the feature, and the one found is such a choice |
| CharacterCreation.Submit | player_interface/src/screens/CharacterCreationScreen.tsx:337-363 | a request is sent iff the review is complete, and it carries the ten fields as chosen: the name untrimmed, the kingdom, the feature choices (an F9 choice among them), origin, childhood, coming of age, training, devotion, school and talent |
| CharacterCreation.F9CountsTowardEight | player_interface/src/screens/CharacterCreationScreen.tsx:564-581 | seven feature choices plus F9 pass the count of eight |
| CharacterCreation.SchoolThenSubmitNeedsTalent | player_interface/src/screens/CharacterCreationScreen.tsx:322-329 | right after a school is chosen nothing can be submitted |
| AssetLoader.ToGrid | player_interface/src/assets/assetLoader.ts:95-99 | the stored cell is the written 1-based column and row, each less one, on the same sheet |
| AssetLoader.Cache | player_interface/src/assets/assetLoader.ts:65-69 | the sheet gets a URL in the given folder only if it has none yet; every URL already cached stays as it was |
| AssetLoader.AddManual | player_interface/src/assets/assetLoader.ts:93-100 | adding a mapped tile adds exactly its key, keeps every sprite's sheet cached, every sprite from the fixed mapping and every URL in the tiles folder |
| AssetLoader.AddStates | player_interface/src/assets/assetLoader.ts:105-123 | every state of the tile with a mapping of its own gets a sprite, no other key appears, and the cache invariants are kept |
| AssetLoader.AddTile | player_interface/src/assets/assetLoader.ts:92-124 | a mapped tile and each of its mapped states get a sprite, nothing unmapped does, and the cache invariants are kept |
| AssetLoader.AddTiles | player_interface/src/assets/assetLoader.ts:92-124 | after all tiles, every mapped tile id and mapped state key of the definitions has a sprite, nothing else was added, and the cache invariants are kept |
| AssetLoader.BuildTileSpriteMap | player_interface/public/assets/assetLoader.ts:51-117 | the tile map holds every mapped tile and state of the definitions, only sprites of the fixed mapping, each with a cached sheet URL in the tiles folder |
| AssetLoader.AddEntities | player_interface/src/assets/assetLoader.ts:127-138 | every defined entity maps to its last definition's cell, 1-based turned 0-based, and its sheet gets a URL; a newly cached sheet gets the entities-folder URL; a URL already cached and a sprite no entity defines are kept; entities add only their own ids |
| AssetLoader.BuildSpriteLookupMap | player_interface/src/assets/assetLoader.ts:74-142 | every sprite's sheet has a URL; the tiles' sheets keep their tiles-folder URLs and every other sheet has the entities-folder URL; every defined entity maps to its last definition's 0-based cell, and a tile no entity redefines keeps its own cell |
| AssetLoader.Clip | player_interface/src/assets/assetLoader.ts:204-229 | a sprite on a cached sheet is clipped at its cell times 128 on that sheet's URL; on an uncached sheet the fallback image is used |
| AssetLoader.GetTileRenderInfo | player_interface/public/assets/assetLoader.ts:137-198 | the state's sprite is used when mapped, else the tile's own, else the fallback image |
| AssetLoader.GetSpriteRenderInfo | player_interface/src/assets/assetLoader.ts:161-230 | the state's sprite, else the id's, else the "fallback" sprite, else the fallback image; nothing is returned iff none of these exists |
| AssetLoader.FoundSpriteIsClipped | player_interface/src/assets/assetLoader.ts:219-229 | in a built map a found sprite is always drawn from its own sheet at its cell times 128 |
| AssetLoader.OpenDoorSprite | player_interface/public/assets/assetLoader.ts:149-155 | the open door is drawn from the top-left cell of the indoor sheet, and an unmapped door state falls back to the closed door |
| AssetLoader.TileSheetsStayInTiles | player_interface/src/assets/assetLoader.ts:65-69 | a sheet a tile uses keeps its tiles-folder URL even when an entity uses the same sheet |
| AssetLoader.UnknownIdRendersNothing | player_interface/src/assets/assetLoader.ts:181-201 | with no fallback sprite or sheet, an id that is neither a mapped tile nor an entity has no render info |
| AssetLoader.EntitiesAddNoFallbackSheet | player_interface/src/assets/assetLoader.ts:127-138 | entities cache the fallback sheet only if one of them uses it |

## Left out

- HTTP endpoints, service-to-service calls, the database and all file reading are not modelled. What a call returns is a parameter, and an HTTP error is an `Err`. This leaves out the CRUD in the character services and the update_character_sheet handler. It also leaves out get_character and update_character_context in AI-TTRPG/character_engine/app/services.py. The answer of a write that fails is not modelled.
- Randomness becomes parameters: d20 rolls, damage dice, `random.choice` (an index `pick`, taken modulo the number of candidates), the map's wall draw (a predicate `isWall`) and the NPC id's random number.
- NpcGenerator.GenerateNpc: max_hp is the base hit points; the difficulty multiplier of AI-TTRPG/npc_generator/app/core.py:38-39 is a float product and is not applied.
- Floating point is left out. The NPC hit-point multiplier (AI-TTRPG/npc_generator/app/core.py:38-39) is not applied, so the model keeps the base hit points. The 0.2 wall probability of the map generator is the `isWall` predicate.
- Rules.Damage: the dice results are a parameter. The call at AI-TTRPG/rules_engine/app/core.py:124 unpacks an integer and raises; the model sums the given dice instead.
- Talents: the talent data is typed records. A key present as null reads like an absent key and takes the default (score 99, name "Unknown Talent"), where Python compares against `None` and raises, or fails the `TalentInfo` validation. Ill-typed data, such as a string score or a group that is not a dict, cannot be given at all.
- Talents.FindEligible: inherits that reading, so a null score or name is defaulted where AI-TTRPG/rules_engine/app/core.py:337-341 raises.
- LegacyRules: the talent data is typed records in the same way, so a key present as null reads as absent and ill-typed data cannot be given.
- LegacyRules: the loader globals that rules_engine/core.py binds at import time are parameters.
- Loaders.FeatureName: a feature whose name is not a string is skipped, where Python would key the dict by any truthy name.
- Loaders.LegacyCorrectMods: refuses a mods value that is not a list, where Python would iterate whatever it is given.
- Loaders.LegacySkills: assumes list-valued categories, as the older loader does.
- LegacyRules.FindEligible: composes the corrected milestone rule, `LegacyRules.Milestones`, so it grants a scoreless milestone reached at 99 where the code as written raises (see Findings).
- CharacterMain.AddSre: composes the corrected counter, `CharacterMain.CountSre`, so a rank-up on a record without a stored rank succeeds where the code as written raises (see Findings).
- CombatAction: the `damage_details` list of per-hit damage answers (AI-TTRPG/story_engine/app/combat_handler.py:309-323, 368) is gathered hit by hit but left out of the reply, which carries the total damage, the remaining HP, the outcome and the log.
- Text: `str.lower`, `str.isdigit`, `int(...)` and the regex class `\d` (as in the multi-hit pattern of AI-TTRPG/story_engine/app/combat_handler.py:303) are modelled on ASCII digits and letters only; Python's `\d` and `int` also take other Unicode decimal digits. Python's `int` also accepts surrounding whitespace and underscores; the model does not.
- Pydantic's type coercion is not modelled, and neither is Python's `1 == True`. Fields are checked against the declared type.
- NpcGenerator: the generated id, the name and the description are text only and are not modelled.
- CombatScreen: React state batching, the loading flag, the 3-second timer before `onCombatEnd`, stale closures and the rendering are not modelled.
- CombatScreen.HandlePlayerAttack: actor ids arrive as strings, so `String(id)` conversions are not modelled.
- NpcGenerator.BaseHp: builds the base hit points arithmetically. It does not model the string repetition Python would perform on a non-integer stat.
- CombatAction.ActorContext: models the intended player fetch; as written the integer id makes the service raise (see Findings), which `CombatAction.FetchAsWritten` models.
- CombatAction.ExecuteAction: models the intended handler, so a player actor or target gets its context; as written such an attack ends in the catch-all failure (see Findings), which `CombatAction.ExecuteActionAsWritten` models.
- Interaction.SetStatus: models the intended annotation write; as written the service is undefined and the write raises (see Findings).
- Interaction.PickUp: models the intended item and annotation writes; as written both services are undefined and the pickup raises (see Findings).
- Interaction.UseDoorTurns: states the intended door toggle; as written it ends in the unexpected-error answer (see Findings).
- Interaction.DoorRoundTrip: states the intended round trip; as written neither toggle succeeds (see Findings).
- Interaction.PickupRemovesAnnotation: states the intended pickup; as written it ends in the unexpected-error answer (see Findings).
- Interaction.Format: a list or a dict shows as "..." where Python's f-string would print its repr.
- Interaction: a locked door whose key is held falls off the end of the handler, which returns `None`. The model names this outcome `NoResponse`.
- CharacterCreation.Submit: the blank-name check counts as white space only the ASCII spaces, tabs and line breaks and the no-break space, where JavaScript's `trim()` also strips the other Unicode space separators, the line and paragraph separators and the byte-order mark.
- CharacterCreation: loading the rules data, the request `createCharacter` sends, and the rendering are not modelled.
- AssetLoader: the definition files are parameters, with keys in the order `for ... in` visits them. Console warnings are not modelled.
- The UI-only screens, the renderers, the verification scripts and the tests are not modelled.

## Findings

| source | as written | input that shows it | evidently intended | confidence | as-written member | corrected member |
|---|---|---|---|---|---|---|
| rules_engine/core.py:105-111 | a milestone without a score is compared against 99, then its `milestone['score']` is read when building the talent, which raises | the milestone {"name": "Titan", "effect": "e"} with no score, for a stat of 99 or more | the milestone is granted at 99 and reported with the default score | high, not executed | LegacyRules.MilestonesAsWritten | LegacyRules.Milestones |
| AI-TTRPG/character_engine/app/main.py:100-106 | the rank is read with a default of 0, but on rank-up `skill_data["rank"] += 1` needs a stored rank and raises without one | a skill record {"sre": 4} with no "rank" | rank up from the default 0 to 1 | medium, not executed | CharacterMain.CountSreAsWritten | CharacterMain.CountSre |
| AI-TTRPG/story_engine/app/interaction_handler.py:75-108 | door toggles and pickups call `services.update_location_annotations` and `services.add_item_to_character`, which AI-TTRPG/story_engine/app/services.py does not define, so the attribute lookup raises and the catch-all answers | a "use" of a closed door annotated {"type": "door", "status": "closed"} | the door opens and the annotations are written back; an item pickup adds the item and removes its annotation | high, not executed | Interaction.HandleAsWritten | Interaction.Handle |
| AI-TTRPG/story_engine/app/combat_handler.py:150-159 | the player's number is passed as an int to `get_character_context`, which calls `.split` on it; the AttributeError escapes the handler's `(IndexError, ValueError)` and `HTTPException` clauses and reaches the catch-all | the actor "player_1" attacking "npc_2" | the player's context is fetched by id and the attack proceeds | high, not executed | CombatAction.ExecuteActionAsWritten | CombatAction.ExecuteAction |

/** The rules-data transforms of the three rules-engine loaders:
    - rules_engine/data_loader.py (the older loader, which raises on bad data),
    - AI-TTRPG/rules_engine/data_loader.py (the package loader, which skips
      bad data and renames "Constitution" to "Vitality"),
    - AI-TTRPG/rules_engine/app/data_loader.py (the app loader, which skips
      bad data and keeps skills whose governing stat is known).
    Reading the JSON files is not modelled: each transform takes the parsed
    value. */
module Loaders {
  import opened Wrappers
  import opened Json
  import Assoc

  // ---------------------------------------------------------------------
  // Constitution -> Vitality

  /** The renamed stat list: every "Constitution" becomes "Vitality". */
  function CorrectList(items: seq<Json>): (r: seq<Json>)
    ensures |r| == |items|
    ensures forall i :: 0 <= i < |items| ==> r[i] != JStr("Constitution")
    ensures forall i :: 0 <= i < |items| ==> items[i] == JStr("Constitution") ==> r[i] == JStr("Vitality")
    ensures forall i :: 0 <= i < |items| ==> items[i] != JStr("Constitution") ==> r[i] == items[i]
  {
    if |items| == 0 then []
    else [if items[0] == JStr("Constitution") then JStr("Vitality") else items[0]] + CorrectList(items[1..])
  }

  /** `_correct_stat_names_in_mods`: a non-object is returned unchanged; in an
      object, list values are renamed and other values kept. */
  function CorrectMods(mods: Json): (r: Json)
    ensures !mods.JObj? ==> r == mods
    ensures mods.JObj? ==> r.JObj? && Keys(r.fields) == Keys(mods.fields)
    ensures mods.JObj? ==> forall i :: 0 <= i < |mods.fields| ==>
              (mods.fields[i].1.JArr? ==> r.fields[i].1 == JArr(CorrectList(mods.fields[i].1.items))) &&
              (!mods.fields[i].1.JArr? ==> r.fields[i].1 == mods.fields[i].1)
  {
    if !mods.JObj? then mods else JObj(CorrectFields(mods.fields))
  }

  function CorrectFields(fs: seq<(string, Json)>): (r: seq<(string, Json)>)
    ensures |r| == |fs|
    ensures forall i :: 0 <= i < |fs| ==>
              r[i].0 == fs[i].0 && r[i].1 == (if fs[i].1.JArr? then JArr(CorrectList(fs[i].1.items)) else fs[i].1)
  {
    if |fs| == 0 then []
    else [(fs[0].0, if fs[0].1.JArr? then JArr(CorrectList(fs[0].1.items)) else fs[0].1)] + CorrectFields(fs[1..])
  }

  /** Correcting twice is correcting once. */
  lemma CorrectModsIdempotent(mods: Json)
    ensures CorrectMods(CorrectMods(mods)) == CorrectMods(mods)
  {
    if mods.JObj? {
      var once := CorrectFields(mods.fields);
      forall i | 0 <= i < |once| ensures once[i].1.JArr? ==> CorrectList(once[i].1.items) == once[i].1.items {
        if once[i].1.JArr? {
          var xs := once[i].1.items;
          assert CorrectList(xs) == xs;
        }
      }
      assert CorrectFields(once) == once;
    }
  }

  /** After correction no stat list of the mods names "Constitution". */
  lemma CorrectModsRemovesConstitution(mods: Json)
    requires mods.JObj?
    ensures forall i :: 0 <= i < |CorrectMods(mods).fields| && CorrectMods(mods).fields[i].1.JArr? ==>
              JStr("Constitution") !in CorrectMods(mods).fields[i].1.items
  {
    var r := CorrectMods(mods);
    forall i | 0 <= i < |r.fields| && r.fields[i].1.JArr?
      ensures JStr("Constitution") !in r.fields[i].1.items
    {
      if mods.fields[i].1.JArr? {
        var c := CorrectList(mods.fields[i].1.items);
        assert forall k :: 0 <= k < |c| ==> c[k] != JStr("Constitution");
      }
    }
  }

  /** The older `_correct_stat_names`: the mods must be an object whose values
      are lists; anything else raises. */
  function LegacyCorrectMods(mods: Json): (r: Result<Json>)
    ensures r.Ok? <==> mods.JObj? && forall i :: 0 <= i < |mods.fields| ==> mods.fields[i].1.JArr?
    ensures r.Ok? ==> r.value == CorrectMods(mods)
  {
    if mods.JObj? && forall i :: 0 <= i < |mods.fields| ==> mods.fields[i].1.JArr? then Ok(CorrectMods(mods))
    else Err("mods are not an object of lists")
  }

  // ---------------------------------------------------------------------
  // Kingdom features

  /** The object items of a list. */
  function Objects(items: seq<Json>): (r: seq<Json>)
    ensures forall i :: 0 <= i < |r| ==> r[i].JObj?
    ensures forall x :: x in r <==> x in items && x.JObj?
  {
    if |items| == 0 then [] else (if items[0].JObj? then [items[0]] else []) + Objects(items[1..])
  }

  /** The object features of the list-valued kingdom entries of one category. */
  function KingdomFeatures(kingdoms: seq<(string, Json)>): (r: seq<Json>)
    ensures forall i :: 0 <= i < |r| ==> r[i].JObj?
    ensures forall x :: x in r <==> exists k :: 0 <= k < |kingdoms| && kingdoms[k].1.JArr? && x in kingdoms[k].1.items && x.JObj?
  {
    if |kingdoms| == 0 then []
    else
      var rest := KingdomFeatures(kingdoms[1..]);
      assert forall k :: 1 <= k < |kingdoms| ==> kingdoms[k] == kingdoms[1..][k - 1];
      (if kingdoms[0].1.JArr? then Objects(kingdoms[0].1.items) else []) + rest
  }

  /** Every candidate feature of a kingdom-features document, in iteration
      order: object features of list entries of object categories. A
      document that is not an object has none. */
  function FeatureCandidates(doc: Json): (r: seq<Json>)
    ensures forall i :: 0 <= i < |r| ==> r[i].JObj?
    ensures !doc.JObj? ==> r == []
  {
    if doc.JObj? then CategoryFeatures(doc.fields) else []
  }

  function CategoryFeatures(cats: seq<(string, Json)>): (r: seq<Json>)
    ensures forall i :: 0 <= i < |r| ==> r[i].JObj?
    ensures forall x :: x in r <==> exists c :: 0 <= c < |cats| && cats[c].1.JObj? && x in KingdomFeatures(cats[c].1.fields)
  {
    if |cats| == 0 then []
    else
      var rest := CategoryFeatures(cats[1..]);
      assert forall c :: 1 <= c < |cats| ==> cats[c] == cats[1..][c - 1];
      (if cats[0].1.JObj? then KingdomFeatures(cats[0].1.fields) else []) + rest
  }

  /** A feature's key: its "name", when that is a non-empty string. */
  function FeatureName(f: Json): Option<string> {
    if f.JObj? then
      match Lookup(f.fields, "name")
      case Some(JStr(s)) => if |s| > 0 then Some(s) else None
      case _ => None
    else None
  }

  /** The package loader's stored feature: mods corrected when present. */
  function WithCorrectedMods(f: Json): (r: Json)
    ensures f.JObj? && HasKey(f.fields, "mods") ==>
              r.JObj? && Keys(r.fields) == Keys(f.fields) &&
              Lookup(r.fields, "mods") == Some(CorrectMods(Lookup(f.fields, "mods").value)) &&
              forall k :: k != "mods" ==> Lookup(r.fields, k) == Lookup(f.fields, k)
    ensures !(f.JObj? && HasKey(f.fields, "mods")) ==> r == f
  {
    if f.JObj? && HasKey(f.fields, "mods") then
      JObj(Put(f.fields, "mods", CorrectMods(Lookup(f.fields, "mods").value)))
    else f
  }

  function Same(f: Json): Json { f }

  /** The app loader's `_process_kingdom_features`: every named feature, keyed
      by its name, stored as it is. */
  function AppFeatureMap(doc: Json): (m: map<string, Json>)
    ensures forall n :: n in m <==> exists i :: 0 <= i < |FeatureCandidates(doc)| && FeatureName(FeatureCandidates(doc)[i]) == Some(n)
  {
    Assoc.Index(FeatureCandidates(doc), FeatureName, Same)
  }

  /** The package loader's `_process_kingdom_features`: the same keys, each
      feature stored with its mods corrected. */
  function PackageFeatureMap(doc: Json): (m: map<string, Json>)
    ensures forall n :: n in m <==> exists i :: 0 <= i < |FeatureCandidates(doc)| && FeatureName(FeatureCandidates(doc)[i]) == Some(n)
    ensures !doc.JObj? ==> m == map[]
  {
    Assoc.Index(FeatureCandidates(doc), FeatureName, WithCorrectedMods)
  }

  /** Later features with the same name overwrite earlier ones, and the
      package loader differs from the app loader only by the mods correction. */
  lemma FeatureMapLastWins(doc: Json, i: int)
    requires 0 <= i < |FeatureCandidates(doc)| && FeatureName(FeatureCandidates(doc)[i]).Some?
    requires Assoc.LastWithKey(FeatureCandidates(doc), FeatureName, i)
    ensures AppFeatureMap(doc)[FeatureName(FeatureCandidates(doc)[i]).value] == FeatureCandidates(doc)[i]
    ensures PackageFeatureMap(doc)[FeatureName(FeatureCandidates(doc)[i]).value] == WithCorrectedMods(FeatureCandidates(doc)[i])
  {
    Assoc.IndexLastWins(FeatureCandidates(doc), FeatureName, Same, i);
    Assoc.IndexLastWins(FeatureCandidates(doc), FeatureName, WithCorrectedMods, i);
  }

  /** A stored feature is found under its own name. */
  lemma FeatureMapKeyIsName(doc: Json, n: string)
    ensures n in AppFeatureMap(doc) ==> FeatureName(AppFeatureMap(doc)[n]) == Some(n)
  {
    if n in AppFeatureMap(doc) {
      Assoc.IndexValues(FeatureCandidates(doc), FeatureName, Same, n);
    }
  }

  // The older loader

  /** The older loader's candidates: the document and each category must be
      objects, and every feature of a list entry must be an object. */
  function LegacyCandidates(doc: Json): (r: Result<seq<Json>>)
    ensures r.Ok? ==> r.value == FeatureCandidates(doc)
  {
    if !doc.JObj? then Err("AttributeError: values")
    else LegacyCategories(doc.fields)
  }

  function LegacyCategories(cats: seq<(string, Json)>): (r: Result<seq<Json>>)
    ensures r.Ok? ==> r.value == CategoryFeatures(cats)
  {
    if |cats| == 0 then Ok([])
    else if !cats[0].1.JObj? then Err("AttributeError: values")
    else
      var here :- LegacyKingdoms(cats[0].1.fields);
      var rest :- LegacyCategories(cats[1..]);
      Ok(here + rest)
  }

  function LegacyKingdoms(ks: seq<(string, Json)>): (r: Result<seq<Json>>)
    ensures r.Ok? ==> r.value == KingdomFeatures(ks)
  {
    if |ks| == 0 then Ok([])
    else
      var rest :- LegacyKingdoms(ks[1..]);
      if ks[0].1.JArr? then
        if forall i :: 0 <= i < |ks[0].1.items| ==> ks[0].1.items[i].JObj? then
          assert Objects(ks[0].1.items) == ks[0].1.items by { ObjectsOfObjects(ks[0].1.items); }
          Ok(ks[0].1.items + rest)
        else Err("AttributeError: get")
      else Ok(rest)
  }

  lemma {:induction false} ObjectsOfObjects(items: seq<Json>)
    requires forall i :: 0 <= i < |items| ==> items[i].JObj?
    ensures Objects(items) == items
  {
    if |items| > 0 {
      ObjectsOfObjects(items[1..]);
    }
  }

  /** Named features must have mods the older correction accepts. */
  function LegacyEntries(fs: seq<Json>): Result<seq<(string, Json)>> {
    if |fs| == 0 then Ok([])
    else
      var rest := LegacyEntries(fs[1..]);
      if rest.Err? then rest
      else if FeatureName(fs[0]).None? then rest
      else
        var fixed := LegacyFix(fs[0]);
        if fixed.Err? then Err(fixed.error)
        else Ok([(FeatureName(fs[0]).value, fixed.value)] + rest.value)
  }

  /** `feature["mods"] = _correct_stat_names(feature["mods"])`. */
  function LegacyFix(f: Json): (r: Result<Json>)
    ensures r.Ok? ==> f.JObj? && HasKey(f.fields, "mods") && r.value == WithCorrectedMods(f)
  {
    if !f.JObj? then Err("AttributeError: get")
    else match Lookup(f.fields, "mods")
      case None => Err("KeyError: mods")
      case Some(mods) =>
        var c :- LegacyCorrectMods(mods);
        Ok(JObj(Put(f.fields, "mods", c)))
  }

  function EntryKey(e: (string, Json)): Option<string> { Some(e.0) }
  function EntryValue(e: (string, Json)): Json { e.1 }

  /** The older `_process_kingdom_features`: where it does not raise, it
      builds the package loader's map. */
  function LegacyFeatureMap(doc: Json): (r: Result<map<string, Json>>)
    ensures r.Ok? ==> r.value == PackageFeatureMap(doc)
  {
    var cands :- LegacyCandidates(doc);
    var entries :- LegacyEntries(cands);
    LegacyEntriesAgree(cands);
    IndexOfNamed(cands);
    Ok(Assoc.Index(entries, EntryKey, EntryValue))
  }

  /** The (name, corrected feature) pairs of the named candidates. */
  function NamedEntries(fs: seq<Json>): seq<(string, Json)> {
    if |fs| == 0 then []
    else (if FeatureName(fs[0]).Some? then [(FeatureName(fs[0]).value, WithCorrectedMods(fs[0]))] else [])
         + NamedEntries(fs[1..])
  }

  lemma {:induction false} LegacyEntriesAgree(fs: seq<Json>)
    requires LegacyEntries(fs).Ok?
    ensures LegacyEntries(fs).value == NamedEntries(fs)
  {
    if |fs| > 0 {
      var rest := LegacyEntries(fs[1..]);
      assert rest.Ok?;
      LegacyEntriesAgree(fs[1..]);
      if FeatureName(fs[0]).Some? {
        var fixed := LegacyFix(fs[0]);
        assert fixed.Ok? && fixed.value == WithCorrectedMods(fs[0]);
        assert LegacyEntries(fs).value == [(FeatureName(fs[0]).value, fixed.value)] + rest.value;
      } else {
        assert LegacyEntries(fs) == rest;
      }
    }
  }

  /** Indexing the named pairs is indexing the candidates by name. */
  lemma {:induction false} IndexOfNamed(fs: seq<Json>)
    ensures Assoc.Index(NamedEntries(fs), EntryKey, EntryValue) == Assoc.Index(fs, FeatureName, WithCorrectedMods)
    decreases |fs|
  {
    if |fs| > 0 {
      var init := fs[..|fs| - 1];
      var last := fs[|fs| - 1];
      SplitLast(fs);
      NamedEntriesSnoc(init, last);
      IndexOfNamed(init);
      var a := NamedEntries(init);
      if FeatureName(last).Some? {
        var e := (FeatureName(last).value, WithCorrectedMods(last));
        assert NamedEntries([last]) == [e];
        var xs := a + [e];
        assert xs[..|xs| - 1] == a;
        assert Assoc.Index(xs, EntryKey, EntryValue) == Assoc.Index(a, EntryKey, EntryValue)[e.0 := e.1];
      } else {
        assert NamedEntries([last]) == [];
        assert a + [] == a;
      }
    }
  }

  lemma {:induction false} NamedEntriesSnoc(fs: seq<Json>, f: Json)
    ensures NamedEntries(fs + [f]) == NamedEntries(fs) + NamedEntries([f])
    decreases |fs|
  {
    if |fs| == 0 {
      assert fs + [f] == [f];
    } else {
      var xs := fs + [f];
      assert xs[0] == fs[0];
      assert xs[1..] == fs[1..] + [f];
      NamedEntriesSnoc(fs[1..], f);
      var head := if FeatureName(fs[0]).Some? then [(FeatureName(fs[0]).value, WithCorrectedMods(fs[0]))] else [];
      assert NamedEntries(xs) == head + NamedEntries(xs[1..]);
      assert NamedEntries(fs) == head + NamedEntries(fs[1..]);
    }
  }

  // ---------------------------------------------------------------------
  // Skills

  datatype SkillEntry = SkillEntry(category: string, stat: string)

  /** A skill listed at position `index` of a category. */
  datatype Slot = Slot(skill: string, category: string, index: nat)

  function Enumerate(category: string, skills: seq<string>): (r: seq<Slot>)
    ensures |r| == |skills|
    ensures forall i :: 0 <= i < |skills| ==> r[i] == Slot(skills[i], category, i)
  {
    seq(|skills|, i requires 0 <= i < |skills| => Slot(skills[i], category, i))
  }

  /** The skill at position i of list-valued category c. */
  predicate Listed(cats: seq<(string, Option<seq<string>>)>, c: int, i: int, s: string) {
    0 <= c < |cats| && cats[c].1.Some? && 0 <= i < |cats[c].1.value| && cats[c].1.value[i] == s
  }

  /** The slot records a listed skill of category c, under that category's name. */
  predicate SlotOf(cats: seq<(string, Option<seq<string>>)>, c: int, sl: Slot) {
    Listed(cats, c, sl.index, sl.skill) && cats[c].0 == sl.category
  }

  /** The slots of the list-valued categories, in iteration order;
      categories that are not lists (`None`) have none. */
  function ListSlots(cats: seq<(string, Option<seq<string>>)>): seq<Slot> {
    if |cats| == 0 then []
    else (if cats[0].1.Some? then Enumerate(cats[0].0, cats[0].1.value) else []) + ListSlots(cats[1..])
  }

  /** Every slot comes from a list-valued category. */
  lemma {:induction false} ListSlotsSound(cats: seq<(string, Option<seq<string>>)>, k: int)
    requires 0 <= k < |ListSlots(cats)|
    ensures exists c :: SlotOf(cats, c, ListSlots(cats)[k])
    decreases |cats|
  {
    var here := if cats[0].1.Some? then Enumerate(cats[0].0, cats[0].1.value) else [];
    if k < |here| {
      assert SlotOf(cats, 0, ListSlots(cats)[k]);
    } else {
      ListSlotsSound(cats[1..], k - |here|);
      var c :| SlotOf(cats[1..], c, ListSlots(cats[1..])[k - |here|]);
      assert SlotOf(cats, c + 1, ListSlots(cats)[k]);
    }
  }

  /** Every skill of a list-valued category has its slot. */
  lemma {:induction false} ListSlotsComplete(cats: seq<(string, Option<seq<string>>)>, c: int, i: int, s: string)
    requires Listed(cats, c, i, s)
    ensures Slot(s, cats[c].0, i) in ListSlots(cats)
    decreases |cats|
  {
    var here := if cats[0].1.Some? then Enumerate(cats[0].0, cats[0].1.value) else [];
    if c == 0 {
      assert here[i] == Slot(s, cats[c].0, i);
    } else {
      assert Listed(cats[1..], c - 1, i, s);
      ListSlotsComplete(cats[1..], c - 1, i, s);
    }
  }

  function SlotKey(s: Slot): Option<string> { Some(s.skill) }

  /** The package loader's `_process_skills`: with no stats, the empty triple;
      otherwise the stat list, the categories, and each listed skill mapped
      to its category and the stat at its position modulo the number of stats. */
  function PackageSkills(statsList: seq<string>, cats: seq<(string, Option<seq<string>>)>)
    : (r: (seq<string>, seq<(string, Option<seq<string>>)>, map<string, SkillEntry>))
    ensures |statsList| == 0 ==> r == ([], [], map[])
    ensures |statsList| > 0 ==> r.0 == statsList && r.1 == cats
    ensures |statsList| > 0 ==> forall s :: s in r.2 <==>
              exists k :: 0 <= k < |ListSlots(cats)| && ListSlots(cats)[k].skill == s
  {
    if |statsList| == 0 then ([], [], map[])
    else (statsList, cats, Assoc.Index(ListSlots(cats), SlotKey, (s: Slot) => SkillEntry(s.category, statsList[s.index % |statsList|])))
  }

  /** Every skill listed in a list-valued category is assigned. */
  lemma PackageSkillsListed(statsList: seq<string>, cats: seq<(string, Option<seq<string>>)>, c: int, i: int, s: string)
    requires |statsList| > 0 && Listed(cats, c, i, s)
    ensures s in PackageSkills(statsList, cats).2
  {
    var slots := ListSlots(cats);
    ListSlotsComplete(cats, c, i, s);
    var k :| 0 <= k < |slots| && slots[k] == Slot(s, cats[c].0, i);
    assert slots[k].skill == s;
  }

  /** Only listed skills are assigned. */
  lemma PackageSkillsOnlyListed(statsList: seq<string>, cats: seq<(string, Option<seq<string>>)>, s: string)
    requires |statsList| > 0 && s in PackageSkills(statsList, cats).2
    ensures exists c, i :: Listed(cats, c, i, s)
  {
    var slots := ListSlots(cats);
    var k :| 0 <= k < |slots| && slots[k].skill == s;
    ListSlotsSound(cats, k);
    var c :| SlotOf(cats, c, slots[k]);
    assert Listed(cats, c, slots[k].index, s);
  }

  /** The skill at position i of its category is governed by the stat at
      position i modulo the number of stats (the last listing of a skill wins). */
  lemma PackageSkillStat(statsList: seq<string>, cats: seq<(string, Option<seq<string>>)>, k: int)
    requires |statsList| > 0 && 0 <= k < |ListSlots(cats)|
    requires Assoc.LastWithKey(ListSlots(cats), SlotKey, k)
    ensures var sl := ListSlots(cats)[k];
            PackageSkills(statsList, cats).2[sl.skill] == SkillEntry(sl.category, statsList[sl.index % |statsList|])
  {
    Assoc.IndexLastWins(ListSlots(cats), SlotKey, (s: Slot) => SkillEntry(s.category, statsList[s.index % |statsList|]), k);
  }

  function AsLists(cats: seq<(string, seq<string>)>): (r: seq<(string, Option<seq<string>>)>)
    ensures |r| == |cats| && forall c :: 0 <= c < |cats| ==> r[c] == (cats[c].0, Some(cats[c].1))
  {
    seq(|cats|, c requires 0 <= c < |cats| => (cats[c].0, Some(cats[c].1)))
  }

  /** The entry for a slot once the index check has passed. */
  function LegacySkillValue(statsList: seq<string>, s: Slot): SkillEntry {
    SkillEntry(s.category, if s.index % 12 < |statsList| then statsList[s.index % 12] else "")
  }

  /** The older `_process_skills`: position i takes `stats_list[i % 12]`,
      which raises when the stat list is shorter than that. */
  function LegacySkills(statsList: seq<string>, cats: seq<(string, seq<string>)>): (r: Result<map<string, SkillEntry>>)
    ensures r.Ok? <==> forall k :: 0 <= k < |ListSlots(AsLists(cats))| ==> ListSlots(AsLists(cats))[k].index % 12 < |statsList|
    ensures |statsList| >= 12 ==> r.Ok?
    ensures r.Ok? ==> forall s :: s in r.value <==>
              exists k :: 0 <= k < |ListSlots(AsLists(cats))| && ListSlots(AsLists(cats))[k].skill == s
  {
    var slots := ListSlots(AsLists(cats));
    if forall k :: 0 <= k < |slots| ==> slots[k].index % 12 < |statsList| then
      Ok(Assoc.Index(slots, SlotKey, (s: Slot) => LegacySkillValue(statsList, s)))
    else Err("IndexError: list index out of range")
  }

  /** The skill at position i of its category is governed by the stat at
      position i modulo 12, whatever the number of stats (the last listing
      of a skill wins). */
  lemma LegacySkillStat(statsList: seq<string>, cats: seq<(string, seq<string>)>, k: int)
    requires LegacySkills(statsList, cats).Ok?
    requires 0 <= k < |ListSlots(AsLists(cats))| && Assoc.LastWithKey(ListSlots(AsLists(cats)), SlotKey, k)
    ensures var sl := ListSlots(AsLists(cats))[k];
            sl.index % 12 < |statsList| &&
            LegacySkills(statsList, cats).value[sl.skill] == SkillEntry(sl.category, statsList[sl.index % 12])
  {
    var slots := ListSlots(AsLists(cats));
    Assoc.IndexLastWins(slots, SlotKey, (s: Slot) => LegacySkillValue(statsList, s), k);
  }

  /** With exactly twelve stats the older loader and the package loader
      assign every skill the same category and stat. */
  lemma LegacySkillsAgree(statsList: seq<string>, cats: seq<(string, seq<string>)>)
    requires |statsList| == 12
    ensures LegacySkills(statsList, cats) == Ok(PackageSkills(statsList, AsLists(cats)).2)
  {
    var slots := ListSlots(AsLists(cats));
    Assoc.IndexSameValues(slots, SlotKey,
      (s: Slot) => LegacySkillValue(statsList, s),
      (s: Slot) => SkillEntry(s.category, statsList[s.index % |statsList|]));
  }

  /** A skill and the stat the app's skill file names for it. */
  datatype Governed = Governed(skill: string, category: string, stat: string)

  /** One category's (skill, governing stat) pairs, in order. */
  function CategorySlots(category: string, pairs: seq<(string, string)>): (r: seq<Governed>)
    ensures |r| == |pairs|
    ensures forall k :: 0 <= k < |r| ==> r[k] == Governed(pairs[k].0, category, pairs[k].1)
    ensures forall p :: p in pairs ==> Governed(p.0, category, p.1) in r
  {
    var r := seq(|pairs|, i requires 0 <= i < |pairs| => Governed(pairs[i].0, category, pairs[i].1));
    assert forall p :: p in pairs ==> Governed(p.0, category, p.1) in r by {
      forall p | p in pairs ensures Governed(p.0, category, p.1) in r {
        var i :| 0 <= i < |pairs| && pairs[i] == p;
        assert r[i] == Governed(p.0, category, p.1);
      }
    }
    r
  }

  /** The (skill, governing stat) pairs of the object-valued categories, in
      iteration order; a category that is not an object (`None`) has none. */
  function DictSlots(cats: seq<(string, Option<seq<(string, string)>>)>): (r: seq<Governed>)
    ensures forall k :: 0 <= k < |r| ==>
              (exists c :: 0 <= c < |cats| && cats[c].1.Some? && cats[c].0 == r[k].category &&
                 (r[k].skill, r[k].stat) in cats[c].1.value)
    ensures forall c, p :: 0 <= c < |cats| && cats[c].1.Some? && p in cats[c].1.value ==>
              Governed(p.0, cats[c].0, p.1) in r
  {
    if |cats| == 0 then []
    else
      var here := if cats[0].1.Some? then CategorySlots(cats[0].0, cats[0].1.value) else [];
      var rest := DictSlots(cats[1..]);
      assert forall c :: 1 <= c < |cats| ==> cats[c] == cats[1..][c - 1];
      assert forall k :: 0 <= k < |rest| ==> (here + rest)[|here| + k] == rest[k];
      here + rest
  }

  function GovernedEntry(g: Governed): SkillEntry { SkillEntry(g.category, g.stat) }

  /** The app loader's `_process_skills`: with no stats, the empty triple;
      otherwise each skill whose governing stat is in the stat list is mapped
      to its category and that stat, and the others are dropped. */
  function AppSkills(statsList: seq<string>, cats: seq<(string, Option<seq<(string, string)>>)>)
    : (r: (seq<string>, seq<(string, Option<seq<(string, string)>>)>, map<string, SkillEntry>))
    ensures |statsList| == 0 ==> r == ([], [], map[])
    ensures |statsList| > 0 ==> r.0 == statsList && r.1 == cats
    ensures |statsList| > 0 ==> forall s :: s in r.2 <==>
              exists k :: 0 <= k < |DictSlots(cats)| && DictSlots(cats)[k].skill == s && DictSlots(cats)[k].stat in statsList
  {
    if |statsList| == 0 then ([], [], map[])
    else
      var m := Assoc.Index(DictSlots(cats), (g: Governed) => if g.stat in statsList then Some(g.skill) else None, GovernedEntry);
      (statsList, cats, m)
  }

  /** Every kept skill records a category it was listed under and a stat that
      is in the stat list. */
  lemma AppSkillsKnownStats(statsList: seq<string>, cats: seq<(string, Option<seq<(string, string)>>)>, s: string)
    ensures s in AppSkills(statsList, cats).2 ==> AppSkills(statsList, cats).2[s].stat in statsList
    ensures s in AppSkills(statsList, cats).2 ==>
              exists c :: 0 <= c < |cats| && cats[c].1.Some? && cats[c].0 == AppSkills(statsList, cats).2[s].category &&
                (s, AppSkills(statsList, cats).2[s].stat) in cats[c].1.value
  {
    if s in AppSkills(statsList, cats).2 {
      Assoc.IndexValues(DictSlots(cats), (g: Governed) => if g.stat in statsList then Some(g.skill) else None, GovernedEntry, s);
    }
  }
}

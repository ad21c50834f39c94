/** The story engine's interaction handler
    (AI-TTRPG/story_engine/app/interaction_handler.py): using a door (open,
    close, locked with or without the key) and picking up an item, decided
    from the location's AI annotations.

    The world and character services are parameters: what each call answers
    is given, and the annotations written back are part of the result. */
module Interaction {
  import opened Wrappers
  import opened Text
  import opened Json

  /** What a service call did: answered, raised an HTTP error with its
      detail, or failed some other way. */
  datatype Call<+T> = Answered(value: T) | HttpFailed(detail: string) | Crashed

  datatype Request = Request(actorId: string, locationId: int, targetId: string, interactionType: string)

  /** The services the handler calls: the location context, the acting
      character's context, adding an item, and writing the annotations back
      (which answers the updated location context). */
  datatype World = World(location: Call<Json>, character: Call<Json>, addItem: Call<Json>,
                         update: Json -> Call<Json>)

  /** An `InteractionResponse`; `written` is the annotations sent back to the
      world, when the handler sent any. */
  datatype Response = Response(success: bool, message: string, updated: Option<Json>,
                               itemsAdded: seq<Json>, written: Option<seq<(string, Json)>>)

  /** The handler's result. A locked door whose key is held reaches a branch
      that does nothing, so the handler returns no response at all. */
  datatype Outcome = Answer(response: Response) | NoResponse

  function Fails(message: string): (o: Outcome)
    ensures o.Answer? && !o.response.success
  {
    Answer(Response(false, message, None, [], None))
  }

  const Unexpected := "An unexpected error occurred during the interaction."

  /** The target as the player reads it: underscores become spaces. */
  function Shown(target: string): string {
    ReplaceChar(target, '_', ' ')
  }

  /** A JSON value in an f-string, for the values a message shows; a list
      or a dict shows as "..." here. */
  function Format(j: Json): string {
    match j
    case JStr(s) => s
    case JInt(n) => IntToString(n)
    case JBool(b) => if b then "True" else "False"
    case JNull => "None"
    case _ => "..."
  }

  // ---------------------------------------------------------------------
  // The key check

  /** One inventory entry holds the key: its `item_id` is the key and its
      quantity (0 when absent) is positive. The quantity is only read when
      the id matches; an entry that is not a dict, or a quantity that is no
      number, raises. */
  function HoldsKey(item: Json, key: Json): Result<bool> {
    if !item.JObj? then Err("AttributeError: object has no attribute 'get'")
    else if Lookup(item.fields, "item_id").GetOr(JNull) != key then Ok(false)
    else match Number(Lookup(item.fields, "quantity").GetOr(JInt(0)))
      case None => Err("TypeError: '>' not supported")
      case Some(q) => Ok(q > 0)
  }

  /** Entry `i` holds the key and no earlier entry does. */
  predicate FirstHolder(items: seq<Json>, key: Json, i: int) {
    && 0 <= i < |items| && HoldsKey(items[i], key) == Ok(true)
    && forall j :: 0 <= j < i ==> HoldsKey(items[j], key) == Ok(false)
  }

  /** `any(...)` over the inventory: stops at the first entry holding the key. */
  function AnyHoldsKey(items: seq<Json>, key: Json): (r: Result<bool>)
    ensures r == Ok(true) <==> exists i :: FirstHolder(items, key, i)
    ensures r == Ok(false) <==> forall i :: 0 <= i < |items| ==> HoldsKey(items[i], key) == Ok(false)
  {
    if |items| == 0 then Ok(false)
    else
      var tail := items[1..];
      var r := AnyHoldsKey(tail, key);
      assert forall i :: 1 <= i < |items| ==> items[i] == tail[i - 1];
      match HoldsKey(items[0], key)
      case Err(e) =>
        assert !FirstHolder(items, key, 0);
        assert forall i :: 0 < i < |items| ==> !FirstHolder(items, key, i);
        Err(e)
      case Ok(true) =>
        assert FirstHolder(items, key, 0);
        Ok(true)
      case Ok(false) =>
        assert (exists i :: FirstHolder(tail, key, i)) <==> (exists i :: FirstHolder(items, key, i)) by {
          forall i | FirstHolder(tail, key, i) ensures FirstHolder(items, key, i + 1) {
            assert forall j :: 1 <= j < i + 1 ==> items[j] == tail[j - 1];
          }
          forall i | FirstHolder(items, key, i) ensures FirstHolder(tail, key, i - 1) {
            assert i != 0;
            assert forall j :: 0 <= j < i - 1 ==> tail[j] == items[j + 1];
          }
        }
        r
  }

  /** Whether the actor holds the key: the inventory of the character
      sheet, and false whenever the lookup or the scan fails. */
  function HasKeyFor(character: Call<Json>, key: Json): (r: bool)
    ensures r ==> character.Answered?
  {
    match character
    case Answered(context) =>
      (match PyGet(context, "character_sheet", JObj([]))
       case Ok(sheet) =>
         (match PyGet(sheet, "inventory", JArr([]))
          case Ok(inventory) =>
            (match Iterate(inventory)
             case Ok(items) => AnyHoldsKey(items, key) == Ok(true)
             case Err(_) => false)
          case Err(_) => false)
       case Err(_) => false)
    case _ => false
  }

  /** An inventory list holding the key with a positive quantity, after
      entries for other items, counts as holding the key. */
  lemma KeyInInventory(others: seq<Json>, key: string, quantity: int, sheet: seq<(string, Json)>)
    requires forall j :: 0 <= j < |others| ==> others[j].JObj? && Lookup(others[j].fields, "item_id") != Some(JStr(key))
    requires quantity > 0
    requires Lookup(sheet, "inventory") == Some(JArr(others + [JObj([("item_id", JStr(key)), ("quantity", JInt(quantity))])]))
    ensures HasKeyFor(Answered(JObj([("character_sheet", JObj(sheet))])), JStr(key))
  {
    var items := others + [JObj([("item_id", JStr(key)), ("quantity", JInt(quantity))])];
    forall j | 0 <= j < |others|
      ensures HoldsKey(items[j], JStr(key)) == Ok(false)
    {
      assert items[j] == others[j];
    }
    var entry := [("item_id", JStr(key)), ("quantity", JInt(quantity))];
    assert Lookup(entry, "item_id") == Some(JStr(key));
    assert Lookup(entry, "quantity") == Some(JInt(quantity));
    assert items[|others|] == JObj(entry);
    assert HoldsKey(items[|others|], JStr(key)) == Ok(true);
    assert FirstHolder(items, JStr(key), |others|);
    assert AnyHoldsKey(items, JStr(key)) == Ok(true);
    assert PyGet(JObj([("character_sheet", JObj(sheet))]), "character_sheet", JObj([])) == Ok(JObj(sheet));
  }

  // ---------------------------------------------------------------------
  // Doors

  /** Sends the annotations with the target's status set to `status`. */
  function SetStatus(w: World, annotations: seq<(string, Json)>, target: string, door: seq<(string, Json)>,
                     status: string, message: string): (r: Outcome)
    ensures r.Answer?
    ensures r.Answer? && r.response.success ==> r.response.written == Some(Put(annotations, target, JObj(Put(door, "status", JStr(status)))))
  {
    var written := Put(annotations, target, JObj(Put(door, "status", JStr(status))));
    match w.update(JObj(written))
    case Answered(context) =>
      if context.JObj? then Answer(Response(true, message, Some(Lookup(context.fields, "ai_annotations").GetOr(JNull)), [], Some(written)))
      else Fails(Unexpected)
    case HttpFailed(detail) => Fails("An error occurred: " + detail)
    case Crashed => Fails(Unexpected)
  }

  /** A locked door: with the key held nothing happens; otherwise the
      player is told it is locked, and which key it needs when it names one. */
  function LockedDoor(w: World, target: string, key: Json): (o: Outcome)
    ensures o.NoResponse? <==> Truthy(key) && HasKeyFor(w.character, key)
    ensures o.Answer? ==> !o.response.success && o.response.written.None?
  {
    if Truthy(key) && HasKeyFor(w.character, key) then NoResponse
    else Fails("The " + Shown(target) + " is locked."
               + (if Truthy(key) then " It seems to require a '" + Format(key) + "'." else ""))
  }

  /** "use" on a door: a locked door needs the key (and with it nothing
      happens); an unlocked or closed door opens; an open door closes. */
  function UseDoor(w: World, r: Request, annotations: seq<(string, Json)>, door: seq<(string, Json)>): (o: Outcome)
    ensures o.NoResponse? ==> Lookup(door, "status") == Some(JStr("locked"))
  {
    var status := Lookup(door, "status").GetOr(JNull);
    if status == JStr("locked") then LockedDoor(w, r.targetId, Lookup(door, "key_id").GetOr(JNull))
    else if status == JStr("unlocked") || status == JStr("closed") then
      SetStatus(w, annotations, r.targetId, door, "open", "You open the " + Shown(r.targetId) + ".")
    else if status == JStr("open") then
      SetStatus(w, annotations, r.targetId, door, "closed", "You close the " + Shown(r.targetId) + ".")
    else Fails("You can't use the door that way right now.")
  }

  // ---------------------------------------------------------------------
  // Item pickup

  /** "use" on an item pickup: the item goes to the actor, then the
      annotation is removed from the location. */
  function PickUp(w: World, r: Request, annotations: seq<(string, Json)>, pickup: seq<(string, Json)>): (o: Outcome)
    ensures o.Answer? && o.response.success ==> o.response.written == Some(Delete(annotations, r.targetId))
    ensures !Truthy(Lookup(pickup, "item_id").GetOr(JNull)) ==> o == Fails("There's nothing here to pick up.")
  {
    var item := Lookup(pickup, "item_id").GetOr(JNull);
    var quantity := Lookup(pickup, "quantity").GetOr(JInt(1));
    if !Truthy(item) then Fails("There's nothing here to pick up.")
    else match w.addItem
      case HttpFailed(_) => Fails("You couldn't pick that up.")
      case Crashed => Fails(Unexpected)
      case Answered(_) =>
        var written := Delete(annotations, r.targetId);
        match w.update(JObj(written))
        case HttpFailed(_) => Fails("You couldn't pick that up.")
        case Crashed => Fails(Unexpected)
        case Answered(context) =>
          if !context.JObj? then Fails(Unexpected)
          else Answer(Response(true,
            "You pick up the " + Shown(r.targetId) + " (" + Format(item) + " x" + Format(quantity) + ").",
            Some(Lookup(context.fields, "ai_annotations").GetOr(JNull)),
            [JObj([("item_id", item), ("quantity", quantity)])], Some(written)))
  }

  // ---------------------------------------------------------------------
  // The handler

  /** The kind of an annotated object, when the request is a "use" of a dict. */
  function UsedKind(r: Request, target: Json): Json {
    if r.interactionType == "use" && target.JObj? then Lookup(target.fields, "type").GetOr(JNull) else JNull
  }

  /** `handle_interaction`: the location's annotations, then the object. */
  function Handle(w: World, r: Request): (o: Outcome)
    ensures o.NoResponse? ==> r.interactionType == "use" && w.character.Answered?
    ensures o.Answer? && o.response.success ==> w.location.Answered? && o.response.written.Some?
  {
    match w.location
    case HttpFailed(detail) => Fails("An error occurred: " + detail)
    case Crashed => Fails(Unexpected)
    case Answered(context) =>
      if !context.JObj? then Fails(Unexpected)
      else
        var annotations := Lookup(context.fields, "ai_annotations").GetOr(JNull);
        if annotations == JNull then Fails("There are no interactable objects here.")
        else if !annotations.JObj? then Fails(Unexpected)
        else Dispatch(w, r, annotations.fields)
  }

  /** The annotated object and what the request does with it. */
  function Dispatch(w: World, r: Request, annotations: seq<(string, Json)>): (o: Outcome)
    ensures o.NoResponse? ==> r.interactionType == "use" && w.character.Answered?
    ensures o.Answer? && o.response.success ==> o.response.written.Some?
  {
    var target := Lookup(annotations, r.targetId).GetOr(JNull);
    if target == JNull then Fails("You don't see a '" + r.targetId + "' here to interact with.")
    else if UsedKind(r, target) == JStr("door") then UseDoor(w, r, annotations, target.fields)
    else if UsedKind(r, target) == JStr("item_pickup") then PickUp(w, r, annotations, target.fields)
    else Fails("You're not sure how to '" + r.interactionType + "' the " + Shown(r.targetId) + ".")
  }

  /** A location without annotations, or without the target, refuses. */
  lemma NothingToUse(w: World, r: Request, fields: seq<(string, Json)>)
    requires w.location == Answered(JObj(fields))
    requires !HasKey(fields, "ai_annotations") || Lookup(fields, "ai_annotations") == Some(JObj([]))
    ensures Handle(w, r).Answer? && !Handle(w, r).response.success
  {
  }

  /** A "use" of a door the location's annotations hold reaches `UseDoor`. */
  lemma HandleReachesDoor(w: World, r: Request, context: seq<(string, Json)>, annotations: seq<(string, Json)>,
                          door: seq<(string, Json)>)
    requires r.interactionType == "use"
    requires Lookup(annotations, r.targetId) == Some(JObj(door)) && Lookup(door, "type") == Some(JStr("door"))
    requires w.location == Answered(JObj(context)) && Lookup(context, "ai_annotations") == Some(JObj(annotations))
    ensures Handle(w, r) == UseDoor(w, r, annotations, door)
  {
    assert UsedKind(r, JObj(door)) == JStr("door");
    assert Handle(w, r) == Dispatch(w, r, annotations);
  }

  /** Using a door whose status is `from` writes the annotations back with
      status `to`, when the world accepts the write. */
  lemma UseDoorTurns(w: World, r: Request, annotations: seq<(string, Json)>, door: seq<(string, Json)>,
                     from: string, to: string)
    requires (from == "open" && to == "closed") || ((from == "closed" || from == "unlocked") && to == "open")
    requires Lookup(door, "status") == Some(JStr(from))
    requires forall a :: w.update(a).Answered? && w.update(a).value.JObj?
    ensures UseDoor(w, r, annotations, door).Answer? && UseDoor(w, r, annotations, door).response.success
    ensures UseDoor(w, r, annotations, door).response.written == Some(Put(annotations, r.targetId, JObj(Put(door, "status", JStr(to)))))
  {
    var written := Put(annotations, r.targetId, JObj(Put(door, "status", JStr(to))));
    assert w.update(JObj(written)).Answered? && w.update(JObj(written)).value.JObj?;
    if from == "open" {
      assert UseDoor(w, r, annotations, door) == SetStatus(w, annotations, r.targetId, door, "closed", "You close the " + Shown(r.targetId) + ".");
    } else {
      assert UseDoor(w, r, annotations, door) == SetStatus(w, annotations, r.targetId, door, "open", "You open the " + Shown(r.targetId) + ".");
    }
  }

  /** Using an open door closes it, and using the closed door again opens
      it, writing back exactly the annotations the location started with. */
  lemma DoorRoundTrip(w: World, r: Request, context: seq<(string, Json)>, annotations: seq<(string, Json)>,
                      door: seq<(string, Json)>)
    requires r.interactionType == "use"
    requires Lookup(annotations, r.targetId) == Some(JObj(door))
    requires Lookup(door, "type") == Some(JStr("door")) && Lookup(door, "status") == Some(JStr("open"))
    requires forall a :: w.update(a).Answered? && w.update(a).value.JObj?
    requires w.location == Answered(JObj(context)) && Lookup(context, "ai_annotations") == Some(JObj(annotations))
    ensures var closed := Handle(w, r);
            && closed.Answer? && closed.response.success && closed.response.written.Some?
            && var again := Handle(w.(location := Answered(JObj([("ai_annotations", JObj(closed.response.written.value))]))), r);
               again.Answer? && again.response.success && again.response.written == Some(annotations)
  {
    HandleReachesDoor(w, r, context, annotations, door);
    UseDoorTurns(w, r, annotations, door, "open", "closed");
    var shut := Put(door, "status", JStr("closed"));
    var written := Put(annotations, r.targetId, JObj(shut));
    var context2 := [("ai_annotations", JObj(written))];
    assert Lookup(context2, "ai_annotations") == Some(JObj(written));
    assert Lookup(shut, "type") == Some(JStr("door"));
    var w2 := w.(location := Answered(JObj(context2)));
    HandleReachesDoor(w2, r, context2, written, shut);
    UseDoorTurns(w2, r, written, shut, "closed", "open");
    PutPut(door, "status", JStr("closed"), JStr("open"));
    PutLookup(door, "status");
    PutPut(annotations, r.targetId, JObj(shut), JObj(door));
    PutLookup(annotations, r.targetId);
  }

  /** A locked door with a key the actor does not hold refuses and names the key. */
  lemma LockedWithoutKey(w: World, r: Request, annotations: seq<(string, Json)>, door: seq<(string, Json)>, key: string)
    requires Lookup(door, "status") == Some(JStr("locked")) && Lookup(door, "key_id") == Some(JStr(key)) && key != ""
    requires !HasKeyFor(w.character, JStr(key))
    ensures UseDoor(w, r, annotations, door)
         == Fails("The " + Shown(r.targetId) + " is locked." + " It seems to require a '" + key + "'.")
  {
    assert UseDoor(w, r, annotations, door) == LockedDoor(w, r.targetId, JStr(key));
  }

  /** A successful pickup removes the annotation, and reports the quantity
      as 1 when the annotation gives none. */
  lemma PickupRemovesAnnotation(w: World, r: Request, annotations: seq<(string, Json)>, pickup: seq<(string, Json)>)
    requires PickUp(w, r, annotations, pickup).Answer? && PickUp(w, r, annotations, pickup).response.success
    requires !HasKey(pickup, "quantity")
    ensures var resp := PickUp(w, r, annotations, pickup).response;
            && !HasKey(resp.written.value, r.targetId)
            && resp.itemsAdded == [JObj([("item_id", Lookup(pickup, "item_id").value), ("quantity", JInt(1))])]
  {
  }

  // ---------------------------------------------------------------------
  // The missing services, as written

  /** The world as the handler meets it as written: the story engine's
      service module defines neither `add_item_to_character` nor
      `update_location_annotations`, so each of those calls raises an
      AttributeError, which only the handler's last `except` catches. */
  function AsWritten(w: World): (v: World)
    ensures v.location == w.location && v.character == w.character
    ensures v.addItem == Crashed && forall a :: v.update(a) == Crashed
  {
    w.(addItem := Crashed, update := (a: Json) => Crashed)
  }

  /** `handle_interaction` as written. */
  function HandleAsWritten(w: World, r: Request): (o: Outcome)
    ensures o.Answer? ==> !o.response.success && o.response.written.None?
    ensures o.NoResponse? ==> r.interactionType == "use" && w.character.Answered?
  {
    CrashingWritesFail(AsWritten(w), r);
    Handle(AsWritten(w), r)
  }

  /** With both writing services crashing, no interaction succeeds or writes. */
  lemma CrashingWritesFail(w: World, r: Request)
    requires w.addItem == Crashed && forall a :: w.update(a) == Crashed
    ensures var o := Handle(w, r);
            o.Answer? ==> !o.response.success && o.response.written.None?
  {
    if w.location.Answered? && w.location.value.JObj? && Lookup(w.location.value.fields, "ai_annotations").GetOr(JNull).JObj? {
      CrashingDispatchFails(w, r, Lookup(w.location.value.fields, "ai_annotations").GetOr(JNull).fields);
    }
  }

  lemma CrashingDispatchFails(w: World, r: Request, annotations: seq<(string, Json)>)
    requires w.addItem == Crashed && forall a :: w.update(a) == Crashed
    ensures var o := Dispatch(w, r, annotations);
            o.Answer? ==> !o.response.success && o.response.written.None?
  {
    var target := Lookup(annotations, r.targetId).GetOr(JNull);
    if target != JNull && UsedKind(r, target) == JStr("door") {
      CrashingDoorFails(w, r, annotations, target.fields);
    }
  }

  /** With the annotation write crashing, using a door never succeeds. */
  lemma CrashingDoorFails(w: World, r: Request, annotations: seq<(string, Json)>, door: seq<(string, Json)>)
    requires forall a :: w.update(a) == Crashed
    ensures var o := UseDoor(w, r, annotations, door);
            o.Answer? ==> !o.response.success && o.response.written.None?
  {
    var status := Lookup(door, "status").GetOr(JNull);
    if status == JStr("open") {
      CrashingSetStatus(w, annotations, r.targetId, door, "closed", "You close the " + Shown(r.targetId) + ".");
    } else if status == JStr("unlocked") || status == JStr("closed") {
      CrashingSetStatus(w, annotations, r.targetId, door, "open", "You open the " + Shown(r.targetId) + ".");
    }
  }

  lemma CrashingSetStatus(w: World, annotations: seq<(string, Json)>, target: string, door: seq<(string, Json)>,
                          status: string, message: string)
    requires forall a :: w.update(a) == Crashed
    ensures SetStatus(w, annotations, target, door, status, message) == Fails(Unexpected)
  {
    assert w.update(JObj(Put(annotations, target, JObj(Put(door, "status", JStr(status)))))) == Crashed;
  }

  /** As written, opening or closing a door always ends in the unexpected
      error. */
  lemma ToggleFailsAsWritten(w: World, r: Request, context: seq<(string, Json)>, annotations: seq<(string, Json)>,
                             door: seq<(string, Json)>, from: string)
    requires r.interactionType == "use"
    requires from == "open" || from == "closed" || from == "unlocked"
    requires Lookup(annotations, r.targetId) == Some(JObj(door))
    requires Lookup(door, "type") == Some(JStr("door")) && Lookup(door, "status") == Some(JStr(from))
    requires w.location == Answered(JObj(context)) && Lookup(context, "ai_annotations") == Some(JObj(annotations))
    ensures HandleAsWritten(w, r) == Fails(Unexpected)
  {
    HandleReachesDoor(AsWritten(w), r, context, annotations, door);
  }

  /** As written, picking up an item that is there always ends in the
      unexpected error. */
  lemma PickupFailsAsWritten(w: World, r: Request, context: seq<(string, Json)>, annotations: seq<(string, Json)>,
                             pickup: seq<(string, Json)>)
    requires r.interactionType == "use"
    requires Lookup(annotations, r.targetId) == Some(JObj(pickup))
    requires Lookup(pickup, "type") == Some(JStr("item_pickup")) && Truthy(Lookup(pickup, "item_id").GetOr(JNull))
    requires w.location == Answered(JObj(context)) && Lookup(context, "ai_annotations") == Some(JObj(annotations))
    ensures HandleAsWritten(w, r) == Fails(Unexpected)
  {
    assert UsedKind(r, JObj(pickup)) == JStr("item_pickup");
    assert Handle(AsWritten(w), r) == Dispatch(AsWritten(w), r, annotations);
  }
}

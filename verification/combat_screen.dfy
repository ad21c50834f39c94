/** The combat screen of the player client, in its two versions:
    player_interface/srcsrc/screens/CombatScreen.tsx (an action menu with a
    pending attack, ability or item) and player_interface/src/screens/CombatScreen.tsx
    (attack only, for the fixed actor "player_1"). Both share the message log,
    the participant refresh and the end-of-combat check, defined once here.

    The screen is modelled as pure transitions over its state. The fetched
    characters and location and the action endpoint's answer are parameters;
    React's state updates, the loading flag, the 3-second end timer and the
    rendering are not part of the model. */
module CombatScreen {
  import opened Wrappers
  import opened Text
  import opened Json

  // ---------------------------------------------------------------------
  // The message log

  /** The log keeps this many messages, newest first. */
  const LogLimit := 10

  function Lesser(a: int, b: int): int {
    if a <= b then a else b
  }

  /** `addLog`: the new message first, then at most nine earlier ones. */
  function AddLog(log: seq<string>, message: string): (r: seq<string>)
    ensures 0 < |r| <= LogLimit && r[0] == message
  {
    [message] + log[..Lesser(LogLimit - 1, |log|)]
  }

  /** `messages.forEach(addLog)`. */
  function AddAll(log: seq<string>, messages: seq<string>): (r: seq<string>)
    ensures |messages| > 0 ==> |r| <= LogLimit
    decreases |messages|
  {
    if |messages| == 0 then log else AddAll(AddLog(log, messages[0]), messages[1..])
  }

  function Reverse(s: seq<string>): (r: seq<string>)
    ensures |r| == |s|
    ensures forall i :: 0 <= i < |s| ==> r[i] == s[|s| - 1 - i]
  {
    if |s| == 0 then [] else Reverse(s[1..]) + [s[0]]
  }

  /** The first `LogLimit` entries of a history, newest first. */
  function Newest(history: seq<string>): seq<string> {
    history[..Lesser(LogLimit, |history|)]
  }

  /** Adding a message to a log of at most `LogLimit` entries keeps the
      newest entries of the longer history. */
  lemma AddLogNewest(log: seq<string>, message: string)
    ensures |log| <= LogLimit ==> AddLog(log, message) == Newest([message] + log)
  {
  }

  lemma NewestOfNewest(front: seq<string>, back: seq<string>)
    ensures Newest(front + Newest(back)) == Newest(front + back)
  {
    var n := Lesser(LogLimit, |front + back|);
    assert |Newest(front + Newest(back))| == n;
    forall i | 0 <= i < n ensures Newest(front + Newest(back))[i] == Newest(front + back)[i] {
      if i >= |front| {
        assert (front + Newest(back))[i] == Newest(back)[i - |front|];
      }
    }
  }

  /** However many messages arrive, the log holds the ten newest of all the
      messages ever added, newest first. */
  lemma {:induction false} AddAllNewestFirst(log: seq<string>, messages: seq<string>)
    requires |log| <= LogLimit
    decreases |messages|
    ensures AddAll(log, messages) == Newest(Reverse(messages) + log)
  {
    if |messages| == 0 {
      assert Newest(Reverse(messages) + log) == log;
    } else {
      var m := messages[0];
      var rest := messages[1..];
      assert AddLog(log, m) == Newest([m] + log);
      AddAllNewestFirst(AddLog(log, m), rest);
      NewestOfNewest(Reverse(rest), [m] + log);
      assert Reverse(messages) == Reverse(rest) + [m];
      assert Reverse(rest) + ([m] + log) == Reverse(messages) + log;
    }
  }

  // ---------------------------------------------------------------------
  // Participants

  datatype Side = PlayerSide | NpcSide

  /** A participant as the screen holds it, reduced to what the combat logic reads. */
  datatype Combatant = Combatant(actorId: string, side: Side, currentHp: int)

  datatype NpcInstance = NpcInstance(id: int, currentHp: int)

  /** What the fetches return during one load: each player actor's current
      hit points (or the fetch's error message), and the location's NPC
      instances. A character the answers do not hold is not found. */
  datatype Snapshot = Snapshot(characters: map<string, Result<int>>, location: Result<seq<NpcInstance>>) {
    function Character(actorId: string): Result<int> {
      if actorId in characters then characters[actorId] else Err("404 Not Found")
    }
  }

  /** The actor id of an NPC instance, `npc_${npc.id}`. */
  function NpcActor(id: int): string {
    "npc_" + IntToString(id)
  }

  /** `npc_instances.find(...)`: the first instance whose actor id matches. */
  function FindNpc(npcs: seq<NpcInstance>, actorId: string): (r: Option<NpcInstance>)
    ensures r.Some? <==> exists i :: 0 <= i < |npcs| && NpcActor(npcs[i].id) == actorId
    ensures r.Some? ==> r.value in npcs && NpcActor(r.value.id) == actorId
  {
    if |npcs| == 0 then None
    else if NpcActor(npcs[0].id) == actorId then Some(npcs[0])
    else
      var r := FindNpc(npcs[1..], actorId);
      assert forall i :: 1 <= i < |npcs| ==> npcs[i] == npcs[1..][i - 1];
      r
  }

  /** One actor of the turn order, when its fetch succeeds: a `player_` actor
      from its character, an `npc_` actor from the location's instances; an
      actor the location does not hold, or of neither kind, yields nothing. */
  function Fetch(actorId: string, snapshot: Snapshot): Option<Combatant> {
    if StartsWith(actorId, "player_") then
      match snapshot.Character(actorId)
      case Ok(hp) => Some(Combatant(actorId, PlayerSide, hp))
      case Err(_) => None
    else if StartsWith(actorId, "npc_") then
      match snapshot.location
      case Ok(npcs) =>
        (match FindNpc(npcs, actorId)
         case Some(npc) => Some(Combatant(actorId, NpcSide, npc.currentHp))
         case None => None)
      case Err(_) => None
    else None
  }

  /** The participants in turn order: exactly the actors whose fetch succeeds. */
  function Gather(turnOrder: seq<string>, snapshot: Snapshot): (r: seq<Combatant>)
    ensures |r| <= |turnOrder|
    ensures forall p :: p in r ==> p.actorId in turnOrder && Fetch(p.actorId, snapshot) == Some(p)
    ensures forall a :: a in turnOrder && Fetch(a, snapshot).Some? ==> Fetch(a, snapshot).value in r
  {
    if |turnOrder| == 0 then []
    else
      assert forall a :: a in turnOrder ==> a == turnOrder[0] || a in turnOrder[1..];
      var rest := Gather(turnOrder[1..], snapshot);
      match Fetch(turnOrder[0], snapshot)
      case Some(p) => [p] + rest
      case None => rest
  }

  /** An NPC the location does not hold is left out of the participants. */
  lemma MissingNpcOmitted(turnOrder: seq<string>, snapshot: Snapshot, actorId: string)
    requires StartsWith(actorId, "npc_") && snapshot.location.Ok?
    requires forall npc :: npc in snapshot.location.value ==> NpcActor(npc.id) != actorId
    ensures forall p :: p in Gather(turnOrder, snapshot) ==> p.actorId != actorId
  {
    assert !StartsWith(actorId, "player_") by {
      assert actorId[0] == actorId[..4][0] == 'n';
    }
    assert FindNpc(snapshot.location.value, actorId).None?;
  }

  predicate Living(p: Combatant) {
    p.currentHp > 0
  }

  /** The living participants of one side. */
  function LivingCount(participants: seq<Combatant>, side: Side): (r: nat)
    ensures r == 0 <==> forall p :: p in participants && p.side == side ==> !Living(p)
    ensures r <= |participants|
  {
    if |participants| == 0 then 0
    else
      assert forall p :: p in participants ==> p == participants[0] || p in participants[1..];
      (if participants[0].side == side && Living(participants[0]) then 1 else 0) + LivingCount(participants[1..], side)
  }

  datatype Status = Ongoing | GameOver | Victory

  /** The end-of-combat check: no living player is a defeat, checked first,
      so that both sides down is a defeat; else no living NPC is a victory. */
  function Verdict(participants: seq<Combatant>): (r: Status)
    ensures r == GameOver <==> forall p :: p in participants && p.side == PlayerSide ==> !Living(p)
    ensures r == Victory <==>
              (exists p :: p in participants && p.side == PlayerSide && Living(p))
              && forall p :: p in participants && p.side == NpcSide ==> !Living(p)
  {
    if LivingCount(participants, PlayerSide) == 0 then GameOver
    else if LivingCount(participants, NpcSide) == 0 then Victory
    else Ongoing
  }

  /** The attack targets: exactly the living NPCs. */
  function Targets(participants: seq<Combatant>): (r: seq<Combatant>)
    ensures forall p :: p in r <==> p in participants && p.side == NpcSide && Living(p)
  {
    if |participants| == 0 then []
    else
      assert forall p :: p in participants ==> p == participants[0] || p in participants[1..];
      var rest := Targets(participants[1..]);
      if participants[0].side == NpcSide && Living(participants[0]) then [participants[0]] + rest else rest
  }

  // ---------------------------------------------------------------------
  // The board both versions share

  /** The turn index, the participants, the log, and whether combat is over
      (the end callback is then scheduled). */
  datatype Board = Board(turn: nat, participants: seq<Combatant>, log: seq<string>, over: bool)

  /** `refreshCombatState`: refetch every participant, end the combat when a
      side is down, and otherwise advance the turn, wrapping at the end of the
      turn order. */
  function Refresh(board: Board, turnOrder: seq<string>, snapshot: Snapshot): (r: Board)
    ensures r.participants == Gather(turnOrder, snapshot)
    ensures r.over <==> Verdict(r.participants) != Ongoing
    ensures !r.over ==> |turnOrder| > 0 && r.turn == (board.turn + 1) % |turnOrder|
    ensures r.over ==> r.turn == board.turn
    ensures |r.log| <= LogLimit
  {
    var log := AddLog(board.log, "Refreshing combat state...");
    var participants := Gather(turnOrder, snapshot);
    match Verdict(participants)
    case GameOver => Board(board.turn, participants, AddLog(log, "All players are defeated. Game Over."), true)
    case Victory => Board(board.turn, participants, AddLog(log, "All enemies are defeated. Victory!"), true)
    case Ongoing => Board((board.turn + 1) % |turnOrder|, participants, log, false)
  }

  /** With every participant down the result is a defeat, not a victory. */
  lemma BothSidesDownIsGameOver(board: Board, turnOrder: seq<string>, snapshot: Snapshot)
    requires forall p :: p in Gather(turnOrder, snapshot) ==> !Living(p)
    ensures Refresh(board, turnOrder, snapshot).over
    ensures Refresh(board, turnOrder, snapshot).log[0] == "All players are defeated. Game Over."
  {
  }

  /** A turn index inside the turn order stays inside it. */
  lemma TurnStaysInRange(board: Board, turnOrder: seq<string>, snapshot: Snapshot)
    requires board.turn < |turnOrder|
    ensures Refresh(board, turnOrder, snapshot).turn < |turnOrder|
  {
  }

  /** The initial fetch: the same participants as a refresh, the turn the
      combat starts on, and an error line for each failed fetch. */
  function Load(turnOrder: seq<string>, snapshot: Snapshot, startTurn: nat): (r: Board)
    ensures r.participants == Gather(turnOrder, snapshot) && r.turn == startTurn && !r.over
    ensures |r.log| <= LogLimit
    ensures LoadErrors(turnOrder, snapshot) == [] ==> r.log == ["Fetching participant data...", "Combat started!"]
  {
    var messages := ["Fetching participant data..."] + LoadErrors(turnOrder, snapshot);
    var log := AddAll(["Combat started!"], messages);
    assert LoadErrors(turnOrder, snapshot) == [] ==> log == ["Fetching participant data...", "Combat started!"] by {
      if LoadErrors(turnOrder, snapshot) == [] {
        assert messages == ["Fetching participant data..."];
        assert messages[1..] == [];
        var first := AddLog(["Combat started!"], "Fetching participant data...");
        assert AddAll(first, messages[1..]) == first;
        assert log == AddAll(first, messages[1..]);
        assert log == AddLog(["Combat started!"], "Fetching participant data...");
      }
    }
    Board(startTurn, Gather(turnOrder, snapshot), log, false)
  }

  /** The error lines of the initial fetch, one per failed fetch, in order. */
  function LoadErrors(turnOrder: seq<string>, snapshot: Snapshot): (r: seq<string>)
    ensures |r| <= |turnOrder|
    ensures (forall a :: a in turnOrder ==> snapshot.Character(a).Ok?) && snapshot.location.Ok? ==> r == []
  {
    if |turnOrder| == 0 then []
    else
      assert forall a :: a in turnOrder[1..] ==> a in turnOrder;
      var a := turnOrder[0];
      var rest := LoadErrors(turnOrder[1..], snapshot);
      if StartsWith(a, "player_") && snapshot.Character(a).Err? then
        ["Error fetching data for " + a + ": " + snapshot.Character(a).error] + rest
      else if !StartsWith(a, "player_") && StartsWith(a, "npc_") && snapshot.location.Err? then
        ["Error fetching data for " + a + ": " + snapshot.location.error] + rest
      else rest
  }

  /** The actor whose turn it is, when the index is inside the turn order. */
  predicate IsTurnOf(turnOrder: seq<string>, turn: nat, actorId: string) {
    turn < |turnOrder| && turnOrder[turn] == actorId
  }

  /** The action endpoint's answer: its log, success flag and message, or a
      thrown error. */
  datatype Posted = Replied(success: bool, lines: seq<string>, message: string) | Threw(message: string)

  /** What follows posting an action: the endpoint's log lines, then a refresh
      on success; a failure or a thrown error is logged and leaves the turn
      and the participants as they were. */
  function AfterPost(board: Board, posted: Posted, errorPrefix: string, turnOrder: seq<string>, snapshot: Snapshot): (r: Board)
    ensures posted.Replied? && posted.success ==> r == Refresh(board.(log := AddAll(board.log, posted.lines)), turnOrder, snapshot)
    ensures !(posted.Replied? && posted.success) ==>
              r.turn == board.turn && r.participants == board.participants && r.over == board.over
    ensures |board.log| <= LogLimit ==> |r.log| <= LogLimit
    ensures |board.log| <= LogLimit && posted.Threw? ==> r.log == Newest([errorPrefix + posted.message] + board.log)
    ensures |board.log| <= LogLimit && posted.Replied? && !posted.success ==>
              r.log == Newest(["Action failed: " + posted.message] + Reverse(posted.lines) + board.log)
    ensures |board.log| <= LogLimit && posted.Replied? && posted.success ==>
              r == Refresh(board.(log := Newest(Reverse(posted.lines) + board.log)), turnOrder, snapshot)
  {
    match posted
    case Threw(message) =>
      AddLogNewest(board.log, errorPrefix + message);
      board.(log := AddLog(board.log, errorPrefix + message))
    case Replied(success, lines, message) =>
      var logged := board.(log := AddAll(board.log, lines));
      assert |board.log| <= LogLimit ==> logged.log == Newest(Reverse(lines) + board.log) by {
        if |board.log| <= LogLimit {
          AddAllNewestFirst(board.log, lines);
        }
      }
      assert |board.log| <= LogLimit ==>
               AddLog(logged.log, "Action failed: " + message)
               == Newest(["Action failed: " + message] + Reverse(lines) + board.log) by {
        if |board.log| <= LogLimit {
          AddLogNewest(logged.log, "Action failed: " + message);
          NewestOfNewest(["Action failed: " + message], Reverse(lines) + board.log);
          assert ["Action failed: " + message] + (Reverse(lines) + board.log)
                 == ["Action failed: " + message] + Reverse(lines) + board.log;
        }
      }
      if success then Refresh(logged, turnOrder, snapshot)
      else logged.(log := AddLog(logged.log, "Action failed: " + message))
  }

  /** The histories after a line was logged and the action posted: the
      newest entries of the history with the line under the answer's lines. */
  predicate PostedOnto(logged: seq<string>, log: seq<string>, line: string, posted: Posted, errorPrefix: string) {
    && Newest([errorPrefix + posted.message] + logged) == Newest([errorPrefix + posted.message, line] + log)
    && (posted.Replied? ==>
          && Newest(["Action failed: " + posted.message] + Reverse(posted.lines) + logged)
             == Newest(["Action failed: " + posted.message] + Reverse(posted.lines) + [line] + log)
          && Newest(Reverse(posted.lines) + logged) == Newest(Reverse(posted.lines) + [line] + log))
  }

  lemma PostedOntoHolds(log: seq<string>, line: string, posted: Posted, errorPrefix: string)
    requires |log| <= LogLimit
    ensures PostedOnto(AddLog(log, line), log, line, posted, errorPrefix)
  {
    AddLogNewest(log, line);
    var error := [errorPrefix + posted.message];
    NewestOfNewest(error, [line] + log);
    assert error + ([line] + log) == [errorPrefix + posted.message, line] + log;
    if posted.Replied? {
      var failed := ["Action failed: " + posted.message] + Reverse(posted.lines);
      NewestOfNewest(failed, [line] + log);
      assert failed + ([line] + log) == failed + [line] + log;
      NewestOfNewest(Reverse(posted.lines), [line] + log);
      assert Reverse(posted.lines) + ([line] + log) == Reverse(posted.lines) + [line] + log;
    }
  }

  // ---------------------------------------------------------------------
  // The action menu (srcsrc version)

  datatype Menu = MainMenu | SelectTarget | SelectAbility | SelectItem

  datatype ActionKind = AttackAction | AbilityAction | ItemAction

  /** The chosen action awaiting a target: its kind, the ability or item id,
      and the name shown in the log. */
  datatype Pending = Pending(kind: ActionKind, id: Option<string>, name: string)

  datatype Screen = Screen(board: Board, menu: Menu, pending: Option<Pending>)

  /** Back: the main menu with nothing pending. */
  function ResetToMain(s: Screen): (r: Screen)
    ensures r.menu == MainMenu && r.pending.None? && r.board == s.board
  {
    s.(menu := MainMenu, pending := None)
  }

  function ChooseAttack(s: Screen): (r: Screen)
    ensures r.menu == SelectTarget && r.pending == Some(Pending(AttackAction, None, "Attack")) && r.board == s.board
  {
    s.(menu := SelectTarget, pending := Some(Pending(AttackAction, None, "Attack")))
  }

  function ChooseAbility(s: Screen, abilityId: string, abilityName: string): (r: Screen)
    ensures r.menu == SelectTarget && r.board == s.board
    ensures r.pending == Some(Pending(AbilityAction, Some(abilityId), "Ability: " + abilityName))
  {
    s.(menu := SelectTarget, pending := Some(Pending(AbilityAction, Some(abilityId), "Ability: " + abilityName)))
  }

  function ChooseItem(s: Screen, templateId: string): (r: Screen)
    ensures r.menu == SelectTarget && r.board == s.board
    ensures r.pending == Some(Pending(ItemAction, Some(templateId), "Item: " + templateId))
  {
    s.(menu := SelectTarget, pending := Some(Pending(ItemAction, Some(templateId), "Item: " + templateId)))
  }

  /** Going back after choosing an action returns to the main menu as if
      nothing had been chosen. */
  lemma BackForgetsChoice(s: Screen, abilityId: string, abilityName: string, templateId: string)
    ensures ResetToMain(ChooseAttack(s)) == ResetToMain(s)
    ensures ResetToMain(ChooseAbility(s, abilityId, abilityName)) == ResetToMain(s)
    ensures ResetToMain(ChooseItem(s, templateId)) == ResetToMain(s)
  {
  }

  /** The request body; an action without an id sends no id field. */
  function Payload(pending: Pending, targetId: string): (r: seq<(string, Json)>)
  {
    match pending.kind
    case AttackAction => [("action", JStr("attack")), ("target_id", JStr(targetId))]
    case AbilityAction =>
      [("action", JStr("use_ability"))]
      + (if pending.id.Some? then [("ability_id", JStr(pending.id.value))] else [])
      + [("target_id", JStr(targetId))]
    case ItemAction =>
      [("action", JStr("use_item"))]
      + (if pending.id.Some? then [("item_id", JStr(pending.id.value))] else [])
      + [("target_id", JStr(targetId))]
  }

  /** How the combat endpoint reads an action body back. */
  function ReadAction(body: seq<(string, Json)>): Option<(ActionKind, Option<string>, string)> {
    match (Lookup(body, "action"), Lookup(body, "target_id"))
    case (Some(JStr("attack")), Some(JStr(t))) => Some((AttackAction, None, t))
    case (Some(JStr("use_ability")), Some(JStr(t))) =>
      Some((AbilityAction, if Lookup(body, "ability_id").Some? && Lookup(body, "ability_id").value.JStr? then Some(Lookup(body, "ability_id").value.s) else None, t))
    case (Some(JStr("use_item")), Some(JStr(t))) =>
      Some((ItemAction, if Lookup(body, "item_id").Some? && Lookup(body, "item_id").value.JStr? then Some(Lookup(body, "item_id").value.s) else None, t))
    case _ => None
  }

  /** The body carries the pending action's kind and id and the target;
      an attack carries no id. */
  lemma PayloadReadsBack(pending: Pending, targetId: string)
    requires pending.kind == AttackAction ==> pending.id.None?
    ensures ReadAction(Payload(pending, targetId)) == Some((pending.kind, pending.id, targetId))
  {
    var body := Payload(pending, targetId);
    assert body[0] == ("action", body[0].1);
    assert body[|body| - 1] == ("target_id", JStr(targetId));
    if pending.id.Some? && pending.kind != AttackAction {
      assert body[1].1 == JStr(pending.id.value);
    }
  }

  /** The outcome of choosing a target: the board after the action, and the
      body sent, if any. */
  datatype Acted = Acted(screen: Screen, sent: Option<seq<(string, Json)>>)

  /** `handlePlayerAction`: nothing happens unless it is the player's turn and
      an action is pending; otherwise the action is posted, and whatever the
      outcome the menu returns to main with nothing pending. */
  function HandlePlayerAction(s: Screen, turnOrder: seq<string>, playerActorId: string, targetId: string,
                              posted: Posted, snapshot: Snapshot): (r: Acted)
    ensures !IsTurnOf(turnOrder, s.board.turn, playerActorId) || s.pending.None? ==> r == Acted(s, None)
    ensures IsTurnOf(turnOrder, s.board.turn, playerActorId) && s.pending.Some? ==>
              && r.screen.menu == MainMenu && r.screen.pending.None?
              && r.sent == Some(Payload(s.pending.value, targetId))
    ensures |s.board.log| <= LogLimit ==> |r.screen.board.log| <= LogLimit
    ensures !(posted.Replied? && posted.success) ==> r.screen.board.turn == s.board.turn
    ensures IsTurnOf(turnOrder, s.board.turn, playerActorId) && s.pending.Some? && |s.board.log| <= LogLimit ==>
              var line := "Player performing: " + s.pending.value.name + " on " + targetId + "...";
              && (posted.Threw? ==> r.screen.board.log == Newest(["Error performing action: " + posted.message, line] + s.board.log))
              && (posted.Replied? && !posted.success ==>
                    r.screen.board.log == Newest(["Action failed: " + posted.message] + Reverse(posted.lines) + [line] + s.board.log))
              && (posted.Replied? && posted.success ==>
                    r.screen.board == Refresh(s.board.(log := Newest(Reverse(posted.lines) + [line] + s.board.log)), turnOrder, snapshot))
  {
    if !IsTurnOf(turnOrder, s.board.turn, playerActorId) || s.pending.None? then Acted(s, None)
    else
      var pending := s.pending.value;
      var line := "Player performing: " + pending.name + " on " + targetId + "...";
      var board := s.board.(log := AddLog(s.board.log, line));
      assert |s.board.log| <= LogLimit ==> PostedOnto(board.log, s.board.log, line, posted, "Error performing action: ") by {
        if |s.board.log| <= LogLimit {
          PostedOntoHolds(s.board.log, line, posted, "Error performing action: ");
        }
      }
      Acted(Screen(AfterPost(board, posted, "Error performing action: ", turnOrder, snapshot), MainMenu, None),
            Some(Payload(pending, targetId)))
  }

  // ---------------------------------------------------------------------
  // The attack-only version (src)

  /** The fixed player actor of the attack-only screen. */
  const FixedPlayer := "player_1"

  /** `handlePlayerAttack`: a no-op unless it is "player_1"'s turn; otherwise
      an attack on the target is posted, and the turn moves only when the
      attack succeeds and the combat goes on. */
  function HandlePlayerAttack(board: Board, turnOrder: seq<string>, targetId: string, posted: Posted, snapshot: Snapshot): (r: (Board, Option<seq<(string, Json)>>))
    ensures !IsTurnOf(turnOrder, board.turn, FixedPlayer) ==> r == (board, None)
    ensures IsTurnOf(turnOrder, board.turn, FixedPlayer) ==>
              r.1 == Some([("action", JStr("attack")), ("target_id", JStr(targetId))])
    ensures !(posted.Replied? && posted.success) ==> r.0.turn == board.turn && r.0.participants == board.participants
    ensures |board.log| <= LogLimit ==> |r.0.log| <= LogLimit
    ensures IsTurnOf(turnOrder, board.turn, FixedPlayer) && |board.log| <= LogLimit ==>
              var line := "Player attacking " + targetId + "...";
              && (posted.Threw? ==> r.0.log == Newest(["Error attacking: " + posted.message, line] + board.log))
              && (posted.Replied? && !posted.success ==>
                    r.0.log == Newest(["Action failed: " + posted.message] + Reverse(posted.lines) + [line] + board.log))
              && (posted.Replied? && posted.success ==>
                    r.0 == Refresh(board.(log := Newest(Reverse(posted.lines) + [line] + board.log)), turnOrder, snapshot))
  {
    if !IsTurnOf(turnOrder, board.turn, FixedPlayer) then (board, None)
    else
      var line := "Player attacking " + targetId + "...";
      var logged := board.(log := AddLog(board.log, line));
      assert |board.log| <= LogLimit ==> PostedOnto(logged.log, board.log, line, posted, "Error attacking: ") by {
        if |board.log| <= LogLimit {
          PostedOntoHolds(board.log, line, posted, "Error attacking: ");
        }
      }
      (AfterPost(logged, posted, "Error attacking: ", turnOrder, snapshot),
       Some(Payload(Pending(AttackAction, None, "Attack"), targetId)))
  }
}

/** The sprite lookup of the player client's two asset loaders:
    player_interface/public/assets/assetLoader.ts (tiles only) and
    player_interface/src/assets/assetLoader.ts (tiles, then entities).
    Both turn 1-based sheet positions into 0-based grid cells, cache one URL
    per sprite sheet (the first written wins), and compute a 128-pixel clip
    for an id and an optional state.

    The definition files are parameters, in the order `for ... in` visits
    their keys. Ids arrive as strings (`String(id)` is the caller's). */
module AssetLoader {
  import opened Wrappers

  /** Tiles and entity sprites are 128 pixels square. */
  const TileSize := 128

  /** A position on a sheet as the mappings write it: 1-based column and row. */
  datatype Placement = Placement(sheet: string, col: int, row: int)

  /** A position as stored: 0-based grid column and row. */
  datatype SpriteInfo = SpriteInfo(sheet: string, gridCol: int, gridRow: int)

  /** The hand-written tile mapping both loaders share: grass, tree, water,
      stone floor, stone wall, the closed door and the open door state. */
  const ManualTileMap: map<string, Placement> := map[
    "0" := Placement("outdoor_tiles_1.png", 3, 3),
    "1" := Placement("outdoor_tiles_1.png", 5, 4),
    "2" := Placement("outdoor_tiles_1.png", 2, 5),
    "3" := Placement("indoor_town_default_1.png", 3, 4),
    "4" := Placement("indoor_town_default_1.png", 2, 1),
    "5" := Placement("indoor_town_default_1.png", 3, 1),
    "5_open" := Placement("indoor_town_default_1.png", 1, 1)]

  const TilesFolder := "/assets/graphics/tiles/"
  const EntitiesFolder := "/assets/graphics/entities/"
  const FallbackUrl := "/assets/graphics/tiles/fallback.png"

  /** A tile definition, reduced to the names of its states (none when the
      definition has no `states`). */
  datatype TileDef = TileDef(states: seq<string>)

  datatype EntityDef = EntityDef(sheet: string, col: int, row: int)

  /** The sprite map and the sheet URL cache. */
  datatype Assets = Assets(sprites: map<string, SpriteInfo>, urls: map<string, string>)

  const NoAssets := Assets(map[], map[])

  /** The 1-based placement as a 0-based cell. */
  function ToGrid(p: Placement): (r: SpriteInfo)
    ensures r.sheet == p.sheet && r.gridCol + 1 == p.col && r.gridRow + 1 == p.row
  {
    SpriteInfo(p.sheet, p.col - 1, p.row - 1)
  }

  /** `cacheSheetUrl`: the first URL cached for a sheet is kept. */
  function Cache(urls: map<string, string>, sheet: string, folder: string): (r: map<string, string>)
    ensures sheet in r
    ensures sheet in urls ==> r == urls
    ensures sheet !in urls ==> r[sheet] == folder + sheet
    ensures forall s :: s in urls ==> s in r && r[s] == urls[s]
    ensures forall s :: s in r ==> s in urls || s == sheet
  {
    if sheet in urls then urls else urls[sheet := folder + sheet]
  }

  /** Record one sprite and cache its sheet. */
  function AddSprite(a: Assets, key: string, p: Placement, folder: string): Assets {
    Assets(a.sprites[key := ToGrid(p)], Cache(a.urls, p.sheet, folder))
  }

  /** Every stored sprite's sheet has a cached URL. */
  predicate Cached(a: Assets) {
    forall k :: k in a.sprites ==> a.sprites[k].sheet in a.urls
  }

  /** Every stored sprite is the manual mapping's, converted. */
  predicate FromManual(sprites: map<string, SpriteInfo>) {
    forall k :: k in sprites ==> k in ManualTileMap && sprites[k] == ToGrid(ManualTileMap[k])
  }

  /** The sheets the manual mapping uses. */
  const ManualSheets: set<string> := {"outdoor_tiles_1.png", "indoor_town_default_1.png"}

  /** Every cached URL is the tiles-folder URL of a sheet the manual mapping uses. */
  predicate TileUrls(urls: map<string, string>) {
    forall s :: s in urls ==> s in ManualSheets && urls[s] == TilesFolder + s
  }

  /** The key of a tile state, `${tileId}_${stateName}`. */
  function StateKey(id: string, state: string): string {
    id + "_" + state
  }

  /** The manual mapping's entry for `key`, stored with its sheet cached
      under the tiles folder. */
  function AddManual(a: Assets, key: string): (r: Assets)
    requires key in ManualTileMap
    ensures Cached(a) ==> Cached(r)
    ensures FromManual(a.sprites) ==> FromManual(r.sprites)
    ensures TileUrls(a.urls) ==> TileUrls(r.urls)
    ensures r.sprites.Keys == a.sprites.Keys + {key}
  {
    assert ManualTileMap[key].sheet in ManualSheets;
    AddSprite(a, key, ManualTileMap[key], TilesFolder)
  }

  /** The state keys of one tile that the manual mapping lists get an entry;
      a state without a mapping gets none. */
  function AddStates(a: Assets, tileId: string, states: seq<string>): (r: Assets)
    ensures Cached(a) ==> Cached(r)
    ensures FromManual(a.sprites) ==> FromManual(r.sprites)
    ensures TileUrls(a.urls) ==> TileUrls(r.urls)
    ensures forall k :: k in a.sprites ==> k in r.sprites
    ensures forall i :: 0 <= i < |states| && StateKey(tileId, states[i]) in ManualTileMap ==> StateKey(tileId, states[i]) in r.sprites
    ensures forall k :: k in r.sprites ==> k in a.sprites || k in ManualTileMap
    decreases |states|
  {
    if |states| == 0 then a
    else
      var key := StateKey(tileId, states[0]);
      var next := if key in ManualTileMap then AddManual(a, key) else a;
      var r := AddStates(next, tileId, states[1..]);
      assert forall i :: 1 <= i < |states| ==> states[i] == states[1..][i - 1];
      r
  }

  /** One tile: its own entry when the manual mapping lists its id, then its states. */
  function AddTile(a: Assets, tileId: string, def: TileDef): (r: Assets)
    ensures Cached(a) ==> Cached(r)
    ensures FromManual(a.sprites) ==> FromManual(r.sprites)
    ensures TileUrls(a.urls) ==> TileUrls(r.urls)
    ensures forall k :: k in a.sprites ==> k in r.sprites
    ensures tileId in ManualTileMap ==> tileId in r.sprites
    ensures forall i :: 0 <= i < |def.states| && StateKey(tileId, def.states[i]) in ManualTileMap ==> StateKey(tileId, def.states[i]) in r.sprites
    ensures forall k :: k in r.sprites ==> k in a.sprites || k in ManualTileMap
  {
    AddStates(if tileId in ManualTileMap then AddManual(a, tileId) else a, tileId, def.states)
  }

  function AddTiles(a: Assets, tiles: seq<(string, TileDef)>): (r: Assets)
    ensures Cached(a) ==> Cached(r)
    ensures FromManual(a.sprites) ==> FromManual(r.sprites)
    ensures TileUrls(a.urls) ==> TileUrls(r.urls)
    ensures forall k :: k in a.sprites ==> k in r.sprites
    ensures forall i :: 0 <= i < |tiles| && tiles[i].0 in ManualTileMap ==> tiles[i].0 in r.sprites
    ensures forall i, j :: 0 <= i < |tiles| && 0 <= j < |tiles[i].1.states| && StateKey(tiles[i].0, tiles[i].1.states[j]) in ManualTileMap
              ==> StateKey(tiles[i].0, tiles[i].1.states[j]) in r.sprites
    ensures forall k :: k in r.sprites ==> k in a.sprites || k in ManualTileMap
    decreases |tiles|
  {
    if |tiles| == 0 then a
    else
      var r := AddTiles(AddTile(a, tiles[0].0, tiles[0].1), tiles[1..]);
      assert forall i :: 1 <= i < |tiles| ==> tiles[i] == tiles[1..][i - 1];
      r
  }

  /** `buildTileSpriteMap` (the tiles-only loader). */
  function BuildTileSpriteMap(tiles: seq<(string, TileDef)>): (r: Assets)
    ensures Cached(r) && FromManual(r.sprites) && TileUrls(r.urls)
    ensures forall i :: 0 <= i < |tiles| && tiles[i].0 in ManualTileMap ==> tiles[i].0 in r.sprites
    ensures forall i, j :: 0 <= i < |tiles| && 0 <= j < |tiles[i].1.states| && StateKey(tiles[i].0, tiles[i].1.states[j]) in ManualTileMap
              ==> StateKey(tiles[i].0, tiles[i].1.states[j]) in r.sprites
  {
    AddTiles(NoAssets, tiles)
  }

  /** An entity's sprite: its 1-based placement as a 0-based cell. */
  function EntitySprite(e: EntityDef): SpriteInfo {
    ToGrid(Placement(e.sheet, e.col, e.row))
  }

  /** Entry `i` defines its entity, and no later entry defines the same id. */
  predicate LastDefinition(entities: seq<(string, Option<EntityDef>)>, i: int) {
    && 0 <= i < |entities| && entities[i].1.Some?
    && forall j :: i < j < |entities| && entities[j].0 == entities[i].0 ==> entities[j].1.None?
  }

  /** No entry defines the id `k`. */
  predicate Undefined(entities: seq<(string, Option<EntityDef>)>, k: string) {
    forall i :: 0 <= i < |entities| && entities[i].0 == k ==> entities[i].1.None?
  }

  /** The entity sprites, each in the entities folder unless its sheet is
      already cached; a null definition is skipped. */
  function AddEntities(a: Assets, entities: seq<(string, Option<EntityDef>)>): (r: Assets)
    ensures Cached(a) ==> Cached(r)
    ensures forall s :: s in a.urls ==> s in r.urls && r.urls[s] == a.urls[s]
    ensures forall s :: s in r.urls && s !in a.urls ==> r.urls[s] == EntitiesFolder + s
    ensures forall i :: 0 <= i < |entities| && entities[i].1.Some? ==> entities[i].1.value.sheet in r.urls
    ensures forall i :: LastDefinition(entities, i) ==>
              entities[i].0 in r.sprites && r.sprites[entities[i].0] == EntitySprite(entities[i].1.value)
    ensures forall k :: k in a.sprites && Undefined(entities, k) ==> k in r.sprites && r.sprites[k] == a.sprites[k]
    ensures forall k :: k in r.sprites ==> k in a.sprites || exists i :: 0 <= i < |entities| && entities[i].0 == k
    decreases |entities|
  {
    if |entities| == 0 then a
    else
      var next := match entities[0].1
        case Some(e) => AddSprite(a, entities[0].0, Placement(e.sheet, e.col, e.row), EntitiesFolder)
        case None => a;
      var rest := entities[1..];
      var r := AddEntities(next, rest);
      EntitiesTail(entities);
      assert forall k :: k in r.sprites ==> k in a.sprites || k == entities[0].0 || exists i :: 0 <= i < |rest| && rest[i].0 == k;
      r
  }

  /** How the entity predicates see the entries after the first. */
  lemma EntitiesTail(entities: seq<(string, Option<EntityDef>)>)
    requires |entities| > 0
    ensures forall i :: 0 <= i < |entities| - 1 ==> entities[1..][i] == entities[i + 1]
    ensures forall i :: 1 <= i < |entities| && LastDefinition(entities, i) ==> LastDefinition(entities[1..], i - 1)
    ensures LastDefinition(entities, 0) ==> Undefined(entities[1..], entities[0].0)
    ensures forall k :: Undefined(entities, k) ==> Undefined(entities[1..], k) && (k == entities[0].0 ==> entities[0].1.None?)
  {
    var rest := entities[1..];
    assert forall i :: 1 <= i < |entities| ==> entities[i] == rest[i - 1];
  }

  /** `buildSpriteLookupMap` (the tiles-and-entities loader): the tiles,
      then every defined entity at its last definition's cell, with a
      sheet no tile uses cached under the entities folder. */
  function BuildSpriteLookupMap(tiles: seq<(string, TileDef)>, entities: seq<(string, Option<EntityDef>)>): (r: Assets)
    ensures Cached(r)
    ensures forall s :: s in BuildTileSpriteMap(tiles).urls ==> s in r.urls && r.urls[s] == TilesFolder + s
    ensures forall s :: s in r.urls && s !in BuildTileSpriteMap(tiles).urls ==> r.urls[s] == EntitiesFolder + s
    ensures forall i :: LastDefinition(entities, i) ==>
              entities[i].0 in r.sprites && r.sprites[entities[i].0] == EntitySprite(entities[i].1.value)
    ensures forall k :: k in BuildTileSpriteMap(tiles).sprites && Undefined(entities, k) ==>
              k in r.sprites && r.sprites[k] == ToGrid(ManualTileMap[k])
  {
    AddEntities(BuildTileSpriteMap(tiles), entities)
  }

  // ---------------------------------------------------------------------
  // Render info

  datatype RenderInfo = RenderInfo(sheetUrl: string, sx: int, sy: int, width: int, height: int)

  const FallbackInfo := RenderInfo(FallbackUrl, 0, 0, TileSize, TileSize)

  /** The lookup key: the state key when a non-empty state is given. */
  function KeyFor(id: string, state: Option<string>): string {
    if state.Some? && state.value != "" then StateKey(id, state.value) else id
  }

  /** The clip of a found sprite: its cell scaled by the tile size, or the
      fallback image when its sheet has no cached URL. */
  function Clip(a: Assets, info: SpriteInfo): (r: RenderInfo)
    ensures info.sheet in a.urls ==>
              r == RenderInfo(a.urls[info.sheet], info.gridCol * TileSize, info.gridRow * TileSize, TileSize, TileSize)
    ensures info.sheet !in a.urls ==> r == FallbackInfo
  {
    if info.sheet !in a.urls then FallbackInfo
    else RenderInfo(a.urls[info.sheet], info.gridCol * TileSize, info.gridRow * TileSize, TileSize, TileSize)
  }

  /** `getTileRenderInfo` (tiles-only loader): the state's sprite, else the
      tile's own, else the fallback image at (0, 0); never undefined. */
  function GetTileRenderInfo(a: Assets, id: string, state: Option<string>): (r: RenderInfo)
    ensures KeyFor(id, state) in a.sprites ==> r == Clip(a, a.sprites[KeyFor(id, state)])
    ensures KeyFor(id, state) !in a.sprites && id in a.sprites ==> r == Clip(a, a.sprites[id])
    ensures KeyFor(id, state) !in a.sprites && id !in a.sprites ==> r == FallbackInfo
  {
    var key := KeyFor(id, state);
    if key in a.sprites then Clip(a, a.sprites[key])
    else if id in a.sprites then Clip(a, a.sprites[id])
    else FallbackInfo
  }

  /** `getSpriteRenderInfo` (tiles-and-entities loader): the state's sprite,
      else the id's, else the "fallback" entry; with none of them, the
      fallback image only when "fallback.png" has a cached URL, otherwise
      nothing. */
  function GetSpriteRenderInfo(a: Assets, id: string, state: Option<string>): (r: Option<RenderInfo>)
    ensures KeyFor(id, state) in a.sprites ==> r == Some(Clip(a, a.sprites[KeyFor(id, state)]))
    ensures KeyFor(id, state) !in a.sprites && id in a.sprites ==> r == Some(Clip(a, a.sprites[id]))
    ensures KeyFor(id, state) !in a.sprites && id !in a.sprites && "fallback" in a.sprites ==> r == Some(Clip(a, a.sprites["fallback"]))
    ensures r.None? <==> KeyFor(id, state) !in a.sprites && id !in a.sprites && "fallback" !in a.sprites && "fallback.png" !in a.urls
  {
    var key := KeyFor(id, state);
    if key in a.sprites then Some(Clip(a, a.sprites[key]))
    else if id in a.sprites then Some(Clip(a, a.sprites[id]))
    else if "fallback" in a.sprites then Some(Clip(a, a.sprites["fallback"]))
    else if "fallback.png" in a.urls then Some(FallbackInfo)
    else None
  }

  /** In a built map a found sprite always has its sheet's URL, so the clip
      is the 0-based cell times 128 on that sheet. */
  lemma FoundSpriteIsClipped(a: Assets, key: string)
    requires Cached(a) && key in a.sprites
    ensures var info := a.sprites[key];
            Clip(a, info) == RenderInfo(a.urls[info.sheet], info.gridCol * 128, info.gridRow * 128, 128, 128)
  {
  }

  /** The open door: with a door tile "5" that has an "open" state, the open
      state is drawn from the top-left cell of the indoor sheet, and an
      unmapped state of the same door falls back to the closed door's cell. */
  lemma OpenDoorSprite(tiles: seq<(string, TileDef)>, i: nat, other: string)
    requires i < |tiles| && tiles[i].0 == "5" && "open" in tiles[i].1.states
    requires StateKey("5", other) !in ManualTileMap && other != ""
    ensures GetTileRenderInfo(BuildTileSpriteMap(tiles), "5", Some("open"))
            == RenderInfo(TilesFolder + "indoor_town_default_1.png", 0, 0, 128, 128)
    ensures GetTileRenderInfo(BuildTileSpriteMap(tiles), "5", Some(other))
            == RenderInfo(TilesFolder + "indoor_town_default_1.png", 256, 0, 128, 128)
  {
    var a := BuildTileSpriteMap(tiles);
    var j :| 0 <= j < |tiles[i].1.states| && tiles[i].1.states[j] == "open";
    assert StateKey("5", "open") == "5_open";
    assert "5_open" in a.sprites;
    assert "5" in a.sprites;
    assert StateKey("5", other) !in a.sprites;
  }

  /** A sheet a tile uses keeps its tiles-folder URL after the entities are
      added, even when an entity uses the same sheet. */
  lemma TileSheetsStayInTiles(tiles: seq<(string, TileDef)>, entities: seq<(string, Option<EntityDef>)>, i: nat)
    requires i < |tiles| && tiles[i].0 in ManualTileMap
    ensures var sheet := ManualTileMap[tiles[i].0].sheet;
            BuildSpriteLookupMap(tiles, entities).urls[sheet] == TilesFolder + sheet
  {
    var a := BuildTileSpriteMap(tiles);
    assert tiles[i].0 in a.sprites;
    assert a.sprites[tiles[i].0].sheet == ManualTileMap[tiles[i].0].sheet;
  }

  /** Without a "fallback" entity and a "fallback.png" sheet, an id that is
      neither a mapped tile nor an entity has no render info at all. */
  lemma UnknownIdRendersNothing(tiles: seq<(string, TileDef)>, entities: seq<(string, Option<EntityDef>)>, id: string)
    requires id !in ManualTileMap && "fallback" !in ManualTileMap
    requires forall i :: 0 <= i < |entities| ==> entities[i].0 != id && entities[i].0 != "fallback"
    requires forall i :: 0 <= i < |entities| && entities[i].1.Some? ==> entities[i].1.value.sheet != "fallback.png"
    ensures GetSpriteRenderInfo(BuildSpriteLookupMap(tiles, entities), id, None).None?
  {
    var t := BuildTileSpriteMap(tiles);
    assert "fallback.png" !in ManualSheets;
    EntitiesAddNoFallbackSheet(t, entities);
  }

  lemma {:induction false} EntitiesAddNoFallbackSheet(a: Assets, entities: seq<(string, Option<EntityDef>)>)
    requires "fallback.png" !in a.urls
    requires forall i :: 0 <= i < |entities| && entities[i].1.Some? ==> entities[i].1.value.sheet != "fallback.png"
    ensures "fallback.png" !in AddEntities(a, entities).urls
    decreases |entities|
  {
    if |entities| > 0 {
      var next := match entities[0].1
        case Some(e) => AddSprite(a, entities[0].0, Placement(e.sheet, e.col, e.row), EntitiesFolder)
        case None => a;
      assert forall i :: 0 <= i < |entities[1..]| ==> entities[1..][i] == entities[i + 1];
      EntitiesAddNoFallbackSheet(next, entities[1..]);
    }
  }
}

/** The map generator (AI-TTRPG/map_generator/app/core.py): choosing a
    generation algorithm whose required tags the request covers, and the
    placeholder generation: the map's size, its grid of wall and floor
    tiles, and the spawn points.

    The loaded algorithm list is a parameter; `random.choice` is an index
    `pick` taken modulo the number of candidates, and the seeded
    `random.random() < 0.2` draw for each cell is a predicate `isWall`. */
module MapGenerator {
  import opened Wrappers
  import opened Text
  import opened Json

  /** An algorithm is a candidate when the request's lowercased tags include
      all its lowercased required tags. */
  predicate Suits(tags: set<string>, algorithm: Json) {
    TagSet(algorithm, "required_tags").Ok? && TagSet(algorithm, "required_tags").value <= tags
  }

  /** The candidates in list order; an algorithm that is not a dict, or whose
      required tags are not strings, raises. */
  function Candidates(tags: set<string>, algorithms: seq<Json>): (r: Result<seq<Json>>)
    ensures r.Ok? <==> forall i :: 0 <= i < |algorithms| ==> TagSet(algorithms[i], "required_tags").Ok?
    ensures r.Ok? ==> forall a :: a in r.value <==> a in algorithms && Suits(tags, a)
  {
    if |algorithms| == 0 then Ok([])
    else
      var head, tail := algorithms[0], algorithms[1..];
      assert algorithms == [head] + tail;
      match TagSet(head, "required_tags")
      case Err(e) => Err(e)
      case Ok(required) =>
        match Candidates(tags, tail)
        case Err(e) => Err(e)
        case Ok(rest) => Ok(if required <= tags then [head] + rest else rest)
  }

  /** `select_algorithm`: None exactly when no algorithm suits the tags. */
  function SelectAlgorithm(tags: seq<string>, algorithms: seq<Json>, pick: nat): (r: Result<Option<Json>>)
    ensures r.Ok? ==> (r.value.None? <==> forall a :: a in algorithms ==> !Suits(LowerNames(tags), a))
    ensures r.Ok? && r.value.Some? ==> r.value.value in algorithms && Suits(LowerNames(tags), r.value.value)
  {
    var candidates :- Candidates(LowerNames(tags), algorithms);
    if |candidates| == 0 then Ok(None)
    else
      assert candidates[0] in candidates;
      Ok(Some(candidates[pick % |candidates|]))
  }

  /** An algorithm that requires no tags suits every request. */
  lemma UntaggedAlgorithmSuits(tags: seq<string>, algorithm: seq<(string, Json)>)
    requires !HasKey(algorithm, "required_tags")
    ensures Suits(LowerNames(tags), JObj(algorithm))
  {
    assert TagSet(JObj(algorithm), "required_tags") == Ok({});
  }

  // ---------------------------------------------------------------------
  // Generation

  datatype Cell = Cell(row: int, col: int)

  datatype GeneratedMap = GeneratedMap(
    width: int, height: int, mapData: seq<seq<Json>>, seedUsed: string, algorithmUsed: Json,
    player: seq<Cell>, enemies: seq<Cell>)

  /** `override or params.get(name, default)`: an override of 0 or none
      falls through to the parameters; the size must be a number for
      `range`. */
  function Dimension(override: Option<int>, params: seq<(string, Json)>, name: string, default: int): (r: Result<int>)
    ensures override.Some? && override.value != 0 ==> r == Ok(override.value)
    ensures (override.None? || override.value == 0) && !HasKey(params, name) ==> r == Ok(default)
  {
    if override.Some? && override.value != 0 then Ok(override.value)
    else match Number(Lookup(params, name).GetOr(JInt(default)))
      case Some(n) => Ok(n)
      case None => Err("TypeError: object cannot be interpreted as an integer")
  }

  /** One row of the grid: wall where `isWall` says so, floor elsewhere. */
  function Row(y: int, width: int, wall: Json, floor: Json, isWall: (int, int) -> bool): (r: seq<Json>)
    ensures |r| == if width < 0 then 0 else width
    ensures forall x :: 0 <= x < |r| ==> r[x] == (if isWall(y, x) then wall else floor)
  {
    seq(if width < 0 then 0 else width, x requires 0 <= x => if isWall(y, x) then wall else floor)
  }

  /** The grid, `height` rows of `width` cells (none when negative). */
  function Grid(width: int, height: int, wall: Json, floor: Json, isWall: (int, int) -> bool): (r: seq<seq<Json>>)
    ensures |r| == if height < 0 then 0 else height
    ensures forall y :: 0 <= y < |r| ==> r[y] == Row(y, width, wall, floor, isWall)
  {
    seq(if height < 0 then 0 else height, y requires 0 <= y => Row(y, width, wall, floor, isWall))
  }

  /** `run_generation`: size from the overrides, else the algorithm's
      parameters, else 20 by 15; floor tile 0 and wall tile 1 unless the
      parameters say otherwise; the player spawns at the centre and the
      enemies at (2, 2) and three in from the far corner. */
  function RunGeneration(algorithm: Json, seed: string, widthOverride: Option<int>, heightOverride: Option<int>,
                         isWall: (int, int) -> bool): (r: Result<GeneratedMap>)
    ensures r.Ok? ==> |r.value.mapData| == (if r.value.height < 0 then 0 else r.value.height)
    ensures r.Ok? ==> forall y :: 0 <= y < |r.value.mapData| ==> |r.value.mapData[y]| == (if r.value.width < 0 then 0 else r.value.width)
    ensures r.Ok? ==> r.value.seedUsed == seed
    ensures r.Ok? ==> algorithm.JObj? && r.value.algorithmUsed == Lookup(algorithm.fields, "name").GetOr(JStr("Unknown Algorithm"))
    ensures r.Ok? ==> r.value.player == [Cell(r.value.height / 2, r.value.width / 2)]
    ensures r.Ok? ==> r.value.enemies == [Cell(2, 2), Cell(r.value.height - 3, r.value.width - 3)]
  {
    var fields :- Fields(algorithm);
    var name := Lookup(fields, "name").GetOr(JStr("Unknown Algorithm"));
    var params :- Fields(Lookup(fields, "parameters").GetOr(JObj([])));
    var width :- Dimension(widthOverride, params, "width", 20);
    var height :- Dimension(heightOverride, params, "height", 15);
    var floor := Lookup(params, "floor_tile_id").GetOr(JInt(0));
    var wall := Lookup(params, "wall_tile_id").GetOr(JInt(1));
    Ok(GeneratedMap(width, height, Grid(width, height, wall, floor, isWall), seed, name,
                    [Cell(height / 2, width / 2)], [Cell(2, 2), Cell(height - 3, width - 3)]))
  }

  /** Every cell is the wall tile or the floor tile of the parameters. */
  lemma CellsAreWallOrFloor(algorithm: seq<(string, Json)>, params: seq<(string, Json)>, seed: string,
                            w: Option<int>, h: Option<int>, isWall: (int, int) -> bool, y: int, x: int)
    requires Lookup(algorithm, "parameters") == Some(JObj(params))
    requires RunGeneration(JObj(algorithm), seed, w, h, isWall).Ok?
    requires var m := RunGeneration(JObj(algorithm), seed, w, h, isWall).value;
             0 <= y < |m.mapData| && 0 <= x < |m.mapData[y]|
    ensures var c := RunGeneration(JObj(algorithm), seed, w, h, isWall).value.mapData[y][x];
            c == Lookup(params, "wall_tile_id").GetOr(JInt(1)) || c == Lookup(params, "floor_tile_id").GetOr(JInt(0))
  {
  }

  /** Without overrides or size parameters the map is 20 wide and 15 high. */
  lemma DefaultSize(algorithm: seq<(string, Json)>, seed: string, isWall: (int, int) -> bool)
    requires !HasKey(algorithm, "parameters")
    ensures var r := RunGeneration(JObj(algorithm), seed, None, Some(0), isWall);
            r.Ok? && r.value.width == 20 && r.value.height == 15
            && r.value.player == [Cell(7, 10)] && r.value.enemies == [Cell(2, 2), Cell(12, 17)]
  {
  }

  /** The spawn points lie on the grid exactly when the map is at least
      three by three; a smaller map puts an enemy off the grid. */
  lemma SpawnsOnGrid(m: GeneratedMap)
    requires m.width >= 1 && m.height >= 1
    ensures 0 <= m.height / 2 < m.height && 0 <= m.width / 2 < m.width
    ensures (forall c :: c in [Cell(2, 2), Cell(m.height - 3, m.width - 3)] ==> 0 <= c.row < m.height && 0 <= c.col < m.width)
            <==> m.height >= 3 && m.width >= 3
  {
    var far := Cell(m.height - 3, m.width - 3);
    if !(m.height >= 3 && m.width >= 3) {
      assert far in [Cell(2, 2), far];
    }
  }
}

/**
 * The scene built by the effect of `TerrainMesh` (src/app/components/GithubCity.tsx):
 * a two-slab platform and one box-shaped building per day, laid out on the
 * 14 x 26 grid. three.js meshes, geometries and materials are plain records;
 * the THREE.Group is the sequence of meshes added to it, in order.
 */
module City {

  import opened Wrappers
  import opened Scales
  import opened Textures
  import opened Grid
  import opened GitHub

  datatype Vec3 = Vec3(x: real, y: real, z: real)

  /** A THREE.BoxGeometry: extents along x, y and z, and segment counts. */
  datatype Box = Box(width: real, height: real, depth: real,
                     widthSegments: nat, heightSegments: nat, depthSegments: nat)

  /**
   * A THREE.MeshPhongMaterial; `colorMap` is its `map`. `bumpMap` holds the same texture object as `map`
   * wherever it is set in this scene.
   */
  datatype Material = Material(color: Rgb, colorMap: Option<Texture>, bumpMap: Option<Texture>,
                               bumpScale: real, flatShading: bool, shininess: real)

  datatype Mesh = Mesh(geometry: Box, materials: seq<Material>, position: Vec3)

  /** `new THREE.MeshPhongMaterial({ color })` with three.js' defaults for everything else. */
  function Phong(color: Rgb): Material {
    Material(color, None, None, 1.0, false, 30.0)
  }

  const CellWidth: real := 0.25
  const CellHeight: real := 0.25
  const Spacing: real := 0.15
  /** The extents of the building grid, centred on the origin. */
  const TotalWidth: real := (CellWidth + Spacing) * 26.0
  const TotalHeight: real := (CellHeight + Spacing) * 14.0
  const StartX: real := -TotalWidth / 2.0
  const StartY: real := -TotalHeight / 2.0

  const BaseWidth: real := TotalWidth * 1.4
  const BaseHeight: real := TotalHeight * 1.4
  const BaseDepth: real := 0.15
  const ShininessAfterTuning: real := 50.0

  // ---------------------------------------------------------------------------
  // Platform

  /** The lower slab: 1.4 times the grid's footprint, 0.15 thick, its top at z = 0. */
  function BasePlatform(): Mesh {
    Mesh(Box(BaseWidth, BaseHeight, BaseDepth, 1, 1, 1),
         [Phong(ParseHexColor("#e6e0d8")).(flatShading := true, shininess := 30.0)],
         Vec3(0.0, 0.0, -BaseDepth / 2.0))
  }

  /** The upper slab: 95% of the lower one's width and length, half its thickness. */
  function TopLayer(): Mesh {
    Mesh(Box(BaseWidth * 0.95, BaseHeight * 0.95, BaseDepth / 2.0, 1, 1, 1),
         [Phong(ParseHexColor("#f0ebe4")).(flatShading := true, shininess := 40.0)],
         Vec3(0.0, 0.0, -BaseDepth / 4.0))
  }

  function Platform(): seq<Mesh> { [BasePlatform(), TopLayer()] }

  function Top(m: Mesh): real { m.position.z + m.geometry.depth / 2.0 }
  function Bottom(m: Mesh): real { m.position.z - m.geometry.depth / 2.0 }

  /**
   * Both slabs have their top face at z = 0, where the buildings stand; the base
   * spans 1.4 times the grid, and the top layer sits within the base.
   */
  lemma PlatformShape()
    ensures BasePlatform().geometry.width == 1.4 * TotalWidth && BasePlatform().geometry.height == 1.4 * TotalHeight
    ensures BasePlatform().geometry.depth == 0.15 && Top(BasePlatform()) == 0.0 && Bottom(BasePlatform()) == -0.15
    ensures TopLayer().geometry.width == 0.95 * BasePlatform().geometry.width
    ensures TopLayer().geometry.height == 0.95 * BasePlatform().geometry.height
    ensures TopLayer().geometry.depth == BasePlatform().geometry.depth / 2.0
    ensures Top(TopLayer()) == 0.0 && Bottom(TopLayer()) == -0.075
    ensures TopLayer().position.z == -0.0375 && BasePlatform().position.z == -0.075
  {
  }

  // ---------------------------------------------------------------------------
  // Buildings

  /** `Math.max(1, Math.floor(height * 2))`: how often the window texture repeats along its v axis. */
  function VerticalRepeat(height: real): (n: int)
    ensures n >= 1
  {
    var rows := (height * 2.0).Floor;
    if rows < 1 then 1 else rows
  }

  /** Taller buildings never get fewer copies of the texture along v, and from height 0.5 on the count is floor(2 * height). */
  lemma VerticalRepeatGrows(h1: real, h2: real)
    requires h1 <= h2
    ensures VerticalRepeat(h1) <= VerticalRepeat(h2)
    ensures 0.5 <= h2 ==> VerticalRepeat(h2) as real <= 2.0 * h2 < VerticalRepeat(h2) as real + 1.0
  {
  }

  /**
   * The six materials of a building, one per material group of the box, in three.js'
   * group order: +x, -x, +y, -y, +z, -z (see `FaceNormal`).
   */
  function Faces(base: Rgb, side: Rgb, texture: Option<Texture>): seq<Material> {
    var wall := Phong(side).(colorMap := texture, bumpMap := texture, bumpScale := 0.01);
    [wall, wall, Phong(base).(flatShading := true), Phong(side).(flatShading := true), wall, wall]
  }

  /**
   * The body of `materials.forEach`: the texture of a textured material (which is
   * also its bump map) gets repeat (1, VerticalRepeat(height)); every material gets shininess 50.
   */
  function Tune(m: Material, height: real): Material {
    if m.colorMap.Some? then
      var t := m.colorMap.value.(repeatX := 1, repeatY := VerticalRepeat(height));
      m.(colorMap := Some(t), bumpMap := if m.bumpMap == m.colorMap then Some(t) else m.bumpMap,
         shininess := ShininessAfterTuning)
    else m.(shininess := ShininessAfterTuning)
  }

  function TunedFaces(base: Rgb, side: Rgb, texture: Option<Texture>, height: real): (faces: seq<Material>)
    ensures |faces| == 6
  {
    var fs := Faces(base, side, texture);
    seq(6, i requires 0 <= i < 6 => Tune(fs[i], height))
  }

  /** `materials.forEach(...)`, updating the materials in place. */
  method TuneMaterials(materials: array<Material>, height: real)
    modifies materials
    ensures forall i :: 0 <= i < materials.Length ==> materials[i] == Tune(old(materials[i]), height)
  {
    var i := 0;
    while i < materials.Length
      invariant 0 <= i <= materials.Length
      invariant forall j :: 0 <= j < i ==> materials[j] == Tune(old(materials[j]), height)
      invariant forall j :: i <= j < materials.Length ==> materials[j] == old(materials[j])
    {
      materials[i] := Tune(materials[i], height);
      i := i + 1;
    }
  }

  /**
   * After tuning, slots 0, 1, 4 and 5 (the +x, -x, +z and -z faces) carry the window
   * texture with repeat (1, VerticalRepeat(height)) and the side colour; slot 2 (+y) is
   * untextured in the base colour and slot 3 (-y) untextured in the side colour; all have
   * shininess 50. Without a texture no face is textured.
   */
  lemma FaceLayout(base: Rgb, side: Rgb, texture: Option<Texture>, height: real)
    ensures var faces := TunedFaces(base, side, texture, height);
            && (forall i :: 0 <= i < 6 ==> faces[i].shininess == 50.0)
            && (forall i :: i in {0, 1, 4, 5} ==>
                  && faces[i].color == side && faces[i].bumpMap == faces[i].colorMap && faces[i].bumpScale == 0.01
                  && faces[i].colorMap == (if texture.Some? then Some(texture.value.(repeatX := 1, repeatY := VerticalRepeat(height))) else None))
            && faces[2].colorMap == None && faces[2].color == base && faces[2].flatShading
            && faces[3].colorMap == None && faces[3].color == side && faces[3].flatShading
  {
  }

  /** The outward normal of each material group of a `BoxGeometry`, in three.js' group order. */
  function FaceNormal(slot: nat): Vec3
    requires slot < 6
  {
    match slot
    case 0 => Vec3(1.0, 0.0, 0.0)
    case 1 => Vec3(-1.0, 0.0, 0.0)
    case 2 => Vec3(0.0, 1.0, 0.0)
    case 3 => Vec3(0.0, -1.0, 0.0)
    case 4 => Vec3(0.0, 0.0, 1.0)
    case 5 => Vec3(0.0, 0.0, -1.0)
  }

  /** Where the building on cell (row, col) of the given height is centred. */
  function Centre(c: Cell, height: real): Vec3 {
    Vec3(StartX + c.col as real * (CellWidth + Spacing) + CellWidth / 2.0,
         StartY + c.row as real * (CellHeight + Spacing) + CellHeight / 2.0,
         height / 2.0)
  }

  /** The building for a day with `count` contributions shown on cell c. */
  function Building(c: Cell, count: nat, ln: real -> real, hasContext: bool): Mesh
    requires IsLog(ln)
  {
    var height := Height(count, ln);
    ColorStopIsHex(count);
    var base := ParseHexColor(ColorStop(count));
    var side := SideColor(base);
    Mesh(Box(CellWidth, CellHeight, height, 1, 1, 4),
         TunedFaces(base, side, WindowTexture(base, hasContext), height),
         Centre(c, height))
  }

  /**
   * A building stands on the top of the platform (z = 0), is as tall as its day's
   * height, has a 0.25 x 0.25 footprint, and its slot 2 material (the +y face) carries the
   * day's palette colour while slot 0 (the +x face) carries that colour darkened by 0.85.
   */
  lemma BuildingShape(c: Cell, count: nat, ln: real -> real, hasContext: bool)
    requires IsLog(ln)
    ensures var b := Building(c, count, ln, hasContext);
            && Bottom(b) == Top(TopLayer()) == Top(BasePlatform())
            && Top(b) == Height(count, ln)
            && b.geometry.width == CellWidth && b.geometry.height == CellHeight
            && |b.materials| == 6
            && b.materials[2].color == ParseHexColor(ColorStop(count))
            && b.materials[0].color == SideColor(ParseHexColor(ColorStop(count)))
  {
    ColorStopIsHex(count);
    PlatformShape();
  }

  /**
   * Buildings rise along z: the box's depth is the height and its centre sits at half
   * the height. So the roof is slot 4 (+z) and the floor slot 5 (-z), and both carry the
   * window texture in the side colour, while the flat palette-coloured slot 2 and the
   * flat slot 3 are the walls facing +y and -y.
   */
  lemma BuildingFaces(c: Cell, count: nat, ln: real -> real, hasContext: bool)
    requires IsLog(ln)
    ensures var b := Building(c, count, ln, hasContext);
            var base := ParseHexColor(ColorStop(count));
            && b.geometry.depth == Height(count, ln) && b.position.z == b.geometry.depth / 2.0
            && FaceNormal(4) == Vec3(0.0, 0.0, 1.0) && FaceNormal(5) == Vec3(0.0, 0.0, -1.0)
            && FaceNormal(2).z == 0.0 && FaceNormal(3).z == 0.0
            && b.materials[4] == b.materials[5] == b.materials[0]
            && b.materials[4].color == SideColor(base)
            && (hasContext <==> b.materials[4].colorMap.Some?)
            && b.materials[2].colorMap == None && b.materials[2].color == base
  {
    ColorStopIsHex(count);
    var base := ParseHexColor(ColorStop(count));
    FaceLayout(base, SideColor(base), WindowTexture(base, hasContext), Height(count, ln));
  }

  /** A building on a grid cell stays within the grid's extents, and so on the top slab. */
  lemma BuildingOnGrid(c: Cell, height: real)
    requires InGrid(c)
    ensures StartX <= Centre(c, height).x - CellWidth / 2.0 && Centre(c, height).x + CellWidth / 2.0 <= -StartX
    ensures StartY <= Centre(c, height).y - CellHeight / 2.0 && Centre(c, height).y + CellHeight / 2.0 <= -StartY
    ensures -StartX <= TopLayer().geometry.width / 2.0 && -StartY <= TopLayer().geometry.height / 2.0
  {
  }

  /**
   * The footprints of buildings on two different cells never overlap: they are at
   * least the spacing apart along a row or a column.
   */
  lemma BuildingsApart(c1: Cell, c2: Cell, h1: real, h2: real)
    requires c1 != c2
    ensures var p1, p2 := Centre(c1, h1), Centre(c2, h2);
            || p1.x + CellWidth / 2.0 + Spacing <= p2.x - CellWidth / 2.0
            || p2.x + CellWidth / 2.0 + Spacing <= p1.x - CellWidth / 2.0
            || p1.y + CellHeight / 2.0 + Spacing <= p2.y - CellHeight / 2.0
            || p2.y + CellHeight / 2.0 + Spacing <= p1.y - CellHeight / 2.0
  {
  }

  /** Every cell of `cells` reads a day inside `data`. */
  predicate AllShown(data: seq<ContributionDay>, cells: seq<Cell>) {
    forall c :: c in cells ==> DataIndex(c) < |data|
  }

  /** The buildings for the given cells, in the same order, each raised for its own day. */
  function BuildingsOf(data: seq<ContributionDay>, cells: seq<Cell>, ln: real -> real, hasContext: bool): seq<Mesh>
    requires IsLog(ln) && AllShown(data, cells)
  {
    seq(|cells|, j requires 0 <= j < |cells| =>
      Building(cells[j], data[DataIndex(cells[j])].contributionCount, ln, hasContext))
  }

  lemma AllShownAppend(data: seq<ContributionDay>, P: seq<Cell>, Q: seq<Cell>)
    requires AllShown(data, P) && AllShown(data, Q)
    ensures AllShown(data, P + Q)
  {
    assert forall c :: c in P + Q ==> c in P || c in Q;
  }

  lemma BuildingsOfAppend(data: seq<ContributionDay>, P: seq<Cell>, Q: seq<Cell>, ln: real -> real, hasContext: bool)
    requires IsLog(ln) && AllShown(data, P) && AllShown(data, Q)
    ensures AllShown(data, P + Q)
    ensures BuildingsOf(data, P + Q, ln, hasContext) == BuildingsOf(data, P, ln, hasContext) + BuildingsOf(data, Q, ln, hasContext)
  {
    AllShownAppend(data, P, Q);
  }

  /** What visiting cell c adds to the group: its building, or nothing when its day index lies past the data. */
  function CellBuilding(data: seq<ContributionDay>, c: Cell, ln: real -> real, hasContext: bool): seq<Mesh>
    requires IsLog(ln)
  {
    if DataIndex(c) < |data| then [Building(c, data[DataIndex(c)].contributionCount, ln, hasContext)] else []
  }

  /** The buildings added while visiting the first k cells in row-major order. */
  function BuiltUpTo(data: seq<ContributionDay>, k: nat, ln: real -> real, hasContext: bool): seq<Mesh>
    requires IsLog(ln) && k <= CellCount
  {
    PresentCellsShown(data, k);
    BuildingsOf(data, PresentCells(|data|, k), ln, hasContext)
  }

  lemma PresentCellsShown(data: seq<ContributionDay>, k: nat)
    requires k <= CellCount
    ensures AllShown(data, PresentCells(|data|, k))
  {
    PresentCellsMembers(|data|, k);
  }

  /** The buildings added while visiting the first `col` cells of grid row `row`. */
  function RowBuilt(data: seq<ContributionDay>, row: nat, col: nat, ln: real -> real, hasContext: bool): seq<Mesh>
    requires IsLog(ln)
  {
    RowCellsShown(data, row, col);
    BuildingsOf(data, RowCells(|data|, row, col), ln, hasContext)
  }

  lemma RowCellsShown(data: seq<ContributionDay>, row: nat, col: nat)
    ensures AllShown(data, RowCells(|data|, row, col))
  {
    RowCellsMembers(|data|, row, col);
  }

  /** One step of the inner loop adds exactly what cell (row, col) contributes. */
  lemma RowBuiltStep(data: seq<ContributionDay>, row: nat, col: nat, ln: real -> real, hasContext: bool)
    requires IsLog(ln)
    ensures RowBuilt(data, row, col + 1, ln, hasContext)
         == RowBuilt(data, row, col, ln, hasContext) + CellBuilding(data, Cell(row, col), ln, hasContext)
  {
    var n := |data|;
    RowCellsMembers(n, row, col);
    var extra := if DataIndex(Cell(row, col)) < n then [Cell(row, col)] else [];
    assert RowCells(n, row, col + 1) == RowCells(n, row, col) + extra;
    BuildingsOfAppend(data, RowCells(n, row, col), extra, ln, hasContext);
  }

  /** One pass of the outer loop adds the buildings of one row. */
  lemma BuiltUpToByRow(data: seq<ContributionDay>, row: nat, k: nat, ln: real -> real, hasContext: bool)
    requires IsLog(ln) && row < Rows && k == row * 26
    ensures BuiltUpTo(data, k + 26, ln, hasContext)
         == BuiltUpTo(data, k, ln, hasContext) + RowBuilt(data, row, 26, ln, hasContext)
  {
    var n := |data|;
    PresentCellsByRow(n, row, k, 26);
    PresentCellsShown(data, k);
    RowCellsShown(data, row, 26);
    BuildingsOfAppend(data, PresentCells(n, k), RowCells(n, row, 26), ln, hasContext);
  }

  /** The whole group: the two platform slabs, then the buildings in row-major order. */
  function Scene(data: seq<ContributionDay>, ln: real -> real, hasContext: bool): seq<Mesh>
    requires IsLog(ln)
  {
    Platform() + BuiltUpTo(data, CellCount, ln, hasContext)
  }

  /**
   * The group holds the two slabs and then min(|data|, 364) buildings; the j-th
   * building stands on the j-th present cell (see Grid.PresentCells) and is raised
   * for the day that cell reads.
   */
  lemma SceneLayout(data: seq<ContributionDay>, ln: real -> real, hasContext: bool)
    requires IsLog(ln)
    ensures |Scene(data, ln, hasContext)| == 2 + if |data| < CellCount then |data| else CellCount
    ensures Scene(data, ln, hasContext)[..2] == Platform()
    ensures forall j :: 0 <= j < |PresentCells(|data|, CellCount)| ==>
              && DataIndex(PresentCells(|data|, CellCount)[j]) < |data|
              && Scene(data, ln, hasContext)[j + 2]
                 == Building(PresentCells(|data|, CellCount)[j],
                             data[DataIndex(PresentCells(|data|, CellCount)[j])].contributionCount, ln, hasContext)
  {
    PresentCellCount(|data|);
    PresentCellsMembers(|data|, CellCount);
    var P := PresentCells(|data|, CellCount);
    forall j | 0 <= j < |P|
      ensures DataIndex(P[j]) < |data|
    {
      assert P[j] in P;
    }
  }

  /** The loop body for a cell whose day has `count` contributions: one building. */
  method MakeBuilding(row: nat, col: nat, count: nat, ln: real -> real, hasContext: bool) returns (box: Mesh)
    requires IsLog(ln)
    ensures box == Building(Cell(row, col), count, ln, hasContext)
  {
    var startX := -((CellWidth + Spacing) * 26.0) / 2.0;
    var startY := -((CellHeight + Spacing) * 14.0) / 2.0;
    var height := if count > 0 then HeightScale(ln((count + 1) as real), ln) else 0.05;
    assert height == Height(count, ln);
    ColorStopIsHex(count);
    var baseColor := ParseHexColor(ColorStop(count));
    var materials := MakeMaterials(baseColor, height, hasContext);
    box := Mesh(Box(CellWidth, CellHeight, height, 1, 1, 4), materials,
                Vec3(startX + col as real * (CellWidth + Spacing) + CellWidth / 2.0,
                     startY + row as real * (CellHeight + Spacing) + CellHeight / 2.0,
                     height / 2.0));
  }

  /** The six materials of a building in the base colour, made and then tuned in place. */
  method MakeMaterials(baseColor: Rgb, height: real, hasContext: bool) returns (faces: seq<Material>)
    requires IsUnitColor(baseColor)
    ensures faces == TunedFaces(baseColor, SideColor(baseColor), WindowTexture(baseColor, hasContext), height)
  {
    var sideColor := SideColor(baseColor);
    var windowTexture := CreateWindowTexture(baseColor, hasContext);
    var wall := Phong(sideColor).(colorMap := windowTexture, bumpMap := windowTexture, bumpScale := 0.01);
    var materials := new Material[6] [wall, wall, Phong(baseColor).(flatShading := true),
                                      Phong(sideColor).(flatShading := true), wall, wall];
    assert materials[..] == Faces(baseColor, sideColor, windowTexture);
    TuneMaterials(materials, height);
    faces := materials[..];
  }

  /**
   * The body of the `TerrainMesh` effect up to the scene swap: the meshes added to
   * the new group, in order. `ln` stands for `Math.log`; `hasContext` says whether
   * canvases yield a 2D context.
   */
  method BuildScene(data: seq<ContributionDay>, ln: real -> real, hasContext: bool) returns (group: seq<Mesh>)
    requires IsLog(ln)
    ensures group == Scene(data, ln, hasContext)
  {
    group := [BasePlatform(), TopLayer()];
    ghost var platform := group;
    ghost var visited := 0;
    for row := 0 to 14
      invariant visited == row * 26
      invariant group == platform + BuiltUpTo(data, visited, ln, hasContext)
    {
      BuiltUpToByRow(data, row, visited, ln, hasContext);
      AppendAssoc(platform, BuiltUpTo(data, visited, ln, hasContext), RowBuilt(data, row, 26, ln, hasContext));
      group := AddRow(data, row, group, ln, hasContext);
      visited := visited + 26;
    }
    assert visited == CellCount;
  }

  /** One pass of the inner `for (let col ...)` loop: the buildings of grid row `row`, appended in column order. */
  method AddRow(data: seq<ContributionDay>, row: nat, group: seq<Mesh>, ln: real -> real, hasContext: bool)
    returns (grown: seq<Mesh>)
    requires IsLog(ln) && row < Rows
    ensures grown == group + RowBuilt(data, row, 26, ln, hasContext)
  {
    grown := group;
    for col := 0 to 26
      invariant grown == group + RowBuilt(data, row, col, ln, hasContext)
    {
      RowBuiltStep(data, row, col, ln, hasContext);
      AppendAssoc(group, RowBuilt(data, row, col, ln, hasContext), CellBuilding(data, Cell(row, col), ln, hasContext));
      grown := AddCell(data, row, col, grown, ln, hasContext);
    }
  }

  /**
   * The body of the inner loop for cell (row, col): skip the cell when its day index
   * lies past the end of the data, otherwise append the day's building.
   */
  method AddCell(data: seq<ContributionDay>, row: nat, col: nat, group: seq<Mesh>, ln: real -> real, hasContext: bool)
    returns (grown: seq<Mesh>)
    requires IsLog(ln)
    ensures grown == group + CellBuilding(data, Cell(row, col), ln, hasContext)
  {
    var dataIndex := col * 2 + row / 7 + (row % 7) * 52;
    assert dataIndex == DataIndex(Cell(row, col));
    if dataIndex >= |data| {
      return group;
    }
    var count := data[dataIndex].contributionCount;
    var box := MakeBuilding(row, col, count, ln, hasContext);
    grown := group + [box];
  }

  lemma AppendAssoc(a: seq<Mesh>, b: seq<Mesh>, c: seq<Mesh>)
    ensures (a + b) + c == a + (b + c)
  {
  }
}

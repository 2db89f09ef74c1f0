/** The bed block: a logical object stored as two world cells, a foot and a
    head one step along the bed's facing. This module resolves either cell to
    the pair, toggles the occupancy bit on both, classifies spawn-safe
    materials, searches for the cell a player leaves the bed into, checks and
    performs placement of both halves, destroys a half whose partner or floor
    turns to air, and decides what using the bed does. */
module BlockBed {
  import opened Geometry
  import opened Blocks

  datatype Option<T> = None | Some(value: T)

  // ---------------------------------------------------------------------
  // Occupancy bit
  // ---------------------------------------------------------------------

  /** Bit 0x4 of a bed cell's data byte: a player is in the bed. */
  const OccupiedBit: bv8 := 0x4

  /** The data byte with the occupancy bit set to `occupied` (an OR with 0x4
      or an AND with its complement). */
  function WithOccupied(d: bv8, occupied: bool): (r: bv8)
    ensures (r & OccupiedBit == OccupiedBit) == occupied
    ensures r & !OccupiedBit == d & !OccupiedBit
  {
    if occupied then d | OccupiedBit else d & !OccupiedBit
  }

  /** Whether a player is in the bed: bit 0x4 of the data byte is set, that
      is, setting the bit leaves the byte as it is. */
  function IsOccupied(c: Cell): (r: bool)
    ensures r <==> WithOccupied(c.data, true) == c.data
  {
    c.data & OccupiedBit == OccupiedBit
  }

  /** The world after setOccupied: both data bytes are read first, then head
      and foot are written in that order. */
  function Occupy(g: Grid, head: Pos, foot: Pos, occupied: bool): (r: Grid)
    ensures IsOccupied(At(r, head)) == occupied && IsOccupied(At(r, foot)) == occupied
    ensures At(r, head).data & !OccupiedBit == At(g, head).data & !OccupiedBit
    ensures At(r, foot).data & !OccupiedBit == At(g, foot).data & !OccupiedBit
    ensures At(r, head).(data := 0) == At(g, head).(data := 0)
    ensures At(r, foot).(data := 0) == At(g, foot).(data := 0)
    ensures forall q :: q != head && q != foot ==> At(r, q) == At(g, q)
  {
    var headData := At(g, head).data;
    var footData := At(g, foot).data;
    var g1 := g[head := At(g, head).(data := WithOccupied(headData, occupied))];
    assert At(g1, foot) == if foot == head then At(g, head).(data := WithOccupied(headData, occupied)) else At(g, foot);
    g1[foot := At(g1, foot).(data := WithOccupied(footData, occupied))]
  }

  method SetOccupied(w: World, head: Pos, foot: Pos, occupied: bool)
    modifies w
    ensures w.cells == Occupy(old(w.cells), head, foot, occupied)
  {
    var headData := At(w.cells, head).data;
    var footData := At(w.cells, foot).data;
    w.SetData(head, WithOccupied(headData, occupied));
    w.SetData(foot, WithOccupied(footData, occupied));
  }

  // ---------------------------------------------------------------------
  // Head and foot resolution
  // ---------------------------------------------------------------------

  /** The head of the bed that cell p belongs to; None when p is not a bed. */
  function GetHead(g: Grid, p: Pos): (r: Option<Pos>)
    ensures r.None? <==> !IsBedMaterial(At(g, p).material)
    ensures r.Some? ==> (r.value == p <==> At(g, p).head)
    ensures r.Some? ==> r.value == p || r.value == Step(p, At(g, p).facing)
  {
    var c := At(g, p);
    if !IsBedMaterial(c.material) then None
    else if c.head then Some(p)
    else Some(Step(p, c.facing))
  }

  /** The foot of the bed that cell p belongs to; None when p is not a bed.
      Whichever half p is, the head is one step from the foot along p's
      facing. */
  function GetFoot(g: Grid, p: Pos): (r: Option<Pos>)
    ensures r.None? <==> !IsBedMaterial(At(g, p).material)
    ensures r.Some? ==> (r.value == p <==> !At(g, p).head)
    ensures r.Some? ==> GetHead(g, p).Some? && GetHead(g, p).value == Step(r.value, At(g, p).facing)
  {
    var c := At(g, p);
    if !IsBedMaterial(c.material) then None
    else if c.head then Some(Step(p, Opposite(c.facing)))
    else Some(p)
  }

  /** A consistent bed: both cells are beds, the head carries
      the head flag and the foot does not, both face the same way, and the
      foot lies one step behind the head. */
  predicate PairAt(g: Grid, head: Pos, foot: Pos)
  {
    var h, f := At(g, head), At(g, foot);
    && IsBedMaterial(h.material) && IsBedMaterial(f.material)
    && h.head && !f.head && h.facing == f.facing
    && foot == Step(head, Opposite(h.facing))
  }

  /** Both halves of a bed resolve to the same pair. */
  lemma PairResolves(g: Grid, head: Pos, foot: Pos)
    requires PairAt(g, head, foot)
    ensures GetHead(g, head) == Some(head) && GetFoot(g, head) == Some(foot)
    ensures GetHead(g, foot) == Some(head) && GetFoot(g, foot) == Some(foot)
  {
    StepBack(head, At(g, head).facing);
  }

  /** Toggling occupancy keeps the pair, and both halves agree on it. */
  lemma OccupyKeepsPair(g: Grid, head: Pos, foot: Pos, occupied: bool)
    requires PairAt(g, head, foot)
    ensures var r := Occupy(g, head, foot, occupied);
      && PairAt(r, head, foot)
      && GetHead(r, foot) == Some(head) && GetFoot(r, head) == Some(foot)
      && IsOccupied(At(r, head)) == IsOccupied(At(r, foot)) == occupied
  {
    var r := Occupy(g, head, foot, occupied);
    PairResolves(r, head, foot);
  }

  // ---------------------------------------------------------------------
  // Spawn-safe materials
  // ---------------------------------------------------------------------

  /** The materials other than carpets that a player may stand in when
      leaving a bed, by group. These sets only serve to state
      ValidSpawnIsAllowList; IsValidSpawn is the definition. */
  const Saplings: set<Material> :=
    {OakSapling, DarkOakSapling, BirchSapling, AcaciaSapling, SpruceSapling, JungleSapling}
  const Rails: set<Material> := {PoweredRail, DetectorRail, Rail, ActivatorRail}
  const Plants: set<Material> :=
    {TallGrass, DeadBush, Sunflower, Poppy, BrownMushroom, RedMushroom, LargeFern,
     Carrots, Potatoes, Wheat, SugarCane, Vine}
  const Fixtures: set<Material> :=
    {Air, Torch, RedstoneWire, RedstoneTorch, Lever, Comparator, Repeater, TripwireHook,
     Tripwire, Snow, FlowerPot, HeavyWeightedPressurePlate, LightWeightedPressurePlate}
  const Buttons: set<Material> :=
    {StoneButton, OakButton, DarkOakButton, AcaciaButton, JungleButton, SpruceButton, BirchButton}
  const Heads: set<Material> :=
    {PlayerHead, WitherSkeletonSkull, SkeletonSkull, ZombieHead, CreeperHead, DragonHead,
     PlayerWallHead, WitherSkeletonWallSkull, SkeletonWallSkull, ZombieWallHead,
     CreeperWallHead, DragonWallHead}

  /** Whether a player can stand within a cell of material m: true for the
      listed materials and every carpet, false for beds and every other
      material. */
  function IsValidSpawn(m: Material): (r: bool)
    ensures m.Bed? || m.Other? ==> !r
  {
    match m
    case Air => true
    case OakSapling | DarkOakSapling | BirchSapling | AcaciaSapling | SpruceSapling | JungleSapling => true
    case PoweredRail | DetectorRail | Rail | ActivatorRail => true
    case TallGrass | DeadBush | Sunflower | Poppy | BrownMushroom | RedMushroom | LargeFern => true
    case Torch | RedstoneWire | RedstoneTorch | Lever | Comparator | Repeater | TripwireHook | Tripwire => true
    case Carrots | Potatoes | Wheat | SugarCane | Vine | Snow | FlowerPot => true
    case StoneButton | OakButton | DarkOakButton | AcaciaButton | JungleButton | SpruceButton | BirchButton => true
    case PlayerHead | WitherSkeletonSkull | SkeletonSkull | ZombieHead | CreeperHead | DragonHead => true
    case PlayerWallHead | WitherSkeletonWallSkull | SkeletonWallSkull | ZombieWallHead => true
    case CreeperWallHead | DragonWallHead => true
    case HeavyWeightedPressurePlate | LightWeightedPressurePlate => true
    case Carpet(_) => true
    case _ => false
  }

  /** The allow-list is exactly the listed groups and the carpets. */
  lemma ValidSpawnIsAllowList(m: Material)
    ensures IsValidSpawn(m) <==> m in Saplings + Rails + Plants + Fixtures + Buttons + Heads || m.Carpet?
  {
    if m.Bed? || m.Other? {
      assert m !in Saplings && m !in Rails && m !in Plants;
      assert m !in Fixtures && m !in Buttons && m !in Heads;
    } else if !m.Carpet? {
      assert m in Saplings || m in Rails || m in Plants || m in Fixtures || m in Buttons || m in Heads;
    }
  }

  // ---------------------------------------------------------------------
  // Exit-location search
  // ---------------------------------------------------------------------

  /** A cell a player can be put into: solid floor below, and both the cell
      and the one above it spawn-safe. */
  predicate SafeExit(g: Grid, solid: SolidTable, b: Pos)
  {
    && solid(At(g, Below(b)).material)
    && IsValidSpawn(At(g, b).material)
    && IsValidSpawn(At(g, Above(b)).material)
  }

  /** Scan order: offset (x', z') is tested before (x, z). */
  predicate ScanBefore(x': int, z': int, x: int, z: int)
  {
    x' < x || (x' == x && z' < z)
  }

  /** The first safe cell at offsets (x, z..hiz) from o, at o's elevation. */
  function ScanRow(g: Grid, solid: SolidTable, o: Pos, x: int, z: int, hiz: int): Option<Pos>
    decreases hiz - z
  {
    if z > hiz then None
    else if SafeExit(g, solid, Relative(o, x, 0, z)) then Some(Relative(o, x, 0, z))
    else ScanRow(g, solid, o, x, z + 1, hiz)
  }

  /** The first safe cell at offsets (x..hix) x (loz..hiz) from o, x outer. */
  function ScanGrid(g: Grid, solid: SolidTable, o: Pos, x: int, hix: int, loz: int, hiz: int): Option<Pos>
    decreases hix - x
  {
    if x > hix then None
    else
      var row := ScanRow(g, solid, o, x, loz, hiz);
      if row.Some? then row else ScanGrid(g, solid, o, x + 1, hix, loz, hiz)
  }

  lemma {:induction false} ScanRowIsFirst(g: Grid, solid: SolidTable, o: Pos, x: int, z: int, hiz: int)
    ensures var r := ScanRow(g, solid, o, x, z, hiz);
      && (r.None? <==> forall z' :: z <= z' <= hiz ==> !SafeExit(g, solid, Relative(o, x, 0, z')))
      && (r.Some? ==>
            && r.value == Relative(o, x, 0, r.value.z - o.z)
            && z <= r.value.z - o.z <= hiz
            && SafeExit(g, solid, r.value)
            && forall z' :: z <= z' < r.value.z - o.z ==> !SafeExit(g, solid, Relative(o, x, 0, z')))
    decreases hiz - z
  {
    if z <= hiz && !SafeExit(g, solid, Relative(o, x, 0, z)) {
      ScanRowIsFirst(g, solid, o, x, z + 1, hiz);
    }
  }

  /** ScanGrid returns the first safe cell of its rectangle in scan order,
      and None exactly when no cell of the rectangle is safe. */
  lemma {:induction false} ScanGridIsFirst(g: Grid, solid: SolidTable, o: Pos, x: int, hix: int, loz: int, hiz: int)
    ensures var r := ScanGrid(g, solid, o, x, hix, loz, hiz);
      && (r.None? <==>
            forall x', z' :: x <= x' <= hix && loz <= z' <= hiz ==> !SafeExit(g, solid, Relative(o, x', 0, z')))
      && (r.Some? ==>
            && r.value == Relative(o, r.value.x - o.x, 0, r.value.z - o.z)
            && x <= r.value.x - o.x <= hix && loz <= r.value.z - o.z <= hiz
            && SafeExit(g, solid, r.value)
            && forall x', z' :: x <= x' <= hix && loz <= z' <= hiz && ScanBefore(x', z', r.value.x - o.x, r.value.z - o.z)
                 ==> !SafeExit(g, solid, Relative(o, x', 0, z')))
    decreases hix - x
  {
    if x <= hix {
      ScanRowIsFirst(g, solid, o, x, loz, hiz);
      var row := ScanRow(g, solid, o, x, loz, hiz);
      if row.None? {
        ScanGridIsFirst(g, solid, o, x + 1, hix, loz, hiz);
        forall x', z' | x <= x' <= hix && loz <= z' <= hiz && x' == x
          ensures !SafeExit(g, solid, Relative(o, x', 0, z'))
        {
        }
      } else {
        var b := row.value;
        forall x', z' | x <= x' <= hix && loz <= z' <= hiz && ScanBefore(x', z', b.x - o.x, b.z - o.z)
          ensures !SafeExit(g, solid, Relative(o, x', 0, z'))
        {
          assert x' == x && z' < b.z - o.z;
        }
      }
    }
  }

  /** The scanned cells are, for every axis, -1..1 where the head-to-foot step
      is 0 on that axis, and only that step's component otherwise. */
  function SpanLo(m: int): int { if m == 0 then -1 else m }
  function SpanHi(m: int): int { if m == 0 then 1 else m }

  /** The feet this model covers: head itself or one of its eight
      horizontal neighbours, for which head.getFace(foot) names the face
      whose modX/modZ are the offset from head to foot. */
  predicate HasFace(head: Pos, foot: Pos)
  {
    foot.y == head.y && -1 <= foot.x - head.x <= 1 && -1 <= foot.z - head.z <= 1
  }

  /** Where a player leaving the bed is put: the first safe cell of the 3x3
      ring at the head's elevation, else the first safe cell of the
      foot-side scan, else None. */
  function ExitLocation(g: Grid, solid: SolidTable, head: Pos, foot: Pos): (r: Option<Pos>)
    requires HasFace(head, foot)
    ensures r.Some? ==> SafeExit(g, solid, r.value) && r.value.y == head.y
    ensures r.Some? ==> (-1 <= r.value.x - head.x <= 1 && -1 <= r.value.z - head.z <= 1)
                        || (-1 <= r.value.x - foot.x <= 1 && -1 <= r.value.z - foot.z <= 1)
  {
    var modX, modZ := foot.x - head.x, foot.z - head.z;
    ScanGridIsFirst(g, solid, head, -1, 1, -1, 1);
    ScanGridIsFirst(g, solid, foot, SpanLo(modX), SpanHi(modX), SpanLo(modZ), SpanHi(modZ));
    var nearHead := ScanGrid(g, solid, head, -1, 1, -1, 1);
    if nearHead.Some? then nearHead
    else
      ScanGrid(g, solid, foot, SpanLo(modX), SpanHi(modX), SpanLo(modZ), SpanHi(modZ))
  }

  /** The first phase wins whenever some cell of the ring is safe; the second
      phase is consulted only when none is; None means no candidate of either
      phase is safe; a returned cell is always safe. */
  lemma ExitLocationIsFirstSafe(g: Grid, solid: SolidTable, head: Pos, foot: Pos)
    requires HasFace(head, foot)
    ensures var r := ExitLocation(g, solid, head, foot);
      var modX, modZ := foot.x - head.x, foot.z - head.z;
      && (r.Some? ==> SafeExit(g, solid, r.value))
      && ((exists x, z :: -1 <= x <= 1 && -1 <= z <= 1 && SafeExit(g, solid, Relative(head, x, 0, z)))
            ==> r == ScanGrid(g, solid, head, -1, 1, -1, 1) && r.Some? && r.value.y == head.y
                && -1 <= r.value.x - head.x <= 1 && -1 <= r.value.z - head.z <= 1)
      && (r.None? <==>
            && (forall x, z :: -1 <= x <= 1 && -1 <= z <= 1 ==> !SafeExit(g, solid, Relative(head, x, 0, z)))
            && (forall x, z :: SpanLo(modX) <= x <= SpanHi(modX) && SpanLo(modZ) <= z <= SpanHi(modZ)
                  ==> !SafeExit(g, solid, Relative(foot, x, 0, z))))
      && ((forall x, z :: -1 <= x <= 1 && -1 <= z <= 1 ==> !SafeExit(g, solid, Relative(head, x, 0, z)))
            ==> r == ScanGrid(g, solid, foot, SpanLo(modX), SpanHi(modX), SpanLo(modZ), SpanHi(modZ)))
  {
    var modX, modZ := foot.x - head.x, foot.z - head.z;
    ScanGridIsFirst(g, solid, head, -1, 1, -1, 1);
    ScanGridIsFirst(g, solid, foot, SpanLo(modX), SpanHi(modX), SpanLo(modZ), SpanHi(modZ));
  }

  /** A cell of the ring that is safe while every ring cell scanned before it
      is not is the exit. */
  lemma FirstSafeInRingIsExit(g: Grid, solid: SolidTable, head: Pos, foot: Pos, x: int, z: int)
    requires HasFace(head, foot)
    requires -1 <= x <= 1 && -1 <= z <= 1 && SafeExit(g, solid, Relative(head, x, 0, z))
    requires forall x', z' :: -1 <= x' <= 1 && -1 <= z' <= 1 && ScanBefore(x', z', x, z)
               ==> !SafeExit(g, solid, Relative(head, x', 0, z'))
    ensures ExitLocation(g, solid, head, foot) == Some(Relative(head, x, 0, z))
  {
    ScanGridIsFirst(g, solid, head, -1, 1, -1, 1);
    var r := ScanGrid(g, solid, head, -1, 1, -1, 1);
    assert r.Some?;
    var rx, rz := r.value.x - head.x, r.value.z - head.z;
    assert !ScanBefore(x, z, rx, rz);
    assert !ScanBefore(rx, rz, x, z);
  }

  /** For a bed facing f the second phase tests exactly three cells: the row
      one step further behind the foot, across the bed's axis. */
  lemma FootScanIsRowBehind(head: Pos, f: Face)
    ensures var foot := Step(head, Opposite(f));
      var modX, modZ := foot.x - head.x, foot.z - head.z;
      && HasFace(head, foot)
      && (SpanHi(modX) - SpanLo(modX) + 1) * (SpanHi(modZ) - SpanLo(modZ) + 1) == 3
      && (ModX(f) == 0 ==> SpanLo(modZ) == SpanHi(modZ) == -ModZ(f))
      && (ModZ(f) == 0 ==> SpanLo(modX) == SpanHi(modX) == -ModX(f))
  {
  }

  /** When no ring cell is safe, the cell directly behind the foot is the
      exit if it is the only safe cell of the second phase. */
  lemma BehindFootIsExit(g: Grid, solid: SolidTable, head: Pos, f: Face)
    requires forall x, z :: -1 <= x <= 1 && -1 <= z <= 1 ==> !SafeExit(g, solid, Relative(head, x, 0, z))
    requires var foot := Step(head, Opposite(f));
      && SafeExit(g, solid, Step(foot, Opposite(f)))
      && !SafeExit(g, solid, Relative(Step(foot, Opposite(f)), -ModZ(f), 0, -ModX(f)))
      && !SafeExit(g, solid, Relative(Step(foot, Opposite(f)), ModZ(f), 0, ModX(f)))
    ensures var foot := Step(head, Opposite(f));
      ExitLocation(g, solid, head, foot) == Some(Step(foot, Opposite(f)))
  {
    var foot := Step(head, Opposite(f));
    var modX, modZ := foot.x - head.x, foot.z - head.z;
    var behind := Step(foot, Opposite(f));
    ScanGridIsFirst(g, solid, head, -1, 1, -1, 1);
    ScanGridIsFirst(g, solid, foot, SpanLo(modX), SpanHi(modX), SpanLo(modZ), SpanHi(modZ));
    var r := ScanGrid(g, solid, foot, SpanLo(modX), SpanHi(modX), SpanLo(modZ), SpanHi(modZ));
    assert behind == Relative(foot, modX, 0, modZ);
    assert r.Some?;
    assert r.value == behind;
  }

  /** Scans the rectangle (lox..hix) x (loz..hiz) around o, x outer and z
      inner, returning at the first safe cell. */
  method ScanFirst(w: World, solid: SolidTable, o: Pos, lox: int, hix: int, loz: int, hiz: int)
    returns (r: Option<Pos>)
    requires lox <= hix && loz <= hiz
    ensures r == ScanGrid(w.cells, solid, o, lox, hix, loz, hiz)
  {
    var x := lox;
    while x <= hix
      invariant lox <= x <= hix + 1
      invariant ScanGrid(w.cells, solid, o, lox, hix, loz, hiz) == ScanGrid(w.cells, solid, o, x, hix, loz, hiz)
    {
      var z := loz;
      while z <= hiz
        invariant loz <= z <= hiz + 1
        invariant ScanRow(w.cells, solid, o, x, loz, hiz) == ScanRow(w.cells, solid, o, x, z, hiz)
      {
        var b := Relative(o, x, 0, z);
        if SafeExit(w.cells, solid, b) {
          return Some(b);
        }
        z := z + 1;
      }
      x := x + 1;
    }
    return None;
  }

  method GetExitLocation(w: World, solid: SolidTable, head: Pos, foot: Pos) returns (exit: Option<Pos>)
    requires HasFace(head, foot)
    ensures exit == ExitLocation(w.cells, solid, head, foot)
  {
    exit := ScanFirst(w, solid, head, -1, 1, -1, 1);
    if exit.Some? {
      return;
    }
    var modX, modZ := foot.x - head.x, foot.z - head.z;
    exit := ScanFirst(w, solid, foot, SpanLo(modX), SpanHi(modX), SpanLo(modZ), SpanHi(modZ));
  }

  // ---------------------------------------------------------------------
  // Placement
  // ---------------------------------------------------------------------

  /** The player placing a bed: where they stand, and the horizontal
      direction they look in, which the server derives from their yaw and
      which is the direction from the new bed's foot to its head. */
  datatype Player = Player(location: Loc, lookDirection: Face)

  /** A bed may be placed with its foot at p when there is a player, the
      cell one step along their look direction is air, and the cell below
      that one is solid. */
  function CanPlaceAt(g: Grid, solid: SolidTable, player: Option<Player>, p: Pos): (r: bool)
    ensures r <==> player.Some? && At(g, Step(p, player.value.lookDirection)).material == Air
                   && solid(At(g, Below(Step(p, player.value.lookDirection))).material)
  {
    match player
    case None => false
    case Some(pl) =>
      var otherEnd := Step(p, pl.lookDirection);
      At(g, otherEnd).material == Air && solid(At(g, Below(otherEnd)).material)
  }

  /** The block state of the placed cell after placeBlock: a bed state
      becomes a foot facing `direction`; any other state is left as it is. */
  function PlaceBlock(state: Cell, direction: Face): (r: Cell)
    ensures r.material == state.material && r.data == state.data
    ensures r.colour == state.colour && r.biome == state.biome
    ensures IsBedMaterial(state.material) ==> !r.head && r.facing == direction
    ensures !IsBedMaterial(state.material) ==> r == state
  {
    if IsBedMaterial(state.material) then state.(facing := direction, head := false)
    else state
  }

  /** The world after afterPlace on cell p with the colour of the held item:
      nothing changes unless p is a bed; otherwise p takes the colour and the
      cell one step along p's facing becomes a head of the same material,
      facing and colour. */
  function AfterPlaceEffect(g: Grid, p: Pos, colour: DyeColor): (r: Grid)
    ensures !IsBedMaterial(At(g, p).material) ==> r == g
    ensures IsBedMaterial(At(g, p).material) ==>
      var d := At(g, p).facing;
      var hp := Step(p, d);
      && At(r, p) == At(g, p).(colour := colour)
      && At(r, hp).material == At(g, p).material
      && At(r, hp).head && At(r, hp).facing == d && At(r, hp).colour == colour
      && At(r, hp).data == 0 && At(r, hp).biome == At(g, hp).biome
      && forall q :: q != p && q != hp ==> At(r, q) == At(g, q)
  {
    var foot := At(g, p);
    if !IsBedMaterial(foot.material) then g
    else
      var g1 := g[p := foot.(colour := colour)];
      var d := foot.facing;
      var hp := Step(p, d);
      g1[hp := WithType(At(g1, hp), foot.material).(colour := colour, head := true, facing := d)]
  }

  method AfterPlace(w: World, p: Pos, colour: DyeColor)
    modifies w
    ensures w.cells == AfterPlaceEffect(old(w.cells), p, colour)
  {
    var foot := At(w.cells, p);
    if !IsBedMaterial(foot.material) {
      return;
    }
    var bed := foot.(colour := colour);
    w.Update(p, bed);
    var direction := bed.facing;
    var headBlock := Step(p, direction);
    w.SetType(headBlock, foot.material);
    var headState := At(w.cells, headBlock).(colour := colour, head := true, facing := direction);
    w.Update(headBlock, headState);
  }

  /** Placing a bed where CanPlaceAt allows it, then running afterPlace,
      leaves a complete pair: foot at p, head one step along the player's
      look direction on a solid floor, same material and colour, unoccupied
      head, and no other cell changed. */
  lemma PlacementBuildsPair(g: Grid, solid: SolidTable, player: Player, p: Pos, state: Cell, colour: DyeColor)
    requires CanPlaceAt(g, solid, Some(player), p)
    requires IsBedMaterial(state.material)
    ensures var d := player.lookDirection;
      var hp := Step(p, d);
      var r := AfterPlaceEffect(g[p := PlaceBlock(state, d)], p, colour);
      && PairAt(r, hp, p)
      && GetHead(r, p) == Some(hp) && GetFoot(r, hp) == Some(p)
      && At(r, hp).material == At(r, p).material == state.material
      && At(r, hp).colour == colour && At(r, p).colour == colour
      && !IsOccupied(At(r, hp))
      && solid(At(r, Below(hp)).material)
      && forall q :: q != p && q != hp ==> At(r, q) == At(g, q)
  {
    var d := player.lookDirection;
    var hp := Step(p, d);
    var g1 := g[p := PlaceBlock(state, d)];
    var r := AfterPlaceEffect(g1, p, colour);
    assert Below(hp) != p && Below(hp) != hp;
    StepBack(p, d);
    PairResolves(r, hp, p);
  }

  // ---------------------------------------------------------------------
  // Neighbour invalidation
  // ---------------------------------------------------------------------

  /** onNearBlockChanged as written: the first check may turn `self` to air;
      the second check then resolves `self` again and dereferences the
      result without a null test. The Boolean is true when that dereference
      throws (a NullPointerException). */
  function NearChangeAsWritten(g: Grid, self: Pos, changed: Pos, newType: Material): (r: (Grid, bool))
    ensures forall q :: q != self ==> At(r.0, q) == At(g, q)
    ensures !IsBedMaterial(At(g, self).material) ==> r == (g, true)
  {
    var g1 :=
      if (GetHead(g, self) == Some(changed) || GetFoot(g, self) == Some(changed)) && newType == Air
      then g[self := WithType(At(g, self), Air)]
      else g;
    var head := GetHead(g1, self);
    if head.None? then (g1, true)
    else
      var foot := GetFoot(g1, self);
      if (changed == Below(head.value) || changed == Below(foot.value)) && newType == Air
      then (g1[self := WithType(At(g1, self), Air)], false)
      else (g1, false)
  }

  method OnNearBlockChangedAsWritten(w: World, self: Pos, changed: Pos, newType: Material)
    returns (thrown: bool)
    modifies w
    ensures (w.cells, thrown) == NearChangeAsWritten(old(w.cells), self, changed, newType)
  {
    if (GetHead(w.cells, self) == Some(changed) || GetFoot(w.cells, self) == Some(changed)) && newType == Air {
      w.SetType(self, Air);
    }
    var head := GetHead(w.cells, self);
    if head.None? {
      return true;
    }
    var foot := GetFoot(w.cells, self);
    if (changed == Below(head.value) || changed == Below(foot.value)) && newType == Air {
      w.SetType(self, Air);
    }
    return false;
  }

  /** The intended onNearBlockChanged: `self` turns to air when it is a bed
      and `changed`, the head, the foot, or the floor under either, has
      become air; nothing else is ever written. */
  function NearChange(g: Grid, self: Pos, changed: Pos, newType: Material): (r: Grid)
    ensures forall q :: q != self ==> At(r, q) == At(g, q)
    ensures r != g ==> newType == Air && IsBedMaterial(At(g, self).material)
    ensures r != g ==> At(r, self) == WithType(At(g, self), Air)
    ensures r != g <==>
      && IsBedMaterial(At(g, self).material) && newType == Air
      && (|| changed == GetHead(g, self).value || changed == GetFoot(g, self).value
          || changed == Below(GetHead(g, self).value) || changed == Below(GetFoot(g, self).value))
  {
    match (GetHead(g, self), GetFoot(g, self))
    case (Some(head), Some(foot)) =>
      assert WithType(At(g, self), Air).material != At(g, self).material;
      if newType == Air && (changed == head || changed == foot || changed == Below(head) || changed == Below(foot))
      then g[self := WithType(At(g, self), Air)]
      else g
    case _ => g
  }

  method OnNearBlockChanged(w: World, self: Pos, changed: Pos, newType: Material)
    modifies w
    ensures w.cells == NearChange(old(w.cells), self, changed, newType)
  {
    var head := GetHead(w.cells, self);
    var foot := GetFoot(w.cells, self);
    if head.Some? && foot.Some? && newType == Air {
      if changed == head.value || changed == foot.value || changed == Below(head.value) || changed == Below(foot.value) {
        w.SetType(self, Air);
      }
    }
  }

  /** The as-written listener leaves the same world as the intended one; it
      throws exactly when `self` is no bed or its first check fired. */
  lemma AsWrittenWorldAgrees(g: Grid, self: Pos, changed: Pos, newType: Material)
    ensures NearChangeAsWritten(g, self, changed, newType).0 == NearChange(g, self, changed, newType)
    ensures NearChangeAsWritten(g, self, changed, newType).1 <==>
      GetHead(g, self).None? ||
      (newType == Air && (GetHead(g, self) == Some(changed) || GetFoot(g, self) == Some(changed)))
  {
  }

  /** Removing the head of a bed and notifying the foot makes the as-written
      listener empty the foot and then throw. */
  lemma RemovingHalfThrows(g: Grid, head: Pos, foot: Pos)
    requires PairAt(g, head, foot)
    ensures var g1 := g[head := WithType(At(g, head), Air)];
      var r := NearChangeAsWritten(g1, foot, head, Air);
      r.1 && At(r.0, foot).material == Air
  {
    var g1 := g[head := WithType(At(g, head), Air)];
    assert At(g1, foot) == At(g, foot);
    StepBack(head, At(g, head).facing);
    assert GetHead(g1, foot) == Some(head);
  }

  /** Removing either half of a bed, then notifying the other half, empties
      the other half. */
  lemma RemovingHalfEmptiesOther(g: Grid, head: Pos, foot: Pos)
    requires PairAt(g, head, foot)
    ensures var g1 := g[head := WithType(At(g, head), Air)];
      At(NearChange(g1, foot, head, Air), foot).material == Air
    ensures var g2 := g[foot := WithType(At(g, foot), Air)];
      At(NearChange(g2, head, foot, Air), head).material == Air
  {
    StepBack(head, At(g, head).facing);
    var g1 := g[head := WithType(At(g, head), Air)];
    assert At(g1, foot) == At(g, foot);
    var g2 := g[foot := WithType(At(g, foot), Air)];
    assert At(g2, head) == At(g, head);
  }

  /** Removing the floor under either half, then notifying both halves,
      empties both. */
  lemma RemovingFloorEmptiesBoth(g: Grid, head: Pos, foot: Pos, under: Pos)
    requires PairAt(g, head, foot)
    requires under == Below(head) || under == Below(foot)
    ensures var g1 := g[under := WithType(At(g, under), Air)];
      var g2 := NearChange(g1, head, under, Air);
      var g3 := NearChange(g2, foot, under, Air);
      At(g3, head).material == Air && At(g3, foot).material == Air
  {
    StepBack(head, At(g, head).facing);
    var g1 := g[under := WithType(At(g, under), Air)];
    assert At(g1, head) == At(g, head) && At(g1, foot) == At(g, foot);
    PairResolves(g1, head, foot);
    var g2 := NearChange(g1, head, under, Air);
    assert At(g2, foot) == At(g1, foot);
    assert GetHead(g2, foot) == Some(head);
  }

  /** Delivering the same notification twice changes nothing the second
      time. */
  lemma NearChangeIdempotent(g: Grid, self: Pos, changed: Pos, newType: Material)
    ensures var r := NearChange(g, self, changed, newType);
      NearChange(r, self, changed, newType) == r
  {
  }

  // ---------------------------------------------------------------------
  // Interaction
  // ---------------------------------------------------------------------

  /** Biomes in which using a bed makes it explode. */
  const ExplosiveInBiomes: set<Biome> := {
    NetherWastes, SoulSandValley, CrimsonForest, WarpedForest, BasaltDeltas,
    TheEnd, EndBarrens, EndMidlands, EndHighlands, SmallEndIslands
  }

  /** The explosive biomes are exactly the nether and end biomes. */
  lemma ExplosiveBiomesAreNetherAndEnd(b: Biome)
    ensures b in ExplosiveInBiomes <==> !b.OtherBiome?
  {
  }

  /** The world's time of day in ticks and whether it is thundering. */
  datatype WorldClock = WorldClock(time: int, thundering: bool)

  /** Ticks between which a bed may be used without a thunderstorm. */
  const NightStart: int := 12541
  const NightEnd: int := 23458

  /** Using a bed is refused as daytime: the time lies outside the night
      window and there is no thunderstorm. */
  function TooBrightToSleep(clock: WorldClock): (r: bool)
    ensures !r <==> clock.thundering || NightStart <= clock.time <= NightEnd
  {
    (clock.time < NightStart || clock.time > NightEnd) && !clock.thundering
  }

  /** The kinds of entity the mob scan tells apart: a zombified piglin (a
      creature, threatening only while angry), any other creature, and
      every entity that is no creature. */
  datatype EntityKind = ZombifiedPiglin(angry: bool) | OtherCreature | NotCreature

  datatype Entity = Entity(kind: EntityKind, location: Loc)

  /** Whether a location lies within (dx, dy, dz) of cell p on every axis. */
  function IsWithinDistance(loc: Loc, p: Pos, dx: int, dy: int, dz: int): (r: bool)
    ensures r <==>
      && p.x as real - dx as real <= loc.x <= p.x as real + dx as real
      && p.y as real - dy as real <= loc.y <= p.y as real + dy as real
      && p.z as real - dz as real <= loc.z <= p.z as real + dz as real
  {
    && AbsReal(loc.x - p.x as real) <= dx as real
    && AbsReal(loc.y - p.y as real) <= dy as real
    && AbsReal(loc.z - p.z as real) <= dz as real
  }

  /** An entity that keeps a player from sleeping in a bed whose head is
      directly above `floor`. */
  function Threatens(e: Entity, floor: Pos): (r: bool)
    ensures r <==> e.kind != NotCreature && e.kind != ZombifiedPiglin(false)
                   && IsWithinDistance(e.location, floor, 8, 5, 8)
  {
    && (match e.kind
        case ZombifiedPiglin(angry) => angry
        case OtherCreature => true
        case NotCreature => false)
    && IsWithinDistance(e.location, floor, 8, 5, 8)
  }

  /** The notices a player can be sent. */
  datatype Notice = Day | Occupied | Mob

  /** What using the bed does: nothing (the cell is no bed), an explosion
      at the head, a notice to the player, a silent refusal, or the player
      entering the bed at the head. */
  datatype Effect =
    | NotBed
    | Explosion(at: Pos, power: real, fire: bool)
    | Notify(notice: Notice)
    | TooFar
    | EnterBed(head: Pos)

  /** The power of the explosion of a bed used in the nether or the end. */
  const ExplosionPower: real := 5.0

  /** The guard chain of blockInteract, first match wins. */
  function Interact(g: Grid, clock: WorldClock, player: Player, p: Pos, entities: seq<Entity>): (e: Effect)
    ensures e.NotBed? <==> !IsBedMaterial(At(g, p).material)
    ensures IsBedMaterial(At(g, p).material) ==>
      var head := GetHead(g, p).value;
      var boom := At(g, head).biome in ExplosiveInBiomes;
      var occupied := IsOccupied(At(g, head));
      var near := IsWithinDistance(player.location, head, 3, 2, 3);
      && (e.Explosion? <==> boom)
      && (e.Explosion? ==> e == Explosion(head, ExplosionPower, true))
      && (e == Notify(Day) <==> !boom && TooBrightToSleep(clock))
      && (e == Notify(Occupied) <==> !boom && !TooBrightToSleep(clock) && occupied)
      && (e == TooFar <==> !boom && !TooBrightToSleep(clock) && !occupied && !near)
      && (e == Notify(Mob) <==>
            && !boom && !TooBrightToSleep(clock) && !occupied && near
            && exists i :: 0 <= i < |entities| && Threatens(entities[i], Below(head)))
  {
    if !IsBedMaterial(At(g, p).material) then NotBed
    else
      var head := GetHead(g, p).value;
      if At(g, head).biome in ExplosiveInBiomes then Explosion(head, ExplosionPower, true)
      else if TooBrightToSleep(clock) then Notify(Day)
      else if IsOccupied(At(g, head)) then Notify(Occupied)
      else if !IsWithinDistance(player.location, head, 3, 2, 3) then TooFar
      else if exists i :: 0 <= i < |entities| && Threatens(entities[i], Below(head)) then Notify(Mob)
      else EnterBed(head)
  }

  /** In the nether and the end a bed always explodes at its head, whatever
      the time, the weather, the occupancy, the player or the mobs. */
  lemma ExplosiveBiomeAlwaysExplodes(g: Grid, clock: WorldClock, player: Player, p: Pos, entities: seq<Entity>)
    requires IsBedMaterial(At(g, p).material)
    requires At(g, GetHead(g, p).value).biome in ExplosiveInBiomes
    ensures Interact(g, clock, player, p, entities) == Explosion(GetHead(g, p).value, 5.0, true)
  {
  }

  /** The player enters the bed exactly when every guard passes. */
  lemma EnterBedExactlyWhenAllGuardsPass(g: Grid, clock: WorldClock, player: Player, p: Pos, entities: seq<Entity>)
    ensures Interact(g, clock, player, p, entities).EnterBed? <==>
      && IsBedMaterial(At(g, p).material)
      && var head := GetHead(g, p).value;
      && At(g, head).biome !in ExplosiveInBiomes
      && !TooBrightToSleep(clock)
      && !IsOccupied(At(g, head))
      && IsWithinDistance(player.location, head, 3, 2, 3)
      && forall e :: e in entities ==> !Threatens(e, Below(head))
    ensures Interact(g, clock, player, p, entities).EnterBed? ==>
      Interact(g, clock, player, p, entities).head == GetHead(g, p).value
  {
    if IsBedMaterial(At(g, p).material) {
      var head := GetHead(g, p).value;
      if exists i :: 0 <= i < |entities| && Threatens(entities[i], Below(head)) {
        var i :| 0 <= i < |entities| && Threatens(entities[i], Below(head));
        assert entities[i] in entities;
      }
    }
  }

  /** At tick 12000 in clear weather the player is told it is day; at tick
      13000 the chain goes on to the occupancy check. */
  lemma DayAndNight(g: Grid, player: Player, p: Pos, entities: seq<Entity>)
    requires IsBedMaterial(At(g, p).material)
    requires At(g, GetHead(g, p).value).biome !in ExplosiveInBiomes
    ensures Interact(g, WorldClock(12000, false), player, p, entities) == Notify(Day)
    ensures Interact(g, WorldClock(13000, false), player, p, entities) != Notify(Day)
    ensures Interact(g, WorldClock(12000, true), player, p, entities) != Notify(Day)
  {
  }

  /** blockInteract: returns whether the interaction was handled, and what
      it did. The mob scan walks the entity list in order and stops at the
      first entity that threatens the sleeper. */
  method BlockInteract(w: World, clock: WorldClock, player: Player, p: Pos, entities: seq<Entity>)
    returns (handled: bool, effect: Effect)
    ensures effect == Interact(w.cells, clock, player, p, entities)
    ensures handled <==> IsBedMaterial(At(w.cells, p).material)
  {
    if !IsBedMaterial(At(w.cells, p).material) {
      return false, NotBed;
    }
    var head := GetHead(w.cells, p).value;
    var block := At(w.cells, head);
    if block.biome in ExplosiveInBiomes {
      return true, Explosion(head, ExplosionPower, true);
    }
    if TooBrightToSleep(clock) {
      return true, Notify(Day);
    }
    if IsOccupied(block) {
      return true, Notify(Occupied);
    }
    if !IsWithinDistance(player.location, head, 3, 2, 3) {
      return true, TooFar;
    }
    var floor := Below(head);
    var i := 0;
    while i < |entities|
      invariant 0 <= i <= |entities|
      invariant forall j :: 0 <= j < i ==> !Threatens(entities[j], floor)
    {
      if Threatens(entities[i], floor) {
        return true, Notify(Mob);
      }
      i := i + 1;
    }
    return true, EnterBed(head);
  }
}

/** The world the bed lives in: materials, one cell per coordinate, and the
    mutable world object whose cells the bed logic reads and writes. */
module Blocks {
  import opened Geometry

  /** The sixteen dye colours; a bed's colour and a carpet's colour. */
  datatype DyeColor =
    | White | Orange | Magenta | LightBlue | Yellow | Lime | Pink | Gray
    | LightGray | Cyan | Purple | Blue | Brown | Green | Red | Black

  /** Block materials. Every material the bed logic names has a constructor of
      its own; the sixteen carpets and the sixteen beds are one constructor
      each, indexed by colour; Other stands for every remaining material. */
  datatype Material =
    | Air
    | OakSapling | DarkOakSapling | BirchSapling | AcaciaSapling | SpruceSapling | JungleSapling
    | PoweredRail | DetectorRail | Rail | ActivatorRail
    | TallGrass | DeadBush | Sunflower | Poppy | BrownMushroom | RedMushroom | LargeFern
    | Torch | RedstoneWire | RedstoneTorch | Lever | Comparator | Repeater | TripwireHook | Tripwire
    | Carrots | Potatoes | Wheat | SugarCane | Vine | Snow | FlowerPot
    | StoneButton | OakButton | DarkOakButton | AcaciaButton | JungleButton | SpruceButton | BirchButton
    | PlayerHead | WitherSkeletonSkull | SkeletonSkull | ZombieHead | CreeperHead | DragonHead
    | PlayerWallHead | WitherSkeletonWallSkull | SkeletonWallSkull | ZombieWallHead
    | CreeperWallHead | DragonWallHead
    | HeavyWeightedPressurePlate | LightWeightedPressurePlate
    | Carpet(carpetColour: DyeColor)
    | Bed(bedColour: DyeColor)
    | Other(name: string)

  /** Biomes: the ten nether and end biomes by name; every other biome,
      overworld or not, by id. */
  datatype Biome =
    | NetherWastes | SoulSandValley | CrimsonForest | WarpedForest | BasaltDeltas
    | TheEnd | EndBarrens | EndMidlands | EndHighlands | SmallEndIslands
    | OtherBiome(id: nat)

  /** The server's solidity table (Material.isSolid), which this model does
      not fix: every operation that consults it takes it as a parameter. */
  type SolidTable = Material -> bool

  /** One world cell. `data` is the cell's data byte, of which the bed logic
      interprets bit 0x4 (occupied); `facing` and `head` are the bed's facing
      and head-of-bed flag; `colour` is the colour stored in the bed's block
      entity; `biome` is the biome of the cell's column. */
  datatype Cell = Cell(material: Material, data: bv8, facing: Face, head: bool,
                       colour: DyeColor, biome: Biome)

  /** The bed block family (the BEDS material tag). A cell's block-state data
      is bed data exactly when its material is in this family. */
  predicate IsBedMaterial(m: Material)
  {
    m.Bed?
  }

  /** The world's cells by coordinate; a coordinate missing from the map reads
      as EmptyCell. */
  type Grid = map<Pos, Cell>

  const EmptyCell: Cell := Cell(Air, 0, South, false, White, OtherBiome(0))

  function At(g: Grid, p: Pos): Cell
  {
    if p in g then g[p] else EmptyCell
  }

  /** What setType(m) leaves in a cell: material m and a cleared data byte;
      the facing, head and colour fields are only read on bed cells, and
      every path that makes a bed cell writes them. */
  function WithType(c: Cell, m: Material): (r: Cell)
    ensures r.material == m && r.data == 0 && r.biome == c.biome
  {
    c.(material := m, data := 0)
  }

  /** The mutable world. Its methods are the cell accessors the bed logic
      calls: writing a data byte, writing a material, and writing back a
      whole block state. */
  class World {
    var cells: Grid

    method SetData(p: Pos, d: bv8)
      modifies this
      ensures cells == old(cells)[p := At(old(cells), p).(data := d)]
    {
      cells := cells[p := At(cells, p).(data := d)];
    }

    method SetType(p: Pos, m: Material)
      modifies this
      ensures cells == old(cells)[p := WithType(At(old(cells), p), m)]
    {
      cells := cells[p := WithType(At(cells, p), m)];
    }

    /** Writes a block state back into the world (update(true)). */
    method Update(p: Pos, c: Cell)
      modifies this
      ensures cells == old(cells)[p := c]
    {
      cells := cells[p := c];
    }
  }
}

/** The slice of the C `RenderState` the modelled render primitives read.
    World access is a set of uninterpreted functions over an immutable record:
    `get_data`, `is_transparent`, `render_mode_hidden`, chunk and section
    presence, `getArrayShort3D` on the current section, the lighting colour
    and the face-occlusion test. */
module RenderState {
  import opened BlockClass

  /** The `DataType` selector of `get_data`. */
  datatype DataType = Blocks | Data | BlockLight | SkyLight | Biomes

  /** One 8-bit colour channel. */
  type Channel = c: int | 0 <= c < 256

  datatype Rgb = Rgb(r: Channel, g: Channel, b: Channel)

  datatype State = State(
    getData: (DataType, int, int, int) -> nat,   // get_data(state, type, x, y, z)
    transparent: BlockId -> bool,                // is_transparent(block)
    hidden: (int, int, int) -> bool,             // render_mode_hidden(state->rendermode, x, y, z)
    loaded: (int, int) -> bool,                  // state->chunks[i][j].loaded
    sectionPresent: (int, int, int) -> bool,     // state->chunks[i][j].sections[s].blocks != NULL
    chunky: int,                                 // state->chunky
    sectionsPerChunk: int,                       // SECTIONS_PER_CHUNK
    blocks: (int, int, int) -> BlockId,          // getArrayShort3D(state->blocks, x, y, z)
    lightColor: (int, int, int) -> Rgb,          // get_lighting_color(lighting, state, x, y, z, ...)
    faceOccluded: (int, int, int) -> bool,       // lighting_is_face_occluded(state, 0, x, y, z)
    x: int, y: int, z: int,                      // the block being drawn, section-local
    imgx: int, imgy: int,                        // where its image goes
    block: BlockId,                              // state->block
    blockData: nat,                              // state->block_data
    blockPdata: nat,                             // state->block_pdata
    ids: IdTable,                                // the numbering of named blocks
    sse2: bool, mmx: bool)                       // the instruction sets the build uses

  /** `get_data(state, BLOCKS, x, y, z)` stored into an `mc_block_t`. */
  function BlockAt(s: State, x: int, y: int, z: int): BlockId
  {
    (s.getData(Blocks, x, y, z) % 0x1_0000) as BlockId
  }

  /** `is_transparent(get_data(state, BLOCKS, x, y, z))` */
  predicate TransparentAt(s: State, x: int, y: int, z: int)
  {
    s.transparent(BlockAt(s, x, y, z))
  }

  /** The ID of a named block in this state's numbering. */
  function Id(s: State, n: BlockName): BlockId
  {
    s.ids(n)
  }
}

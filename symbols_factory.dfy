/** The lookup a level layout uses: spacer symbols map to widths, block
    symbols to the factories that stamp the blocks
    (io/BlocksFromSymbolsFactory.java). */
module SymbolsFactories {
  import opened Blocks
  import opened BlockFactories

  class BlocksFromSymbolsFactory {
    const blockCreators: map<string, BlockFactory>
    const spacerWidths: map<string, int>

    /** Keeps both tables as given. */
    constructor (blockCreators: map<string, BlockFactory>, spacerWidths: map<string, int>)
      ensures this.blockCreators == blockCreators && this.spacerWidths == spacerWidths
    {
      this.blockCreators := blockCreators;
      this.spacerWidths := spacerWidths;
    }

    /** Whether the table pairs the symbol with a spacer width. */
    predicate IsSpaceSymbol(s: string): (r: bool)
      ensures r ==> s in spacerWidths && (s, spacerWidths[s]) in spacerWidths.Items
      ensures !r ==> forall k :: k in spacerWidths ==> k != s
    {
      s in spacerWidths
    }

    /** Whether the table pairs the symbol with a block factory. */
    predicate IsBlockSymbol(s: string): (r: bool)
      ensures r ==> s in blockCreators && (s, blockCreators[s]) in blockCreators.Items
      ensures !r ==> forall k :: k in blockCreators ==> k != s
    {
      s in blockCreators
    }

    /** The width registered for a spacer symbol. */
    function GetSpaceWidth(s: string): (w: int)
      requires IsSpaceSymbol(s)
      ensures (s, w) in spacerWidths.Items
    {
      spacerWidths[s]
    }

    /** The block the symbol's factory stamps at (xpos, ypos). */
    method GetBlock(s: string, xpos: int, ypos: int) returns (b: Block)
      requires IsBlockSymbol(s)
      ensures fresh(b)
      ensures var f := blockCreators[s]; b.Holds(f.RectAt(xpos, ypos), f.fill, f.stroke, f.hitPoints, [])
    {
      b := blockCreators[s].Create(xpos, ypos);
    }
  }

  /** A symbol never names two widths: the width of a spacer is the one
      entry of the table under that symbol. */
  lemma SpaceWidthUnique(f: BlocksFromSymbolsFactory, s: string, w: int)
    requires (s, w) in f.spacerWidths.Items
    ensures f.IsSpaceSymbol(s) && f.GetSpaceWidth(s) == w
  {
    assert s in f.spacerWidths && f.spacerWidths[s] == w;
  }
}

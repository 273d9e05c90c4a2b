/** The block-definitions reader: "default" lines set defaults, "bdef"
    lines define block templates by symbol, "sdef" lines define spacer
    widths, and the result is a symbols factory (io/BlocksDefinitionReader.java).
    The functions here are the specification of what the lines mean; the
    methods are the reader's loops, proved against them. */
module DefinitionsReader {
  import opened JavaText
  import opened Geometry
  import opened Fills
  import opened FillDefinitions
  import opened BlockFactories
  import opened SymbolsFactories

  /** The entries of the "default" lines: fill keys apart from the rest. */
  datatype Defaults = Defaults(values: map<string, string>, fills: map<string, string>)

  /** What the token loop of buildsBlock has collected so far: the hit
      points (-1 until a "hit_points" token), and the height, width and
      stroke of the tokens that set them. A non-empty fill map stands for
      the loop's fill flag. */
  datatype Scan = Scan(hitPoints: int, height: Option<int>, width: Option<int>, stroke: Option<Color>, fills: map<string, string>)

  const NoTokens: Scan := Scan(-1, None, None, None, map[])

  /** A resolved block template: what the factory holds once built; the
      fill is given by its slot texts. */
  datatype BlockDef = BlockDef(height: int, width: int, stroke: Option<Color>, hitPoints: int, slots: seq<string>)

  /** The tables the reader builds: defaults, block templates by symbol and
      spacer widths by symbol. */
  datatype Defs = Defs(defaults: Defaults, blocks: map<string, BlockDef>, spacers: map<string, int>)

  const NoDefs: Defs := Defs(Defaults(map[], map[]), map[], map[])

  /** The elements of a split line from index n on. */
  function Rest(split: seq<string>, n: nat): (r: seq<string>)
    ensures |split| <= n ==> r == []
    ensures |split| > n ==> |r| == |split| - n && forall i :: 0 <= i < |r| ==> r[i] == split[n + i]
  {
    if |split| <= n then [] else split[n..]
  }

  /** One "key:value" token of a bdef line. The known keys need a value
      (the missing one is an index out of bounds) and the numeric ones an
      int (else a NumberFormatException); other keys are skipped. */
  function ScanToken(sc: Scan, tok: string): (r: Parsed<Scan>)
    ensures var parts := Split(tok, ':');
      (|parts| >= 1 && parts[0] in {"hit_points", "height", "width"} &&
       (|parts| < 2 || ParseInt(parts[1]).None?)) ==> r.Throws?
    ensures r.Done? ==>
      sc.fills.Keys <= r.value.fills.Keys &&
      forall k :: k in r.value.fills && k !in sc.fills ==> StartsWith(k, "fill")
    ensures r.Done? && r.value.hitPoints != sc.hitPoints ==> IntMin <= r.value.hitPoints <= IntMax
  {
    var parts := Split(tok, ':');
    if |parts| == 0 then Throws
    else if parts[0] == "hit_points" then
      if |parts| < 2 || ParseInt(parts[1]).None? then Throws else Done(sc.(hitPoints := ParseInt(parts[1]).value))
    else if parts[0] == "height" then
      if |parts| < 2 || ParseInt(parts[1]).None? then Throws else Done(sc.(height := ParseInt(parts[1])))
    else if parts[0] == "width" then
      if |parts| < 2 || ParseInt(parts[1]).None? then Throws else Done(sc.(width := ParseInt(parts[1])))
    else if parts[0] == "stroke" then
      if |parts| < 2 then Throws else Done(sc.(stroke := Some(FromSpec(parts[1]))))
    else if StartsWith(parts[0], "fill") then
      if |parts| < 2 then Throws else Done(sc.(fills := sc.fills[parts[0] := parts[1]]))
    else Done(sc)
  }

  /** The tokens of a bdef line, scanned in order; an exception stops the scan. */
  function ScanTokens(toks: seq<string>): Parsed<Scan>
    decreases |toks|
  {
    if |toks| == 0 then Done(NoTokens)
    else match ScanTokens(toks[..|toks| - 1])
      case Throws => Throws
      case Done(sc) => ScanToken(sc, toks[|toks| - 1])
  }

  /** One more token: the scan continues from the shorter line's. */
  lemma ScanTokensStep(toks: seq<string>, i: nat)
    requires i < |toks|
    ensures ScanTokens(toks[..i + 1]) ==
      match ScanTokens(toks[..i])
      case Throws => Throws
      case Done(sc) => ScanToken(sc, toks[i])
  {
    assert toks[..i + 1][..i] == toks[..i];
  }

  /** Once a token throws, the scan of every longer line throws. */
  lemma {:induction false} ScanThrowsOn(toks: seq<string>, i: nat)
    requires i <= |toks| && ScanTokens(toks[..i]).Throws?
    ensures ScanTokens(toks).Throws?
    decreases |toks|
  {
    if i < |toks| {
      assert toks[..|toks| - 1][..i] == toks[..i];
      ScanThrowsOn(toks[..|toks| - 1], i);
    } else {
      assert toks[..i] == toks;
    }
  }

  /** Integer.parseInt(defaults.get(key)): a missing key is parseInt(null),
      which throws like a malformed number. */
  function Lookup(values: map<string, string>, key: string): Option<int>
  {
    if key in values then ParseInt(values[key]) else None
  }

  /** The fill map a block is built with: the default fills when the block
      has none of its own, and unionMaps of the two otherwise, which keeps
      only "fill" and "fill-1" to "fill-n" for n the larger size plus one. */
  function FillMap(sc: Scan, defaults: Defaults): (m: map<string, string>)
    ensures sc.fills == map[] ==> m == defaults.fills
    ensures sc.fills != map[] ==> forall k :: k in m ==> k in sc.fills || k in defaults.fills
    ensures sc.fills != map[] ==> forall j :: j > UnionBound(defaults.fills, sc.fills) ==> FillKey(j) !in m
  {
    if sc.fills == map[] then defaults.fills
    else
      var n := UnionBound(defaults.fills, sc.fills);
      var m := UnionUpTo(defaults.fills, sc.fills, n);
      assert forall k :: k in m ==> k in sc.fills || k in defaults.fills by {
        forall k | k in m
          ensures k in sc.fills || k in defaults.fills
        {
          UnionNoNewKeys(defaults.fills, sc.fills, n, k);
        }
      }
      assert forall j :: j > n ==> FillKey(j) !in m by {
        forall j: int | j > n
          ensures FillKey(j) !in m
        {
          UnionDrops(defaults.fills, sc.fills, n, j);
        }
      }
      m
  }

  /** The defaults fill in the hit points, height, width and stroke the
      tokens left open (an explicit -1 counts as no hit points); a missing
      or malformed number throws, and that gives null. The slots are not
      resolved yet. */
  function ResolveFields(sc: Scan, defaults: Defaults): (r: Option<BlockDef>)
    ensures r.None? <==>
      (sc.hitPoints == -1 && Lookup(defaults.values, "hit_points").None?) ||
      (sc.height.None? && Lookup(defaults.values, "height").None?) ||
      (sc.width.None? && Lookup(defaults.values, "width").None?)
    ensures r.Some? ==>
      r.value.slots == [] &&
      (sc.hitPoints != -1 ==> r.value.hitPoints == sc.hitPoints) &&
      (sc.height.Some? ==> r.value.height == sc.height.value) &&
      (sc.width.Some? ==> r.value.width == sc.width.value) &&
      (sc.stroke.Some? ==> r.value.stroke == sc.stroke) &&
      (sc.stroke.None? ==>
         r.value.stroke == (if "stroke" in defaults.values then Some(FromSpec(defaults.values["stroke"])) else None))
  {
    var hp := if sc.hitPoints == -1 then Lookup(defaults.values, "hit_points") else Some(sc.hitPoints);
    var height := if sc.height.Some? then sc.height else Lookup(defaults.values, "height");
    var width := if sc.width.Some? then sc.width else Lookup(defaults.values, "width");
    var stroke := if sc.stroke.Some? then sc.stroke
                  else if "stroke" in defaults.values then Some(FromSpec(defaults.values["stroke"]))
                  else None;
    if hp.None? || height.None? || width.None? then None
    else Some(BlockDef(height.value, width.value, stroke, hp.value, []))
  }

  /** The second half of buildsBlock: the fields, then the fill slots.
      Everything in it that throws is caught and gives null, as does a
      rejected fill. */
  function ResolveBlock(sc: Scan, defaults: Defaults, check: Check): (r: Option<BlockDef>)
    ensures ResolveFields(sc, defaults).None? ==> r.None?
    ensures r.Some? ==> r.value.(slots := []) == ResolveFields(sc, defaults).value
    ensures r.Some? ==>
      |r.value.slots| == (if r.value.hitPoints >= 0 then r.value.hitPoints + 1 else 0) && Loadable(r.value.slots)
  {
    FillSlotsMeaning(FillMap(sc, defaults), if ResolveFields(sc, defaults).Some? then ResolveFields(sc, defaults).value.hitPoints else 0, check);
    match ResolveFields(sc, defaults)
    case None => None
    case Some(b) =>
      match FillSlots(FillMap(sc, defaults), b.hitPoints, check)
      case Done(Some(slots)) => Some(b.(slots := slots))
      case _ => None
  }

  /** What buildsBlock makes of a split bdef line: an exception from the
      token loop escapes, otherwise a template or null. */
  function BlockSpec(split: seq<string>, defaults: Defaults, check: Check): Parsed<Option<BlockDef>>
  {
    match ScanTokens(Rest(split, 2))
    case Throws => Throws
    case Done(sc) => Done(ResolveBlock(sc, defaults, check))
  }

  /** The factory holds the template: its fields, and a fill built from the
      template's slot texts. */
  ghost predicate Realises(b: BlockFactory, d: BlockDef)
    reads b, b.fill
  {
    b.height == d.height && b.width == d.width && b.stroke == d.stroke && b.hitPoints == d.hitPoints &&
    b.fill != null && Loadable(d.slots) &&
    b.fill.images == ImageTable(d.slots) && b.fill.colors == ColorTable(d.slots)
  }

  /** The factory holds what the scan says the tokens set: the explicit
      hit points, height, width and stroke. */
  ghost predicate Tracks(block: BlockFactory, sc: Scan)
    reads block
  {
    (sc.hitPoints != -1 ==> block.hitPoints == sc.hitPoints) &&
    (sc.height.Some? ==> block.height == sc.height.value) &&
    (sc.width.Some? ==> block.width == sc.width.value) &&
    (sc.stroke.Some? ==> block.stroke == sc.stroke)
  }

  /** One round of the token loop of buildsBlock: a known token sets its
      field of the factory (or the fill map) and its flag, which the scan
      records. */
  method ScanOne(block: BlockFactory, sc: Scan, tok: string) returns (r: Parsed<Scan>)
    requires Tracks(block, sc)
    modifies block`hitPoints, block`height, block`width, block`stroke
    ensures r == ScanToken(sc, tok)
    ensures r.Done? ==> Tracks(block, r.value)
  {
    var secondSplit := Split(tok, ':');
    if |secondSplit| == 0 {
      return Throws;
    }
    if secondSplit[0] == "hit_points" {
      if |secondSplit| < 2 {
        return Throws;
      }
      var n := ParseInt(secondSplit[1]);
      if n.None? {
        return Throws;
      }
      block.SetHitPoints(n.value);
      return Done(sc.(hitPoints := n.value));
    }
    if secondSplit[0] == "height" {
      if |secondSplit| < 2 {
        return Throws;
      }
      var n := ParseInt(secondSplit[1]);
      if n.None? {
        return Throws;
      }
      block.SetHeight(n.value);
      return Done(sc.(height := n));
    }
    if secondSplit[0] == "width" {
      if |secondSplit| < 2 {
        return Throws;
      }
      var n := ParseInt(secondSplit[1]);
      if n.None? {
        return Throws;
      }
      block.SetWidth(n.value);
      return Done(sc.(width := n));
    }
    if secondSplit[0] == "stroke" {
      if |secondSplit| < 2 {
        return Throws;
      }
      block.SetStroke(Some(FromSpec(secondSplit[1])));
      return Done(sc.(stroke := Some(FromSpec(secondSplit[1]))));
    }
    if StartsWith(secondSplit[0], "fill") {
      if |secondSplit| < 2 {
        return Throws;
      }
      return Done(sc.(fills := sc.fills[secondSplit[0] := secondSplit[1]]));
    }
    r := Done(sc);
  }

  /** The token loop of buildsBlock, over the tokens after "bdef" and
      "symbol:...". */
  method ScanInto(block: BlockFactory, toks: seq<string>) returns (r: Parsed<Scan>)
    modifies block`hitPoints, block`height, block`width, block`stroke
    ensures r == ScanTokens(toks)
    ensures r.Done? ==> Tracks(block, r.value)
  {
    var sc := NoTokens;
    var i := 0;
    while i < |toks|
      invariant 0 <= i <= |toks|
      invariant ScanTokens(toks[..i]) == Done(sc)
      invariant Tracks(block, sc)
    {
      ScanTokensStep(toks, i);
      var next := ScanOne(block, sc, toks[i]);
      if next.Throws? {
        ScanThrowsOn(toks, i + 1);
        return Throws;
      }
      sc := next.value;
      i := i + 1;
    }
    assert toks[..i] == toks;
    r := Done(sc);
  }

  /** The first part of the try block of buildsBlock: the defaults fill
      in the fields the tokens left open. */
  method ApplyDefaults(block: BlockFactory, sc: Scan, defaults: Defaults) returns (ok: bool)
    requires Tracks(block, sc)
    modifies block`hitPoints, block`height, block`width, block`stroke
    ensures ok <==> ResolveFields(sc, defaults).Some?
    ensures ok ==> var b := ResolveFields(sc, defaults).value;
      block.hitPoints == b.hitPoints && block.height == b.height && block.width == b.width && block.stroke == b.stroke
  {
    if sc.hitPoints == -1 {
      var n := Lookup(defaults.values, "hit_points");
      if n.None? {
        return false;
      }
      block.SetHitPoints(n.value);
    }
    if sc.height.None? {
      var n := Lookup(defaults.values, "height");
      if n.None? {
        return false;
      }
      block.SetHeight(n.value);
    }
    if sc.width.None? {
      var n := Lookup(defaults.values, "width");
      if n.None? {
        return false;
      }
      block.SetWidth(n.value);
    }
    if sc.stroke.None? {
      block.SetStroke(if "stroke" in defaults.values then Some(FromSpec(defaults.values["stroke"])) else None);
    }
    ok := true;
  }

  /** The try block of buildsBlock: the defaults, then the fill, built from
      the default fills when the block has none and from their union
      otherwise. Anything in it that throws, and a rejected fill, gives
      null (false here). */
  method ResolveInto(block: BlockFactory, sc: Scan, defaults: Defaults, check: Check) returns (ok: bool)
    requires Tracks(block, sc)
    modifies block
    ensures ok <==> ResolveBlock(sc, defaults, check).Some?
    ensures ok ==> Realises(block, ResolveBlock(sc, defaults, check).value)
  {
    var fieldsOk := ApplyDefaults(block, sc, defaults);
    if !fieldsOk {
      return false;
    }
    ghost var fm := FillMap(sc, defaults);
    var f: Parsed<Option<Fill>>;
    if sc.fills == map[] {
      assert fm == defaults.fills;
      f := CreateFill(defaults.fills, block.hitPoints, check);
    } else {
      var newFill := UnionMaps(defaults.fills, sc.fills);
      assert fm == newFill;
      f := CreateFill(newFill, block.hitPoints, check);
    }
    if f.Throws? || f.value.None? {
      return false;
    }
    block.SetFill(f.value.value);
    ok := true;
  }

  /** buildsBlock: the token loop sets the factory's fields and the flags,
      then the try block resolves the rest. */
  method BuildsBlock(split: seq<string>, defaults: Defaults, check: Check) returns (r: Parsed<Option<BlockFactory>>)
    ensures r.Throws? <==> BlockSpec(split, defaults, check).Throws?
    ensures r.Done? ==> (r.value.None? <==> BlockSpec(split, defaults, check).value.None?)
    ensures r.Done? && r.value.Some? ==>
      fresh(r.value.value) && Realises(r.value.value, BlockSpec(split, defaults, check).value.value)
  {
    var block := new BlockFactory();
    var scan := ScanInto(block, Rest(split, 2));
    if scan.Throws? {
      return Throws;
    }
    var ok := ResolveInto(block, scan.value, defaults, check);
    if !ok {
      return Done(None);
    }
    r := Done(Some(block));
  }

  /** One token of a "default" line: a key starting with "fill" goes to the
      fill defaults, any other to the plain defaults; a token without a
      value throws. */
  function DefaultToken(d: Defaults, tok: string): Parsed<Defaults>
  {
    var parts := Split(tok, ':');
    if |parts| < 2 then Throws
    else if StartsWith(parts[0], "fill") then Done(d.(fills := d.fills[parts[0] := parts[1]]))
    else Done(d.(values := d.values[parts[0] := parts[1]]))
  }

  function DefaultTokens(d: Defaults, toks: seq<string>): Parsed<Defaults>
    decreases |toks|
  {
    if |toks| == 0 then Done(d)
    else match DefaultTokens(d, toks[..|toks| - 1])
      case Throws => Throws
      case Done(e) => DefaultToken(e, toks[|toks| - 1])
  }

  /** One more token: the fold continues from the tables of the shorter line. */
  lemma DefaultTokensStep(d: Defaults, toks: seq<string>, i: nat)
    requires i < |toks|
    ensures DefaultTokens(d, toks[..i + 1]) ==
      match DefaultTokens(d, toks[..i])
      case Throws => Throws
      case Done(e) => DefaultToken(e, toks[i])
  {
    assert toks[..i + 1][..i] == toks[..i];
  }

  lemma {:induction false} DefaultsThrowOn(d: Defaults, toks: seq<string>, i: nat)
    requires i <= |toks| && DefaultTokens(d, toks[..i]).Throws?
    ensures DefaultTokens(d, toks).Throws?
    decreases |toks|
  {
    if i < |toks| {
      assert toks[..|toks| - 1][..i] == toks[..i];
      DefaultsThrowOn(d, toks[..|toks| - 1], i);
    } else {
      assert toks[..i] == toks;
    }
  }

  /** A line that is skipped: a comment or an empty line. */
  predicate Skipped(line: string)
  {
    StartsWith(line, "#") || line == ""
  }

  /** A "default" line: its tokens after the first update the defaults. */
  function DefaultLine(d: Defs, split: seq<string>): (r: Parsed<Defs>)
    ensures r.Done? ==> r.value.blocks == d.blocks && r.value.spacers == d.spacers
  {
    match DefaultTokens(d.defaults, Rest(split, 1))
    case Throws => Throws
    case Done(e) => Done(d.(defaults := e))
  }

  /** A "bdef" line: the second word must be "symbol:<s>" for the template
      to be stored under s; a block that cannot be built is skipped. */
  function BlockLine(d: Defs, split: seq<string>, check: Check): (r: Parsed<Defs>)
    ensures r.Done? ==> r.value.defaults == d.defaults && r.value.spacers == d.spacers
    ensures r.Done? && r.value.blocks != d.blocks ==>
      |split| >= 2 && |Split(split[1], ':')| >= 2 && Split(split[1], ':')[0] == "symbol" &&
      BlockSpec(split, d.defaults, check).Done? && BlockSpec(split, d.defaults, check).value.Some? &&
      r.value.blocks == d.blocks[Split(split[1], ':')[1] := BlockSpec(split, d.defaults, check).value.value]
  {
    if |split| < 2 then Throws
    else
      var head := Split(split[1], ':');
      if |head| == 0 then Throws
      else if head[0] != "symbol" then Done(d)
      else match BlockSpec(split, d.defaults, check)
        case Throws => Throws
        case Done(None) => Done(d)
        case Done(Some(b)) => if |head| < 2 then Throws else Done(d.(blocks := d.blocks[head[1] := b]))
  }

  /** An "sdef" line: the values after the colons of its second and third
      words are the symbol and its width. */
  function SpacerLine(d: Defs, split: seq<string>): (r: Parsed<Defs>)
    ensures r.Done? ==> r.value.blocks == d.blocks && r.value.defaults == d.defaults
    ensures r.Done? ==>
      |split| >= 3 && |Split(split[1], ':')| >= 2 && |Split(split[2], ':')| >= 2 &&
      var symbol := Split(split[1], ':')[1];
      symbol in r.value.spacers && ParseInt(Split(split[2], ':')[1]) == Some(r.value.spacers[symbol]) &&
      forall k :: k != symbol ==>
        (k in r.value.spacers <==> k in d.spacers) && (k in d.spacers ==> r.value.spacers[k] == d.spacers[k])
  {
    if |split| < 3 then Throws
    else
      var symbol := Split(split[1], ':');
      var width := Split(split[2], ':');
      if |symbol| < 2 || |width| < 2 then Throws
      else match ParseInt(width[1])
        case None => Throws
        case Some(n) => Done(d.(spacers := d.spacers[symbol[1] := n]))
  }

  /** One line of the file. A line can start with at most one of "default",
      "bdef" and "sdef", so the reader's three separate tests act as one
      choice. Lines that start with none of them are ignored. */
  function ReadLine(d: Defs, line: string, check: Check): (r: Parsed<Defs>)
    ensures Skipped(line) ==> r == Done(d)
    ensures r.Done? && !StartsWith(line, "default") ==> r.value.defaults == d.defaults
    ensures r.Done? && !StartsWith(line, "bdef") ==> r.value.blocks == d.blocks
    ensures r.Done? && !StartsWith(line, "sdef") ==> r.value.spacers == d.spacers
  {
    if Skipped(line) then Done(d)
    else if StartsWith(line, "default") then DefaultLine(d, Split(line, ' '))
    else if StartsWith(line, "bdef") then BlockLine(d, Split(line, ' '), check)
    else if StartsWith(line, "sdef") then SpacerLine(d, Split(line, ' '))
    else Done(d)
  }

  /** The lines read in order from the tables d; an exception stops the reading. */
  function ReadFrom(d: Defs, lines: seq<string>, check: Check): Parsed<Defs>
    decreases |lines|
  {
    if |lines| == 0 then Done(d)
    else match ReadFrom(d, lines[..|lines| - 1], check)
      case Throws => Throws
      case Done(e) => ReadLine(e, lines[|lines| - 1], check)
  }

  /** One more line: reading continues from the tables of the shorter list. */
  lemma ReadFromStep(d: Defs, lines: seq<string>, n: nat, check: Check)
    requires n < |lines|
    ensures ReadFrom(d, lines[..n + 1], check) ==
      match ReadFrom(d, lines[..n], check)
      case Throws => Throws
      case Done(e) => ReadLine(e, lines[n], check)
  {
    assert lines[..n + 1][..n] == lines[..n];
  }

  /** Once a line throws, reading any longer list throws. */
  lemma {:induction false} ReadThrowsOn(d: Defs, lines: seq<string>, n: nat, check: Check)
    requires n <= |lines| && ReadFrom(d, lines[..n], check).Throws?
    ensures ReadFrom(d, lines, check).Throws?
    decreases |lines|
  {
    if n < |lines| {
      assert lines[..|lines| - 1][..n] == lines[..n];
      ReadThrowsOn(d, lines[..|lines| - 1], n, check);
    } else {
      assert lines[..n] == lines;
    }
  }

  /** Reading the second part of the lines continues from the tables of the first. */
  lemma {:induction false} ReadFromAppend(d: Defs, a: seq<string>, b: seq<string>, check: Check)
    ensures ReadFrom(d, a + b, check) ==
      match ReadFrom(d, a, check)
      case Throws => Throws
      case Done(e) => ReadFrom(e, b, check)
    decreases |b|
  {
    if |b| == 0 {
      assert a + b == a;
    } else {
      assert (a + b)[..|a + b| - 1] == a + b[..|b| - 1];
      ReadFromAppend(d, a, b[..|b| - 1], check);
    }
  }

  /** A comment or empty line can be put anywhere without changing the result. */
  lemma SkippedLineAnywhere(d: Defs, a: seq<string>, line: string, b: seq<string>, check: Check)
    requires Skipped(line)
    ensures ReadFrom(d, a + [line] + b, check) == ReadFrom(d, a + b, check)
  {
    ReadFromAppend(d, a + [line], b, check);
    ReadFromAppend(d, a, [line], check);
    ReadFromAppend(d, a, b, check);
    assert [line][..0] == [];
  }

  /** Templates are resolved when their bdef line is read: lines that are
      not bdef lines, such as later "default" lines, leave them alone. */
  lemma {:induction false} OnlyBdefLinesTouchBlocks(d: Defs, lines: seq<string>, check: Check)
    requires forall i :: 0 <= i < |lines| ==> !StartsWith(lines[i], "bdef")
    ensures ReadFrom(d, lines, check).Done? ==> ReadFrom(d, lines, check).value.blocks == d.blocks
    decreases |lines|
  {
    if |lines| > 0 {
      OnlyBdefLinesTouchBlocks(d, lines[..|lines| - 1], check);
      var e := ReadFrom(d, lines[..|lines| - 1], check);
      if e.Done? {
        var line := lines[|lines| - 1];
        assert !StartsWith(line, "bdef");
      }
    }
  }

  /** A bdef line leaves the defaults and the spacers alone, and changes
      the templates only by storing the one its tokens build under the
      symbol of its second word, when that word's key is "symbol". */
  lemma BdefLineRegisters(d: Defs, line: string, check: Check)
    requires StartsWith(line, "bdef")
    ensures var r := ReadLine(d, line, check);
      r.Done? ==> r.value.defaults == d.defaults && r.value.spacers == d.spacers
    ensures var r := ReadLine(d, line, check);
      var split := Split(line, ' ');
      r.Done? && r.value.blocks != d.blocks ==>
        |split| >= 2 && |Split(split[1], ':')| >= 2 && Split(split[1], ':')[0] == "symbol" &&
        BlockSpec(split, d.defaults, check).Done? && BlockSpec(split, d.defaults, check).value.Some? &&
        r.value.blocks == d.blocks[Split(split[1], ':')[1] := BlockSpec(split, d.defaults, check).value.value]
  {
    assert line[..4] == "bdef" && line[0] == 'b';
    assert !Skipped(line) by {
      assert line[..1][0] == 'b';
    }
    assert !StartsWith(line, "default") by {
      if |line| >= 7 {
        assert line[..7][0] == 'b';
      }
    }
  }

  /** A "key:value" word with no space splits back into key and value. */
  lemma KeyValueWord(key: string, value: string)
    requires value != "" && ' ' !in key && ' ' !in value && ':' !in key && ':' !in value
    ensures var w := Join([key, value], ':');
      Split(w, ':') == [key, value] && ' ' !in w && w != ""
  {
    SplitJoin([key, value], ':');
    var w := Join([key, value], ':');
    assert w == key + [':'] + value;
    assert forall i :: 0 <= i < |w| ==> w[i] != ' ';
  }

  /** Words without spaces, joined into a line, split back into the same
      words, and the line starts with the first of them. */
  lemma KeywordLine(words: seq<string>)
    requires |words| >= 2 && words[0] != "" && words[|words| - 1] != ""
    requires forall i :: 0 <= i < |words| ==> ' ' !in words[i]
    ensures Split(Join(words, ' '), ' ') == words
    ensures StartsWith(Join(words, ' '), words[0])
    ensures Join(words, ' ')[0] == words[0][0]
  {
    SplitJoin(words, ' ');
    var line := Join(words, ' ');
    assert line == words[0] + [' '] + Join(words[1..], ' ');
    assert line[..|words[0]|] == words[0];
  }

  /** A line "default key:value" sets that one default. */
  lemma DefaultLineSets(d: Defs, key: string, value: string, check: Check)
    requires value != "" && ' ' !in key && ' ' !in value && ':' !in key && ':' !in value
    ensures ReadLine(d, Join(["default", Join([key, value], ':')], ' '), check) ==
      Done(d.(defaults := if StartsWith(key, "fill") then d.defaults.(fills := d.defaults.fills[key := value])
                          else d.defaults.(values := d.defaults.values[key := value])))
  {
    var tok := Join([key, value], ':');
    KeyValueWord(key, value);
    var line := Join(["default", tok], ' ');
    SplitJoin(["default", tok], ' ');
    assert line == "default" + [' '] + tok;
    assert line[..7] == "default";
    assert !Skipped(line) && StartsWith(line, "default");
    assert Rest(Split(line, ' '), 1) == [tok];
    DefaultTokensStep(d.defaults, [tok], 0);
    assert [tok][..0] == [] && [tok][..1] == [tok];
  }

  /** The words "sdef symbol:<s> width:<n>" set the spacer width of s to n. */
  lemma SpacerWordsSet(d: Defs, s: string, n: nat)
    requires n <= IntMax && s != "" && ' ' !in s && ':' !in s
    ensures SpacerLine(d, ["sdef", Join(["symbol", s], ':'), Join(["width", NatToString(n)], ':')]) ==
      Done(d.(spacers := d.spacers[s := n]))
  {
    KeyValueWord("symbol", s);
    KeyValueWord("width", NatToString(n));
    ParseValueOf(n);
  }

  /** A line "sdef symbol:s width:n" registers spacer s with width n. */
  lemma SpacerLineSets(d: Defs, s: string, n: nat, check: Check)
    requires n <= IntMax && s != "" && ' ' !in s && ':' !in s
    ensures ReadLine(d, Join(["sdef", Join(["symbol", s], ':'), Join(["width", NatToString(n)], ':')], ' '), check) ==
      Done(d.(spacers := d.spacers[s := n]))
  {
    var sym := Join(["symbol", s], ':');
    var wid := Join(["width", NatToString(n)], ':');
    KeyValueWord("symbol", s);
    KeyValueWord("width", NatToString(n));
    var line := Join(["sdef", sym, wid], ' ');
    KeywordLine(["sdef", sym, wid]);
    assert line[0] == 's';
    assert !Skipped(line) by {
      assert line[..1][0] == 's';
    }
    assert !StartsWith(line, "default") by {
      if |line| >= 7 {
        assert line[..7][0] == 's';
      }
    }
    assert !StartsWith(line, "bdef") by {
      if |line| >= 4 {
        assert line[..4][0] == 's';
      }
    }
    assert ReadLine(d, line, check) == SpacerLine(d, ["sdef", sym, wid]);
    SpacerWordsSet(d, s, n);
  }

  /** An explicit "hit_points:-1" leaves the scan as if there were no
      hit_points token, so the default count is used. */
  lemma ExplicitMinusOneIsNoCount(sc: Scan)
    ensures ScanToken(sc, Join(["hit_points", "-" + NatToString(1)], ':')) == Done(sc.(hitPoints := NoTokens.hitPoints))
  {
    KeyValueWord("hit_points", "-" + NatToString(1));
    ParseNegated(1);
  }

  /** A numeric token "key:n" sets that key to n. */
  lemma NumberTokenSets(sc: Scan, key: string, n: nat)
    requires key == "hit_points" || key == "height" || key == "width"
    requires n <= IntMax
    ensures ScanToken(sc, Join([key, NatToString(n)], ':')) ==
      Done(if key == "hit_points" then sc.(hitPoints := n)
           else if key == "height" then sc.(height := Some(n))
           else sc.(width := Some(n)))
  {
    var digits := NatToString(n);
    assert forall i :: 0 <= i < |digits| ==> IsDigit(digits[i]);
    KeyValueWord(key, digits);
    ParseValueOf(n);
  }

  /** In a resolved template, slot i of the fill holds the block's own
      "fill-i", else the default "fill-i", else the base text, as long as
      the block has no fills of its own or i is within unionMaps' round
      count; past the round count a block with fills of its own gets the
      base text whatever "fill-i" either map holds. */
  lemma BlockFillsWin(sc: Scan, defaults: Defaults, check: Check)
    ensures var r := ResolveBlock(sc, defaults, check);
      r.Some? ==>
        var s := r.value.slots;
        var base := BaseFill(FillMap(sc, defaults), check);
        |s| == r.value.hitPoints + 1 &&
        (forall i :: 1 <= i <= r.value.hitPoints && (sc.fills == map[] || i <= UnionBound(defaults.fills, sc.fills)) ==>
          s[i] == if FillKey(i) in sc.fills then sc.fills[FillKey(i)]
                  else if FillKey(i) in defaults.fills then defaults.fills[FillKey(i)]
                  else base) &&
        (forall i :: 1 <= i <= r.value.hitPoints && sc.fills != map[] && i > UnionBound(defaults.fills, sc.fills) ==>
          s[i] == base)
  {
    var r := ResolveBlock(sc, defaults, check);
    if r.Some? {
      var fm := FillMap(sc, defaults);
      FillSlotsMeaning(fm, r.value.hitPoints, check);
      if sc.fills != map[] {
        var n := UnionBound(defaults.fills, sc.fills);
        forall i | 1 <= i <= r.value.hitPoints && i <= n
          ensures (FillKey(i) in fm <==> FillKey(i) in sc.fills || FillKey(i) in defaults.fills)
          ensures FillKey(i) in fm ==> fm[FillKey(i)] == if FillKey(i) in sc.fills then sc.fills[FillKey(i)] else defaults.fills[FillKey(i)]
        {
          UnionKeeps(defaults.fills, sc.fills, n, i);
          if FillKey(i) in fm {
            UnionNoNewKeys(defaults.fills, sc.fills, n, FillKey(i));
          }
        }
      }
    }
  }

  /** The fill map buildsBlock evidently means to use: the default fills
      when the block has none of its own, and otherwise every key of either
      map with the block's entry winning. */
  function IntendedFillMap(sc: Scan, defaults: Defaults): (m: map<string, string>)
    ensures forall k :: k in m <==> k in sc.fills || k in defaults.fills
    ensures forall k :: k in m ==> m[k] == if k in sc.fills then sc.fills[k] else defaults.fills[k]
  {
    if sc.fills == map[] then defaults.fills else MergeFills(defaults.fills, sc.fills)
  }

  /** With the intended map every slot holds the block's "fill-i", else the
      default "fill-i", else the base text, whatever the hit-point count;
      within unionMaps' round count it builds the same slots as the map
      written. */
  lemma IntendedFillsWin(sc: Scan, defaults: Defaults, hitPoints: int, check: Check)
    ensures var r := FillSlots(IntendedFillMap(sc, defaults), hitPoints, check);
      r.Done? && r.value.Some? ==>
        var s := r.value.value;
        var base := BaseFill(IntendedFillMap(sc, defaults), check);
        |s| == (if hitPoints >= 0 then hitPoints + 1 else 0) &&
        forall i :: 1 <= i <= hitPoints ==>
          s[i] == if FillKey(i) in sc.fills then sc.fills[FillKey(i)]
                  else if FillKey(i) in defaults.fills then defaults.fills[FillKey(i)]
                  else base
    ensures sc.fills == map[] || hitPoints <= UnionBound(defaults.fills, sc.fills) ==>
      FillSlots(IntendedFillMap(sc, defaults), hitPoints, check) == FillSlots(FillMap(sc, defaults), hitPoints, check)
  {
    FillSlotsMeaning(IntendedFillMap(sc, defaults), hitPoints, check);
    if sc.fills != map[] && hitPoints <= UnionBound(defaults.fills, sc.fills) {
      UnionAgreesWithinBound(defaults.fills, sc.fills, hitPoints, check);
    }
  }

  /** The reader as written loses a sparse block fill: with no default
      fills, a block of 3 hit points whose only fill token is "fill-3"
      gets the default colour in slot 3, whatever the fill check says. */
  lemma ReaderDropsSparseFill(check: Check)
    ensures var sc := Scan(3, Some(20), Some(50), None, map[FillKey(3) := "color(red)"]);
      var r := ResolveBlock(sc, Defaults(map[], map[]), check);
      r.Some? && |r.value.slots| == 4 && r.value.slots[3] == DefaultFill &&
      IntendedFillMap(sc, Defaults(map[], map[]))[FillKey(3)] == "color(red)"
  {
    var sc := Scan(3, Some(20), Some(50), None, map[FillKey(3) := "color(red)"]);
    var defaults := Defaults(map[], map[]);
    var m := FillMap(sc, defaults);
    assert |sc.fills| == 1;
    assert FillKey(3) !in m;
    assert m == map[];
    assert BaseFill(m, check) == DefaultFill;
    SlotsFromNoFills(1, 3, DefaultFill, check);
  }

  /** With no fills at all every slot gets the base text, and no check is
      made. */
  lemma {:induction false} SlotsFromNoFills(i: nat, hitPoints: int, base: string, check: Check)
    requires i >= 1
    ensures var r := SlotsFrom(map[], i, hitPoints, base, check);
      r.Done? && r.value.Some? && |r.value.value| == (if i <= hitPoints then hitPoints - i + 1 else 0) &&
      forall j :: 0 <= j < |r.value.value| ==> r.value.value[j] == base
    decreases hitPoints - i + 1
  {
    if i <= hitPoints {
      SlotsFromNoFills(i + 1, hitPoints, base, check);
    }
  }

  /** A template takes the explicit hit points, height, width and stroke of
      its tokens and the defaults for the rest, where "hit_points:-1" counts
      as absent; a missing or malformed default, or a fill that is not
      built, gives no template. */
  lemma ResolveBlockFields(sc: Scan, defaults: Defaults, check: Check)
    ensures var r := ResolveBlock(sc, defaults, check);
      r.Some? ==>
        (sc.hitPoints != -1 ==> r.value.hitPoints == sc.hitPoints) &&
        (sc.hitPoints == -1 ==> ParseInt(defaults.values["hit_points"]) == Some(r.value.hitPoints)) &&
        (sc.height.Some? ==> r.value.height == sc.height.value) &&
        (sc.height.None? ==> ParseInt(defaults.values["height"]) == Some(r.value.height)) &&
        (sc.width.Some? ==> r.value.width == sc.width.value) &&
        (sc.width.None? ==> ParseInt(defaults.values["width"]) == Some(r.value.width)) &&
        (sc.stroke.Some? ==> r.value.stroke == sc.stroke) &&
        (sc.stroke.None? ==>
           r.value.stroke == (if "stroke" in defaults.values then Some(FromSpec(defaults.values["stroke"])) else None))
    ensures var r := ResolveBlock(sc, defaults, check);
      ((sc.hitPoints == -1 && Lookup(defaults.values, "hit_points").None?) ||
       (sc.height.None? && Lookup(defaults.values, "height").None?) ||
       (sc.width.None? && Lookup(defaults.values, "width").None?)) ==> r.None?
    ensures var r := ResolveBlock(sc, defaults, check);
      var f := ResolveFields(sc, defaults);
      f.Some? ==>
        (r.Some? <==> (FillSlots(FillMap(sc, defaults), f.value.hitPoints, check).Done? &&
                       FillSlots(FillMap(sc, defaults), f.value.hitPoints, check).value.Some?))
  {
  }

  /** The maps of the symbols factory hold the tables: the spacer widths,
      and for each block symbol a factory that realises its template. */
  ghost predicate Holds(f: BlocksFromSymbolsFactory, d: Defs)
    reads f, f.blockCreators.Values, set b | b in f.blockCreators.Values :: b.fill
  {
    f.spacerWidths == d.spacers && f.blockCreators.Keys == d.blocks.Keys &&
    forall k :: k in d.blocks ==> Realises(f.blockCreators[k], d.blocks[k])
  }

  /** fromReader over the lines of the file: the tables are built line by
      line, and an exception that escapes a line escapes the reader. */
  method FromReader(lines: seq<string>, check: Check) returns (r: Parsed<BlocksFromSymbolsFactory>)
    ensures r.Throws? <==> ReadFrom(NoDefs, lines, check).Throws?
    ensures r.Done? ==> fresh(r.value) && Holds(r.value, ReadFrom(NoDefs, lines, check).value)
    ensures r.Done? ==> forall s ::
      (r.value.IsSpaceSymbol(s) <==> s in ReadFrom(NoDefs, lines, check).value.spacers) &&
      (r.value.IsBlockSymbol(s) <==> s in ReadFrom(NoDefs, lines, check).value.blocks)
  {
    var defaultDef: map<string, string> := map[];
    var fillsDef: map<string, string> := map[];
    var spacersDef: map<string, int> := map[];
    var blocks: map<string, BlockFactory> := map[];
    ghost var templates: map<string, BlockDef> := map[];
    var n := 0;
    while n < |lines|
      invariant 0 <= n <= |lines|
      invariant ReadFrom(NoDefs, lines[..n], check) == Done(Defs(Defaults(defaultDef, fillsDef), templates, spacersDef))
      invariant blocks.Keys == templates.Keys
      invariant forall k :: k in templates ==> Realises(blocks[k], templates[k])
    {
      ReadFromStep(NoDefs, lines, n, check);
      var line := lines[n];
      ghost var d := Defs(Defaults(defaultDef, fillsDef), templates, spacersDef);
      if !Skipped(line) {
        var split := Split(line, ' ');
        if StartsWith(line, "default") {
          var e := PutDefaults(Defaults(defaultDef, fillsDef), Rest(split, 1));
          if e.Throws? {
            ReadThrowsOn(NoDefs, lines, n + 1, check);
            return Throws;
          }
          defaultDef, fillsDef := e.value.values, e.value.fills;
        } else if StartsWith(line, "bdef") {
          if |split| < 2 {
            ReadThrowsOn(NoDefs, lines, n + 1, check);
            return Throws;
          }
          var head := Split(split[1], ':');
          if |head| == 0 {
            ReadThrowsOn(NoDefs, lines, n + 1, check);
            return Throws;
          }
          if head[0] == "symbol" {
            var b := BuildsBlock(split, Defaults(defaultDef, fillsDef), check);
            if b.Throws? {
              ReadThrowsOn(NoDefs, lines, n + 1, check);
              return Throws;
            }
            if b.value.Some? {
              if |head| < 2 {
                ReadThrowsOn(NoDefs, lines, n + 1, check);
                return Throws;
              }
              blocks := blocks[head[1] := b.value.value];
              templates := templates[head[1] := BlockSpec(split, Defaults(defaultDef, fillsDef), check).value.value];
            }
          }
        } else if StartsWith(line, "sdef") {
          if |split| < 3 {
            ReadThrowsOn(NoDefs, lines, n + 1, check);
            return Throws;
          }
          var symbol := Split(split[1], ':');
          var width := Split(split[2], ':');
          if |symbol| < 2 || |width| < 2 {
            ReadThrowsOn(NoDefs, lines, n + 1, check);
            return Throws;
          }
          var w := ParseInt(width[1]);
          if w.None? {
            ReadThrowsOn(NoDefs, lines, n + 1, check);
            return Throws;
          }
          spacersDef := spacersDef[symbol[1] := w.value];
        }
      }
      n := n + 1;
    }
    assert lines[..n] == lines;
    var f := new BlocksFromSymbolsFactory(blocks, spacersDef);
    r := Done(f);
  }

  /** The token loop of a "default" line, inside fromReader. */
  method PutDefaults(d: Defaults, toks: seq<string>) returns (r: Parsed<Defaults>)
    ensures r == DefaultTokens(d, toks)
  {
    var defaultDef, fillsDef := d.values, d.fills;
    var i := 0;
    while i < |toks|
      invariant 0 <= i <= |toks|
      invariant DefaultTokens(d, toks[..i]) == Done(Defaults(defaultDef, fillsDef))
    {
      DefaultTokensStep(d, toks, i);
      var secondSplit := Split(toks[i], ':');
      if |secondSplit| < 2 {
        DefaultsThrowOn(d, toks, i + 1);
        return Throws;
      }
      if StartsWith(secondSplit[0], "fill") {
        fillsDef := fillsDef[secondSplit[0] := secondSplit[1]];
      } else {
        defaultDef := defaultDef[secondSplit[0] := secondSplit[1]];
      }
      i := i + 1;
    }
    assert toks[..i] == toks;
    r := Done(Defaults(defaultDef, fillsDef));
  }
}

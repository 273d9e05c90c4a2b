# Arkanoid game rules and level definitions, in Dafny

This project models the rule-keeping core of a Java Arkanoid game and
proves properties of the model. It covers:

- **Contact responses.** `Block.hit` takes one hit point, notifies a copy
  of the block's listener list, and reflects the ball by the edges that
  hold the contact point. `Paddle.hit` sends a top-edge contact to one of
  five zones. The arrow keys step the paddle and clamp it to the walls at
  25 and 775.
- **Per-frame level rules** of `GameLevel`:
  - clearing the blocks is worth 100 points;
  - losing every ball costs a life;
  - either one ends the level;
  - the row colour table;
  - building the frame, the level's blocks, the balls and the paddle.
- **The menu** of `MenuAnimation`:
  - the key debounce, where a key already held when the menu appears selects nothing;
  - the first held key in insertion order wins;
  - a chosen sub-menu is reported as null.
- **The level-definition reader** `BlocksDefinitionReader`:
  - it reads `default`, `bdef` and `sdef` lines into default tables, block templates and spacer widths;
  - the block's own tokens win over the defaults;
  - it merges the fill maps and fills the slot array of a `Fill`;
  - `Fill` splits its slots into an image table and a colour table and picks a slot from the hit points;
  - `BlockFactory` and `BlocksFromSymbolsFactory` are the record and lookup layer the reader fills.

The Java classes that update fields in place are Dafny classes. Those
classes are `Block`, `Paddle`, `GameLevel`, `MenuAnimation`, `Fill`,
`BlockFactory` and `BlocksFromSymbolsFactory`. Their loops are methods
with invariants. Each method is proved against a function that states what
the loop computes (`ListenersAfter`, `AfterFrame`, `SlotsFrom`, `UnionUpTo`,
`ScanTokens`, `DefaultTokens`, `ReadFrom`). The lemmas about those
functions carry the properties.

Java exceptions that escape a call are `Parsed.Throws`, and a Java null is
`Option.None`. The keyboard is the set of key names held in a frame.
Which edges of a rectangle hold the contact point is a `Contact` value of
four booleans. The distance from the paddle's upper-left corner is a real
offset.

Modules:

| file | module | models |
|---|---|---|
| `java_text.dfy` | `JavaText` | `String.split` with a one-character separator, `Integer.parseInt`, `String.valueOf` |
| `geometry.dfy` | `Geometry` | rectangles, velocities, colours, edge contacts |
| `fill.dfy` | `Fills` | `Fill` |
| `block.dfy` | `Blocks` | `Block` |
| `paddle.dfy` | `Paddles` | `Paddle` |
| `game_level.dfy` | `GameLevels` | `GameLevel` |
| `menu.dfy` | `Menus` | `MenuAnimation` |
| `block_factory.dfy` | `BlockFactories` | `BlockFactory` |
| `symbols_factory.dfy` | `SymbolsFactories` | `BlocksFromSymbolsFactory` |
| `fill_definitions.dfy` | `FillDefinitions` | `createFill`, `checksValidFill`, `unionMaps` |
| `definitions_reader.dfy` | `DefinitionsReader` | `fromReader`, `buildsBlock` |

## Model

| member | source | states |
|---|---|---|
| Blocks.Block.constructor | src/collisions/Block.java:32-38 | The block has the given rectangle, fill and frame colour, 0 hit points and no listeners. |
| Blocks.Block.WithHitPoints | src/collisions/Block.java:47-53 | The block has the given hit points and no listeners. |
| Blocks.Block.WithListener | src/collisions/Block.java:64-71 | The block has the given hit points and exactly the one listener. |
| Blocks.Block.WithListeners | src/collisions/Block.java:82-88 | The block holds its own copy of the given list, so later changes to that list cannot reach it. |
| Blocks.Block.Hit | src/collisions/Block.java:114-128 | The hit points drop by exactly one whichever edge was struck. Every listener of the list as it stood is notified once, in order. The velocity returned is `Reflect(contact, v)`. |
| Blocks.Reflect | src/collisions/Block.java:118-127 | Each component keeps or flips its sign, so the speed is unchanged. |
| Blocks.ReflectNegatesPerpendicular | src/collisions/Block.java:118-125 | For non-zero components: dy flips exactly when the top or bottom edge holds the point, and dx exactly when the left or right edge does. |
| Blocks.ReflectTwice | src/collisions/Block.java:118-127 | Reflecting twice at the same contact gives back the incoming velocity. |
| Blocks.Events | src/collisions/Block.java:155-157 | There is one hitEvent per listener, in list order. |
| Blocks.Block.NotifyHit | src/collisions/Block.java:151-158 | Each listener registered when the call starts is notified once, in order, whatever its reaction does to the list. The final list is the effect of the reactions in that order. |
| Blocks.SelfRemovalEmpties | src/collisions/Block.java:151-158 | When every listener removes itself, all of them are notified and the block ends with no listeners. |
| Blocks.RemoveFirst | src/collisions/Block.java:187-189 | Exactly one occurrence is removed (multiset difference); the length drops by one exactly when the listener was registered. |
| Blocks.RemoveFirstSplits | src/collisions/Block.java:187-189 | The listeners before and after the first occurrence stay, in order. |
| Blocks.Block.RemoveHitListener | src/collisions/Block.java:187-189 | The list loses the first registration of the listener. Hit points are untouched. |
| Blocks.Block.AddHitListeners | src/collisions/Block.java:171-173 | The given listeners are appended, in order. |
| Blocks.Block.AddHitListener | src/collisions/Block.java:179-181 | The listener is appended. |
| Blocks.Block.DrawOn | src/collisions/Block.java:134-139 | A negative hit-point count becomes 1 and any other is kept. The fill paints the resulting count. |
| Paddles.Paddle.constructor | src/collisions/Paddle.java:30-35 | The paddle has the given rectangle, colour and speed. |
| Paddles.MovedRight | src/collisions/Paddle.java:41-53 | Without the key the rectangle is unchanged. With it, the paddle moves one step or sits flush at 775; its right edge never passes 775; it is flush whenever it started within a step of 775; y, width and height are kept. |
| Paddles.MovedLeft | src/collisions/Paddle.java:59-70 | Without the key the rectangle is unchanged. With it, the paddle moves one step or sits at 25; its x is never below 25; it sits at 25 whenever the step would end within step + 25; y, width and height are kept. |
| Paddles.Paddle.MoveRight | src/collisions/Paddle.java:41-53 | The two successive checks give `MovedRight`. |
| Paddles.Paddle.MoveLeft | src/collisions/Paddle.java:59-70 | The two successive checks give `MovedLeft`. |
| Paddles.Paddle.TimePassed | src/collisions/Paddle.java:84-87 | The paddle moves left first, then right. A paddle between the walls stays between them. |
| Paddles.MovesStayBetweenWalls | src/collisions/Paddle.java:41-70 | With a non-negative step, a paddle that fits between the walls stays there whatever keys are held. |
| Paddles.BothKeysCancel | src/collisions/Paddle.java:84-87 | With both keys held and the paddle far from the walls, it ends the frame where it started. |
| Paddles.Zone | src/collisions/Paddle.java:134-144 | Every offset falls in exactly one of the zones 1 to 5. |
| Paddles.ZoneIsFifth | src/collisions/Paddle.java:134-144 | The offset is in zone k exactly when it lies in the k-th fifth [(k-1)L/5, kL/5) of the edge length L; the first and last zones are open-ended. |
| Paddles.Paddle.Length | src/collisions/Paddle.java:133 | The edge length is the distance between the top corners truncated to an int. |
| Paddles.Paddle.HitOnUpperLine | src/collisions/Paddle.java:131-145 | The five fifths give the angles 300 and 330, the reflection (dx, -dy), then the angles 30 and 60, each at the incoming speed. |
| Paddles.Paddle.Hit | src/collisions/Paddle.java:110-121 | The top edge wins, even at a corner. Then the bottom edge gives (dx, -dy), a side gives (-dx, dy), and no edge returns the velocity unchanged. |
| Paddles.PaddleLikeBlockBelowTop | src/collisions/Paddle.java:110-121 | Off the top edge the paddle answers like a block, except at a bottom corner, where it does not reverse dx. |
| Paddles.OuterFifthsAngles | src/collisions/Paddle.java:134-143 | A contact a tenth of the way along leaves at 300 degrees, one at nine tenths at 60. |
| GameLevels.GameLevel.constructor | src/animations/GameLevel.java:55-66 | Remaining blocks start at the level's count to remove, remaining balls at 0, and the level is running. Its own counters are new and distinct. |
| GameLevels.FrameRule | src/animations/GameLevel.java:245-252 | No blocks left adds exactly 100 to the score; no balls left takes exactly one life; either stops the level; both can fire in one frame. |
| GameLevels.GameLevel.DoOneFrame | src/animations/GameLevel.java:237-253 | The counters follow `FrameRule`, and this holds even when score and lives are one shared counter. The pause is reported when "p" or "P" is held. |
| GameLevels.QuietFrames | src/animations/GameLevel.java:245-252 | While blocks and balls remain, any number of frames changes nothing. |
| GameLevels.ClearedFramesRepeatBonus | src/animations/GameLevel.java:245-248 | With no block left, every further frame pays the bonus again. |
| GameLevels.StoppedStaysStopped | src/animations/GameLevel.java:245-252 | Frames never set the running flag again. |
| GameLevels.GameLevel.ShouldStop | src/animations/GameLevel.java:228-230 | True exactly when the level is not running. |
| GameLevels.ChooseColor | src/animations/GameLevel.java:197-222 | Rows 0 to 5 are yellow, red, orange, green, cyan and magenta; every other index is white. |
| GameLevels.RowColorsDistinct | src/animations/GameLevel.java:199-219 | The six row colours differ from each other and from white. |
| GameLevels.FrameFillTables | src/animations/GameLevel.java:145-148 | The border fill has no image and paints slot 1 grey. |
| GameLevels.GameLevel.BuildsFrame | src/animations/GameLevel.java:143-159 | Four new blocks with 0 hit points are added as top, left, death region and right, with the stated rectangles. Only the death-region block carries the ball remover. |
| GameLevels.OccurrencesIsMultiplicity | src/animations/GameLevel.java:168-171 | The count of appearances `BuildsBlocks` uses is the block's multiplicity in the level's list. |
| GameLevels.GameLevel.BuildsBlocks | src/animations/GameLevel.java:164-172 | The level's blocks are added in order. Each one gets the block remover then the score tracker, once per appearance in the list. Hit points are untouched. |
| GameLevels.Half | src/animations/GameLevel.java:186 | Java's int division by two rounds toward zero: for w >= 0, w - 2h is 0 or 1, and for w < 0 it is 0 or -1. |
| GameLevels.HalfNegates | src/animations/GameLevel.java:186 | Halving commutes with negation, as truncation toward zero does. |
| GameLevels.StartPaddle | src/animations/GameLevel.java:185-187 | The paddle's left x is 400 - width/2 at y = 565, so it is centred on x = 400 (400.5 for an odd width). |
| GameLevels.StartBalls | src/animations/GameLevel.java:178-184 | There are `numberOfBalls` light-grey balls of radius 5 at (400, 550), the i-th moving with the i-th velocity. |
| GameLevels.GameLevel.BuildsBallsAndPuddle | src/animations/GameLevel.java:177-190 | The balls are added and remaining balls grows by exactly `numberOfBalls`. The new paddle is orange, at `StartPaddle`, with the level's speed. |
| GameLevels.GameLevel.Initialize | src/animations/GameLevel.java:133-138 | The frame comes first, then the level's blocks. Each block gets its listeners; its hit points and past notifications are unchanged. |
| Menus.FirstPressed | src/animations/MenuAnimation.java:63-72 | Returns the first selection in insertion order whose key is held, or none when no registered key is held. |
| Menus.AfterFrame | src/animations/MenuAnimation.java:62-75 | With no registered key held, the debounce is released and nothing else changes. With a key held after a release, the first held key's value is stored and the menu stops. A key held without a release changes nothing. |
| Menus.MenuAnimation.constructor | src/animations/MenuAnimation.java:33-42 | The menu starts with no selections, no sub-menus, stop false, no value and the debounce set. |
| Menus.MenuAnimation.DoOneFrame | src/animations/MenuAnimation.java:62-75 | The loop with its break computes `AfterFrame`. |
| Menus.HeldKeyIgnoredOnFirstFrame | src/animations/MenuAnimation.java:62-75 | A key held on a new menu's first frame selects nothing. |
| Menus.ReleaseThenPress | src/animations/MenuAnimation.java:62-75 | A frame with no key held, then a frame with keys held, selects the first held key's value and stops. |
| Menus.MenuAnimation.ShouldStop | src/animations/MenuAnimation.java:79-81 | Returns the stop flag. |
| Menus.MenuAnimation.AddSelection | src/animations/MenuAnimation.java:84-86 | A selection returning the value is appended. |
| Menus.MenuAnimation.AddSubMenu | src/animations/MenuAnimation.java:89-92 | The sub-menu is recorded under its key and a selection returning it is appended. |
| Menus.Reported | src/animations/MenuAnimation.java:97-101 | A stored registered sub-menu is reported as null; anything else is reported as stored. |
| Menus.MenuAnimation.GetStatus | src/animations/MenuAnimation.java:95-102 | The debounce is set again and the result is `Reported`. |
| Menus.MenuAnimation.ResetStop | src/animations/MenuAnimation.java:105-107 | Stop becomes false and nothing else changes. |
| Menus.ReRegisteredKeyShowsOldSubMenu | src/animations/MenuAnimation.java:89-101 | A sub-menu whose key was registered again for another menu is reported as a value, not as null. |
| Fills.ShortImageIsPrefix | src/animations/Fill.java:42 | An image entry no longer than "image(" is exactly "image(", where the path cannot be cut out. |
| Fills.ImagePath | src/animations/Fill.java:42 | The entry is "image(", then the path, then one final character. |
| Fills.TablesPartition | src/animations/Fill.java:38-53 | Every index from 1 up lands in exactly one table, images for "image(" entries and colours otherwise; index 0 lands in neither. |
| Fills.TablesStep | src/animations/Fill.java:38-53 | Adding entry i adds it to exactly one table. |
| Fills.Fill.constructor | src/animations/Fill.java:27-31 | The tables are exactly the image table and the colour table of the array. |
| Fills.Fill.BuildsMap | src/animations/Fill.java:37-54 | The loop adds the array's image table and colour table to the tables. |
| Fills.DrawIndex | src/animations/Fill.java:66-69 | The index is the hit-point count when positive and 1 otherwise. |
| Fills.Fill.Paint | src/animations/Fill.java:65-76 | An image is drawn when the index is in the image table. Otherwise the colour at the index is used, or null when it has none. Neither table changes. |
| Fills.PaintShowsSlot | src/animations/Fill.java:65-76 | A fill built from an array paints the array's entry at `DrawIndex`, as an image or a colour by its prefix. |
| BlockFactories.BlockFactory.constructor | src/io/BlocksDefinitionReader.java:79 | Every field of a new factory has Java's default value, zero or null. |
| BlockFactories.BlockFactory.RectAt | src/io/BlockFactory.java:21-23 | The rectangle is at (x, y) with the factory's width and height. |
| BlockFactories.BlockFactory.Create | src/io/BlockFactory.java:21-23 | The new block has `RectAt`, the factory's fill, stroke and hit points, and no listeners. The factory is not modified. |
| BlockFactories.BlockFactory.SetHeight | src/io/BlockFactory.java:29-31 | Only the height changes. |
| BlockFactories.BlockFactory.SetWidth | src/io/BlockFactory.java:37-39 | Only the width changes. |
| BlockFactories.BlockFactory.SetStroke | src/io/BlockFactory.java:45-47 | Only the stroke changes. |
| BlockFactories.BlockFactory.SetFill | src/io/BlockFactory.java:53-55 | Only the fill changes. |
| BlockFactories.BlockFactory.SetHitPoints | src/io/BlockFactory.java:61-63 | Only the hit points change. |
| SymbolsFactories.BlocksFromSymbolsFactory.constructor | src/io/BlocksFromSymbolsFactory.java:20-24 | Both maps are stored as given. |
| SymbolsFactories.BlocksFromSymbolsFactory.IsSpaceSymbol | src/io/BlocksFromSymbolsFactory.java:31-33 | True exactly when the width table pairs the symbol with a width. After reading, these are the symbols of the sdef lines (`FromReader`). |
| SymbolsFactories.BlocksFromSymbolsFactory.IsBlockSymbol | src/io/BlocksFromSymbolsFactory.java:40-42 | True exactly when the factory table pairs the symbol with a factory. After reading, these are the symbols of the bdef lines that built a block (`FromReader`). |
| SymbolsFactories.BlocksFromSymbolsFactory.GetSpaceWidth | src/io/BlocksFromSymbolsFactory.java:60-62 | Returns the width stored for the spacer symbol. |
| SymbolsFactories.SpaceWidthUnique | src/io/BlocksFromSymbolsFactory.java:60-62 | A stored (symbol, width) pair is what `GetSpaceWidth` returns. |
| SymbolsFactories.BlocksFromSymbolsFactory.GetBlock | src/io/BlocksFromSymbolsFactory.java:51-53 | A new block, the one the symbol's factory stamps at (x, y). |
| JavaText.Pieces | src/io/BlocksDefinitionReader.java:38 | The pieces between separators; none holds the separator. |
| JavaText.DropTrailingEmpty | src/io/BlocksDefinitionReader.java:38 | `split` drops exactly the trailing empty strings. |
| JavaText.JoinPieces | src/io/BlocksDefinitionReader.java:38 | Joining the pieces again gives back the text. |
| JavaText.SplitJoin | src/io/BlocksDefinitionReader.java:38-40 | `split` undoes a join of two or more separator-free parts whose last part is not empty. |
| JavaText.Split | src/io/BlocksDefinitionReader.java:38 | No part holds the separator. Text without the separator is its own single part. When the separator occurs, the last part is not empty. |
| JavaText.ParseInt | src/io/BlocksDefinitionReader.java:60 | A parsed value is a 32-bit int. The text starts with a sign or a digit. A leading "-" gives a value <= 0, and anything else a value >= 0. |
| JavaText.NatToString | src/io/BlocksDefinitionReader.java:220 | `String.valueOf` of a natural number is its decimal digits, with no leading zero. |
| JavaText.ParseValueOf | src/io/BlocksDefinitionReader.java:60 | `parseInt(valueOf(n)) == n` for every int n >= 0. |
| JavaText.ParseNegated | src/io/BlocksDefinitionReader.java:86-87 | `parseInt("-" + valueOf(n)) == -n` down to the smallest int. |
| JavaText.ValueOfInjective | src/io/BlocksDefinitionReader.java:220-223 | Distinct numbers give distinct "fill-i" suffixes. |
| FillDefinitions.FillKey | src/io/BlocksDefinitionReader.java:163 | The key starts with "fill-". |
| FillDefinitions.FillKeyInjective | src/io/BlocksDefinitionReader.java:163 | Distinct counts give distinct keys. |
| FillDefinitions.FillKeyIsNotFill | src/io/BlocksDefinitionReader.java:154-163 | No "fill-i" key is the "fill" key. |
| FillDefinitions.DefaultFillIsColor | src/io/BlocksDefinitionReader.java:153 | The default slot text is a colour, not an image. |
| FillDefinitions.ChecksValidFill | src/io/BlocksDefinitionReader.java:183-204 | A bare "image(" throws, because the substring is out of range. Any other text gets the check's answer. A text that does not throw can be painted. |
| FillDefinitions.BaseFill | src/io/BlocksDefinitionReader.java:153-161 | The base text is "fill" when present and accepted, and the default colour otherwise; it can be painted. |
| FillDefinitions.SlotsFromHead | src/io/BlocksDefinitionReader.java:162-173 | The slots from i on are slot i's text followed by the slots from i + 1 on. |
| FillDefinitions.SlotsFrom | src/io/BlocksDefinitionReader.java:162-173 | A completed loop from slot i fills exactly hitPoints - i + 1 slots (none when i > hitPoints). |
| FillDefinitions.SlotsFromShape | src/io/BlocksDefinitionReader.java:162-173 | Slot j holds its own "fill-j" when present and the base text otherwise; there are hitPoints - i + 1 of them. |
| FillDefinitions.SlotsFromAccepted | src/io/BlocksDefinitionReader.java:163-169 | Slots come back only when every present "fill-j" is accepted. |
| FillDefinitions.SlotsFromRejected | src/io/BlocksDefinitionReader.java:163-169 | Without an exception, the result is null exactly when some present "fill-j" is rejected. |
| FillDefinitions.FillSlots | src/io/BlocksDefinitionReader.java:151-176 | A count below -1 throws (negative array size). A count of -1 with an accepted "fill" throws (slot 0 of an empty array). |
| FillDefinitions.FillSlotsMeaning | src/io/BlocksDefinitionReader.java:151-176 | On success: hitPoints + 1 slots; slot 0 empty; slot i is the block's "fill-i" if present, else the base text; every slot can be painted. Without an exception, the result is null exactly when a present "fill-i" is rejected. |
| FillDefinitions.FillFrom | src/io/BlocksDefinitionReader.java:162-173 | The array loop agrees with `SlotsFrom`: it throws, rejects or completes exactly as the specification does. On completion the array holds the specified slots and can be painted. |
| FillDefinitions.CreateFill | src/io/BlocksDefinitionReader.java:151-176 | Throws and null exactly as `FillSlots`. Otherwise the result is a new `Fill` whose tables are those of the specified slots. |
| FillDefinitions.UnionBound | src/io/BlocksDefinitionReader.java:214 | The round count is at least one and exceeds both map sizes. |
| FillDefinitions.UnionUpTo | src/io/BlocksDefinitionReader.java:213-224 | After any number of rounds, every key of the union comes from one of the two maps. |
| FillDefinitions.UnionMaps | src/io/BlocksDefinitionReader.java:212-227 | The loop computes the rounds 1 to max(sizes) + 1 of `UnionUpTo`. |
| FillDefinitions.UnionNoNewKeys | src/io/BlocksDefinitionReader.java:212-227 | Every entry of the union is the block's, or the default's when the block has none; no key is invented. |
| FillDefinitions.UnionKeeps | src/io/BlocksDefinitionReader.java:214-224 | "fill", and every "fill-i" up to the round count present in either map, is kept. |
| FillDefinitions.UnionDrops | src/io/BlocksDefinitionReader.java:214 | No "fill-j" beyond the round count survives. |
| FillDefinitions.MergeFills | src/io/BlocksDefinitionReader.java:212-227 | The intended union: every key of either map, the block's value winning. |
| FillDefinitions.UnionMapsDropsSparseKey | src/io/BlocksDefinitionReader.java:214 | With no default fills and only "fill-3" in the block, the loop as written drops "fill-3", which the intended union keeps. |
| FillDefinitions.SlotsFromAgree | src/io/BlocksDefinitionReader.java:162-173 | Maps that agree on "fill-i" for i to hitPoints give the same slots. |
| FillDefinitions.FillSlotsAgree | src/io/BlocksDefinitionReader.java:151-176 | Maps that agree on "fill" and on "fill-1" to "fill-hitPoints" give the same fill. |
| FillDefinitions.UnionAgreesWithinBound | src/io/BlocksDefinitionReader.java:131-132 | While the hit points stay within the round count, the union as written and the intended union give the same fill. |
| DefinitionsReader.Rest | src/io/BlocksDefinitionReader.java:83 | The words from index n on, in order. |
| DefinitionsReader.ScanThrowsOn | src/io/BlocksDefinitionReader.java:83-111 | A token that throws makes the whole token loop throw. |
| DefinitionsReader.ScanToken | src/io/BlocksDefinitionReader.java:84-110 | A "hit_points", "height" or "width" token without an int value throws. The block's fills only gain keys that start with "fill". A changed hit-point count is a 32-bit int. |
| DefinitionsReader.ScanOne | src/io/BlocksDefinitionReader.java:84-110 | One round of the loop: `ScanToken`, with the factory holding every value the tokens set. |
| DefinitionsReader.ScanInto | src/io/BlocksDefinitionReader.java:83-111 | The loop computes `ScanTokens`, and the factory holds the explicit values. |
| DefinitionsReader.NumberTokenSets | src/io/BlocksDefinitionReader.java:85-99 | A token "hit_points:n", "height:n" or "width:n" sets that field to n. |
| DefinitionsReader.ExplicitMinusOneIsNoCount | src/io/BlocksDefinitionReader.java:85-118 | An explicit "hit_points:-1" leaves the scan as if the token were absent, so the default count is used. |
| DefinitionsReader.ApplyDefaults | src/io/BlocksDefinitionReader.java:115-127 | Succeeds exactly when `ResolveFields` does, and the factory then holds its fields. |
| DefinitionsReader.ResolveFields | src/io/BlocksDefinitionReader.java:114-127 | Gives null exactly when hit points, height or width is neither on the line nor a well-formed default. Otherwise the line's own hit points, height, width and stroke are kept. A line without a stroke takes the colour parsed from the "stroke" default, or none. |
| DefinitionsReader.FillMap | src/io/BlocksDefinitionReader.java:128-133 | The default fills when the block has none. Otherwise `unionMaps` as written: its keys come from the two maps, and no "fill-j" beyond the round count survives. |
| DefinitionsReader.ResolveBlock | src/io/BlocksDefinitionReader.java:112-141 | Null whenever `ResolveFields` is null. A template has `ResolveFields`' fields and hitPoints + 1 paintable slots. |
| DefinitionsReader.ResolveBlockFields | src/io/BlocksDefinitionReader.java:112-141 | Explicit hit points, height, width and stroke win over the defaults. The defaults fill the rest, including the stroke from the "stroke" default when the line has none. A missing or malformed default gives null. With the fields resolved, a template comes back exactly when the fill slots are built without an exception or a rejection. |
| DefinitionsReader.BlockFillsWin | src/io/BlocksDefinitionReader.java:128-132 | Slot i holds the block's "fill-i", else the default "fill-i", else the base text, as long as the block has no fills or i is within `unionMaps`' round count. Past that count, a block with fills of its own gets the base text in slot i. |
| DefinitionsReader.IntendedFillMap | src/io/BlocksDefinitionReader.java:128-133 | The corrected fill map holds every key of either map, the block's entry winning. |
| DefinitionsReader.IntendedFillsWin | src/io/BlocksDefinitionReader.java:128-133 | With the corrected map every slot i holds the block's "fill-i", else the default "fill-i", else the base text. Within the round count it builds the same slots as the map as written. |
| DefinitionsReader.ReaderDropsSparseFill | src/io/BlocksDefinitionReader.java:128-133 | The reader as written: with no default fills and only "fill-3" on a block of 3 hit points, slot 3 is the default colour. The corrected map keeps "color(red)". |
| DefinitionsReader.ResolveInto | src/io/BlocksDefinitionReader.java:112-142 | Calls `UnionMaps` as buildsBlock does. Succeeds exactly when `ResolveBlock` does, and the factory then holds the template and its fill. |
| DefinitionsReader.BuildsBlock | src/io/BlocksDefinitionReader.java:77-143 | Throws and null exactly as `BlockSpec`. Otherwise the result is a new factory that holds the specified template. |
| DefinitionsReader.DefaultsThrowOn | src/io/BlocksDefinitionReader.java:39-46 | A token that throws makes the whole default line throw. |
| DefinitionsReader.DefaultLine | src/io/BlocksDefinitionReader.java:37-47 | A default line changes neither the templates nor the spacer widths. |
| DefinitionsReader.BlockLine | src/io/BlocksDefinitionReader.java:48-56 | A bdef line's words change neither the defaults nor the spacers. They change the templates only by storing the one the tokens build under the symbol of a "symbol:" word. |
| DefinitionsReader.SpacerLine | src/io/BlocksDefinitionReader.java:57-62 | An sdef line's words change only the spacer widths. They set the symbol after the second word's colon to the parsed int after the third word's colon, and keep every other width. |
| DefinitionsReader.ReadLine | src/io/BlocksDefinitionReader.java:33-62 | A comment or empty line changes nothing. Only "default" lines change the defaults, only "bdef" lines the templates and only "sdef" lines the spacer widths. |
| DefinitionsReader.PutDefaults | src/io/BlocksDefinitionReader.java:38-46 | The token loop of a default line computes `DefaultTokens`. |
| DefinitionsReader.DefaultLineSets | src/io/BlocksDefinitionReader.java:37-47 | "default key:value" puts the value under key, among the fill defaults when key starts with "fill" and the plain defaults otherwise, overwriting an earlier value. |
| DefinitionsReader.BdefLineRegisters | src/io/BlocksDefinitionReader.java:48-56 | A bdef line leaves defaults and spacers alone. It changes the templates only by storing the one its tokens build under the symbol of a "symbol:" word. |
| DefinitionsReader.SpacerWordsSet | src/io/BlocksDefinitionReader.java:57-62 | The words "sdef symbol:s width:n" set s's width to n. |
| DefinitionsReader.SpacerLineSets | src/io/BlocksDefinitionReader.java:57-62 | The line "sdef symbol:s width:n" sets s's width to n, overwriting an earlier one. |
| DefinitionsReader.ReadThrowsOn | src/io/BlocksDefinitionReader.java:32-66 | A line that throws makes the whole reading throw. |
| DefinitionsReader.ReadFromAppend | src/io/BlocksDefinitionReader.java:33-63 | Reading a + b is reading b from the tables of a. |
| DefinitionsReader.SkippedLineAnywhere | src/io/BlocksDefinitionReader.java:34-36 | A comment or empty line can be inserted anywhere without changing the result. |
| DefinitionsReader.OnlyBdefLinesTouchBlocks | src/io/BlocksDefinitionReader.java:48-56 | Lines other than bdef lines, later default lines included, leave the templates as they are: a template uses only the defaults read before it. |
| DefinitionsReader.FromReader | src/io/BlocksDefinitionReader.java:24-68 | Throws exactly when `ReadFrom` does. Otherwise the new factory's maps hold the spacer widths, and for each block symbol a factory realising its template. Its space symbols are those of the sdef lines, and its block symbols those of the templates read. |

## Left out

- Drawing is not modelled: every `DrawSurface` call, the menu's text, the frame colour's rectangle, the background and the indicator sprites. `Block.DrawOn` keeps only the hit-point reset and what the fill paints.
- Image loading and colour parsing are not modelled, because their code is not part of this model:
  - `ImageIO`, `ClassLoader` and `ColorsParser` are outside it;
  - `checksValidFill`'s answer for a text that is not a bare "image(" is the parameter `check`, which may also throw;
  - a colour read from text is `Color.FromSpec(text)`;
  - an image entry is represented by its path.
- DefinitionsReader.ResolveFields: a missing "stroke" default gives a null stroke. This assumes the colour parser returns null for a null text rather than throwing.
- `Velocity.fromAngleAndSpeed` and `getSpeed` are not modelled; a paddle response `Angled(a, v)` stands for "angle a at the speed of v".
- `isPointOnLine`, `distance` and the rectangle edges are not modelled. A contact is four booleans and the paddle offset is a real number.
- `(int)(speedPaddle * dt)` is not modelled: the step is a parameter.
- Paddles.Zone: the fifth boundaries `length * (k / 5.0)` are exact reals. Java computes them in double, so an offset within rounding error of a boundary may fall in the neighbouring zone.
- Paddles.MovedRight: the rectangle's x, the step and the wall at 775 are exact reals. Java adds and compares doubles, so the clamp may decide differently within rounding error of the wall.
- Paddles.MovedLeft: the same holds at the wall at 25, where Java subtracts and compares doubles.
- GameLevels.StartPaddle: the corner is exact real `400 - width / 2`. Java computes it in int and then widens it to a double, which is exact for every int width, so this line only records the representation.
- BlockFactories.BlockFactory.RectAt: the position and size are exact reals. Java widens ints to doubles, which is exact for every int, so this line only records the representation.
- The pause and countdown screens run by the nested `AnimationRunner.run` are not modelled. `GameLevel.DoOneFrame` only reports whether the pause key was held.
- `playOneTurn` and `removePaddle` are not modelled (they run the animation). Neither are `notifyAllTimePassed` over the sprites, `addToGame` of the ball and the paddle, or the ball's game environment.
- Ball, GameEnvironment, Counter.java, LevelInformation and the listener classes (BallRemover, BlockRemover, ScoreTrackingListener) are not part of this model:
  - a listener is a tag;
  - what a listener's `hitEvent` does to the block's list is the parameter `react`;
  - a counter is a small class with `Increase` and `Decrease`.
- The reader's `java.io.Reader` is the sequence of its lines, so the `IOException` path (which returns null) is not modelled.
- Blocks.Block.Hit: the 32-bit wrap-around of `hitPoints--` at the smallest int is not modelled.
- FillDefinitions.FillSlots: the 32-bit overflow of `hitPoints + 1` for a count of 2147483647 is not modelled. Java's array allocation fails there, and the model does not.
- FillDefinitions.CreateFill: slot 0 is always "" in the model. Java leaves it null unless "fill" is accepted. Slot 0 is never read.
- Fills.Fill.constructor: requires that no entry from index 1 on is a bare "image(". There Java's substring throws an exception the constructor does not catch. `createFill` never hands such an entry over.
- Blocks.Block.DrawOn: requires a fill. Without one, the Java code dereferences null.
- GameLevels.GameLevel.BuildsBallsAndPuddle: requires at least `numberOfBalls` velocities. The Java code would throw an IndexOutOfBoundsException otherwise.
- SymbolsFactories.BlocksFromSymbolsFactory.GetSpaceWidth: requires a spacer symbol. The Java code unboxes null and throws otherwise.
- SymbolsFactories.BlocksFromSymbolsFactory.GetBlock: requires a block symbol. The Java code calls a method on null otherwise.
- GameLevels.GameLevel.DoOneFrame: requires the level's own two counters to be distinct from each other and from the score and lives. The constructor creates them fresh, so this always holds.
- The token loop and the try block of `buildsBlock` are split across `ScanOne`, `ScanInto`, `ApplyDefaults` and `ResolveInto`, and `createFill`'s loop is `FillFrom`. They run in the same order as the single Java method.
- `Integer.parseInt` accepts ASCII digits only. Java also accepts other Unicode decimal digits.
- EndScreen, Ass6Game and the BlockCreator interface are outside the modelled core. `BlockFactory.Create` stands for `BlockCreator.create`.

## Findings

| source | as written | input that shows it | evidently intended | confidence | as-written member | corrected member |
|---|---|---|---|---|---|---|
| src/io/BlocksDefinitionReader.java:214 | `unionMaps` copies "fill-i" only for i from 1 to max(size of the default fills, size of the block's fills) + 1 | no "fill" defaults and a bdef line whose only fill token is "fill-3": the maps have sizes 0 and 1, so only "fill-1" and "fill-2" are copied and the block's "fill-3" is lost (its slot 3 gets the base colour) | the union holds every key of both maps, the block's value winning | not executed | DefinitionsReader.ReaderDropsSparseFill | DefinitionsReader.IntendedFillMap |

The reader model follows the code as written. `DefinitionsReader.FillMap`
is `unionMaps` with its loop bound, and `ResolveInto` calls
`FillDefinitions.UnionMaps`, so `ResolveBlock`, `BuildsBlock` and
`FromReader` lose a sparse "fill-i" just as the Java reader does.
`FillDefinitions.UnionMapsDropsSparseKey` shows the drop on the maps alone.
`DefinitionsReader.ReaderDropsSparseFill` shows it on a resolved template.
The corrected map is `DefinitionsReader.IntendedFillMap`, built on
`FillDefinitions.MergeFills`. `DefinitionsReader.IntendedFillsWin` proves
the intended slot contents for it. It also proves, through
`FillDefinitions.UnionAgreesWithinBound`, that the corrected and as-written
maps build the same slots while the hit-point count stays within the
loop's round count.

# The untitled game's netcode, simulation and glyph pipeline, in Dafny

This project models the parts of the game whose correctness is hardest to see and
proves what they are for. `dafny verify dfyconfig.toml` checks all of it (Dafny 4.11).

* **Prediction and acknowledgement.** `character.dfy` is the movement rule both ends
  share, `terrain.dfy` the ground under it and `slopes.dfy` how steep that is,
  `simulation.dfy` and `world_clock.dfy` the server's world, `prediction.dfy` the
  client's predictor. `link.dfy` has the two ends of the UDP link and `protocol.dfy`
  puts them on a network that loses, duplicates and reorders; `prediction_theorems.dfy`
  says what prediction and rollback promise, `ground_flag.dfy` what the ground flag,
  which is not sent, costs, `walking.dfy` that a walk does not feel it, and `logins.dfy`
  what one login leaves to the next.
* **Bytes, messages, calls, players.** `byte_stream.dfy` and `snapshot.dfy` are the wire
  encoding, `framing.dfy` messages over TCP, `rpc.dfy` the database client's request and
  reply matching with callbacks that issue calls, `player_tables.dfy` the world server's
  connections, player tables and bodies.
* **Glyphs.** `glyph_outline.dfy` is the TrueType decoder that reads and writes one array,
  `charstring.dfy` the Type 2 charstring interpreter, `cmap_search.dfy` the two character
  map searches, `edge_sort.dfy` the rasteriser's sort, `atlas.dfy` the shelf-packed atlas.
  What the bytes mean is said from the other side, by a maker of fonts: `glyph_encoding.dfy`
  writes points down and gets them back, and `glyph_path.dfy` follows the outline drawn
  through them; `charstring_path.dfy` writes contours as charstrings and gets them back,
  `charstring_operators.dfy` says what each operator stands for, and `cff_index.dfy` and
  `cmap_tables.dfy` lay out the tables they are looked up in.

Code that changes things step by step is a class or a method that changes an array, and
is proved against a function or predicate on values; the theorems are about those.
Protocols and tables are state machines whose steps are the same functions, and their
main results hold on every run.

What is taken for granted:

* Floats are reals, except on the wire, where they are their 32 bits. A tick lasts 1/60 s.
  Tuning constants are written out where they are multiplied.
* Sine, cosine, square root, the length of a vector and the ground are the parameter
  `World`. A `Lawful` one has the laws of the square root and of the length, and a ground
  that is tame: bounded by 55 m and nowhere steeper than 1.6132. `Terrain.TerrainTame`
  proves that the game's terrain is. Of sine and cosine only the lemmas about lengths
  and directions ask anything, that their squares add up to 1.
* Sockets, clocks and the delivery of datagrams are parameters or events, in any order.
  Numbers of packets, inputs, requests and players do not wrap round.
* The assertions of the vendored library are off, as in a release build.

Where the code and what is said about it differ, the code is followed:

* `Simulation::init` says how fast the clock is to run, but resetting the clock right after
  sets real speed (`Simulation.Simulation.constructor`).
* Changing the clock's speed does not make the shown time jump, but it drops what has
  passed since that time was brought up to date (`WorldClock.ClockLags` says how much).
* `reconcile` is said to restore the whole state; it leaves the ground flag
  (`GroundFlag` says when that matters, and that it undoes right jumps; `Walking` that it
  does not in a walk, once both ends stand).
* Inputs sent before the prediction starts use numbers that it gives out again, and after
  an earlier login they begin where that one stopped. `Logins.EarlyInputsDecide` says when
  acknowledgements stay right, `IgnoredUntilCaughtUp` what else such inputs do: the server
  drops the new ones. `Protocol.PredictionMeetsServer` and `SnapshotComesTrue` are about
  runs without them, `EveryRunSafe` about all runs.
* The count of the snapshot last reconciled with is never reset, so a later login can miss
  one (`Logins.NeverMissesIff`).
* Joins in flight: `PlayerTables.SecondJoinLeaks` and `OrphanMade`.
* Format 4 of the character map never adds a segment's delta to a listed glyph
  (`CmapSearch.AgreesWithOpenType`).
* The atlas does not check the width of a glyph (`Atlas.InsideIfNarrow`).

## Model

| member | source | states |
|---|---|---|
| `GlyphOutline.GlyphShape` | client/deps/stb/stb_truetype.h:1634-1771 | for a well-formed simple glyph the vertices are the outline with every implied midpoint made explicit and every contour closed, in at most n + contours slots of the n + 2 * contours allocated |
| `GlyphOutline.Convert` | client/deps/stb/stb_truetype.h:1718-1771 | the conversion in the one array: writing at the front never reaches a raw point still to be read, and the front ends up as the whole outline |
| `GlyphOutline.LoadFlags` | client/deps/stb/stb_truetype.h:1674-1684 | the flag bytes with their repeat counts go, expanded, to the last n slots |
| `GlyphOutline.StoreFlags` | client/deps/stb/stb_truetype.h:1676-1684 | the flag loop stores exactly the flags due and stops where they end |
| `GlyphOutline.NextFlags` | client/deps/stb/stb_truetype.h:1677-1682 | one turn of the flag loop: the next flag due, from the count or from the data |
| `GlyphOutline.LoadCoordinates` | client/deps/stb/stb_truetype.h:1686-1716 | slot i gets the 16-bit sum of the first i deltas along an axis |
| `GlyphOutline.StoreCoordinates` | client/deps/stb/stb_truetype.h:1687-1700 | a coordinate loop adds up exactly the deltas of its points and stops where they end |
| `GlyphOutline.CoordinatesFit` | client/deps/stb/stb_truetype.h:1687-1715 | the running coordinates never leave their 32 bits |
| `GlyphOutline.NextDelta` | client/deps/stb/stb_truetype.h:1689-1698 | the short, signed short, repeated and long forms of a delta, and how much data each takes |
| `GlyphOutline.CloseShape` | client/deps/stb/stb_truetype.h:1618-1632 | writes what is left to close the contour: one or two segments |
| `GlyphOutline.ReadStart` | client/deps/stb/stb_truetype.h:1730-1750 | where a contour starts: its first point, its second, or their midpoint |
| `GlyphOutline.StartContour` | client/deps/stb/stb_truetype.h:1726-1754 | entering a contour writes its move and keeps the raw points ahead intact |
| `GlyphOutline.WritePoint` | client/deps/stb/stb_truetype.h:1756-1768 | passing a point writes no segment, a line or a curve, as the two points demand |
| `GlyphOutline.NextPoint` | client/deps/stb/stb_truetype.h:1755-1769 | one turn of the conversion loop keeps what is written and what is to come together equal to the outline |
| `GlyphOutline.Finish` | client/deps/stb/stb_truetype.h:1727-1728 | closing a contour keeps the same |
| `GlyphOutline.RestKept` | client/deps/stb/stb_truetype.h:1668-1672 | writing at the front leaves the raw points from i on as they are, as long as it stays before them |
| `GlyphOutline.TailIsDraw` | client/deps/stb/stb_truetype.h:1721-1771 | the segments a pass writes from any point on are those of the path with the midpoints put in |
| `GlyphOutline.PassIsContourPath` | client/deps/stb/stb_truetype.h:1718-1771 | a whole pass over a contour draws the closed path through its points and implied midpoints |
| `GlyphEncoding.FlagsReadBack` | client/deps/stb/stb_truetype.h:1674-1684 | flags written with the bits of the OpenType table, repeated or not as the maker likes, are read back as they were meant, and take just their bytes |
| `GlyphEncoding.DeltasReadBack` | client/deps/stb/stb_truetype.h:1686-1716 | so are the changes along one axis, in whichever of the allowed forms, x by the bits 2 and 16 and y by 4 and 32 |
| `GlyphEncoding.PointsReadBack` | client/deps/stb/stb_truetype.h:1674-1716 | any points, in any encoding the table allows, come back: on or off the curve, x and y |
| `GlyphEncoding.GlyphReadsBack` | client/deps/stb/stb_truetype.h:1634-1771 | a whole glyph made of any points and contours, in any allowed encoding, is well formed, and its outline is that of those points |
| `GlyphPath.DrawVisits` | client/deps/stb/stb_truetype.h:1755-1769 | the segments drawn along a path visit its points, each curve its control point and its end |
| `GlyphPath.ExplicitPlaces` | client/deps/stb/stb_truetype.h:1756-1768 | the path made explicit has the points of the contour in their order, and halfway between two controls one on the curve |
| `GlyphPath.ContourVisits` | client/deps/stb/stb_truetype.h:1721-1771 | the segments of a contour, read by their kinds, go once round it: through every point on the curve and halfway between controls that are next to each other, bent towards every control |
| `GlyphPath.OutlineVisits` | client/deps/stb/stb_truetype.h:1718-1771 | so does every contour of the outline in its turn |
| `Charstring.GlyphShapeT2` | client/deps/stb/stb_truetype.h:2232-2247 | the count pass and the fill pass agree: the array is exactly full, and it holds what the charstring draws; no vertices just when the charstring does not end well |
| `Charstring.RunCharstring` | client/deps/stb/stb_truetype.h:1973-2230 | on every byte string the interpreter ends, stays in its 48 operands and 10 returns, and draws what the machine draws |
| `Charstring.NextDecreases` | client/deps/stb/stb_truetype.h:1985-2227 | every operator uses up bytes of the innermost call without giving any back to the outer ones: the measure of termination |
| `Charstring.Next` | client/deps/stb/stb_truetype.h:1985-2226 | one operator or operand keeps the machine within its stacks and only adds to the outline |
| `Charstring.Run` | client/deps/stb/stb_truetype.h:1973-2230 | the interpretation is defined, that is ends, for every charstring |
| `Charstring.IntegerReadsBack` | client/deps/stb/stb_truetype.h:1182-1192 | every whole operand from -32768 to 32767 reads back from its Type 2 encoding as its value, and takes exactly its bytes |
| `Charstring.FixedReadsBack` | client/deps/stb/stb_truetype.h:2213-2219 | so does every 16.16 fraction |
| `Charstring.Operator` | client/deps/stb/stb_truetype.h:2006-2097 | each drawing operator, with its operand count check, performs its commands |
| `Charstring.FlexOperator` | client/deps/stb/stb_truetype.h:2127-2207 | the four flex operators |
| `Charstring.LineLoop` | client/deps/stb/stb_truetype.h:2022-2026 | rlineto |
| `Charstring.CurveLoop` | client/deps/stb/stb_truetype.h:2063-2067 | rrcurveto |
| `Charstring.CurveLineLoop` | client/deps/stb/stb_truetype.h:2069-2075 | rcurveline |
| `Charstring.LineCurveLoop` | client/deps/stb/stb_truetype.h:2077-2083 | rlinecurve |
| `Charstring.AlternatingLineLoop` | client/deps/stb/stb_truetype.h:2031-2045 | hlineto and vlineto, the latter entering the loop in its middle |
| `Charstring.AlternatingCurveLoop` | client/deps/stb/stb_truetype.h:2047-2061 | hvcurveto and vhcurveto, likewise, with a last operand that bends the last curve |
| `Charstring.ParallelCurveLoop` | client/deps/stb/stb_truetype.h:2085-2097 | vvcurveto and hhcurveto, with a first operand that bends the first curve |
| `Charstring.Control` | client/deps/stb/stb_truetype.h:1990-2004 | hints, calls, returns and operands |
| `Charstring.CallSubr` | client/deps/stb/stb_truetype.h:2099-2115 | a call takes its number off the stack and keeps the caller to return to, unless the stack is empty, the calls too deep or the subroutine missing |
| `Charstring.PushNumber` | client/deps/stb/stb_truetype.h:2213-2223 | an operand is pushed unless 48 are |
| `Charstring.DrawStep` | client/deps/stb/stb_truetype.h:2006-2097 | a drawing operator takes the interpreter to the machine after it |
| `Charstring.EndStep` | client/deps/stb/stb_truetype.h:2123-2125 | endchar closes the contour and ends with the machine's outline |
| `Charstring.Context.V` | client/deps/stb/stb_truetype.h:1883-1897 | a vertex is counted and measured, or stored in 16 bits |
| `Charstring.Context.TrackVertex` | client/deps/stb/stb_truetype.h:1874-1881 | the box stays the least one that holds every point tracked |
| `Charstring.LeastBoxWidened` | client/deps/stb/stb_truetype.h:1876-1879 | widening the least box by a point gives the least box of them all |
| `Charstring.Context.CloseShape` | client/deps/stb/stb_truetype.h:1899-1903 | a line back to the start, unless there already |
| `Charstring.Context.RMoveTo` | client/deps/stb/stb_truetype.h:1905-1911 | closes the contour and starts one |
| `Charstring.Context.RLineTo` | client/deps/stb/stb_truetype.h:1913-1918 | a line, relative |
| `Charstring.Context.RCurveTo` | client/deps/stb/stb_truetype.h:1920-1929 | a curve, each point relative to the one before |
| `CffIndex.EntryReadsBack` | client/deps/stb/stb_truetype.h:1238-1250 | every entry of an index is found as its maker wrote it, with offsets of any width |
| `CffIndex.SubrReadsBack` | client/deps/stb/stb_truetype.h:1946-1958 | a subroutine number finds the entry that the bias of 107, 1131 or 32768 puts there, and there are no others |
| `CharstringPath.NumbersArePushed` | client/deps/stb/stb_truetype.h:2213-2223 | operands in front of an operator are on the stack, in order, when it is read |
| `CharstringPath.PieceReadsBack` | client/deps/stb/stb_truetype.h:1913-1929 | a line or a curve, said as steps, is drawn in absolute places from wherever the pen is |
| `CharstringPath.ContourReadsBack` | client/deps/stb/stb_truetype.h:1905-1929 | a contour closes the one before it and is drawn as its maker meant it |
| `CharstringPath.PathReadsBack` | client/deps/stb/stb_truetype.h:1973-2247 | any glyph of lines and curves, written as a charstring, is drawn as just those contours, each closed |
| `CharstringOperators.Moves` | client/deps/stb/stb_truetype.h:2006-2020 | the moves take the operands on top of the stack |
| `CharstringOperators.LinesAndCurves` | client/deps/stb/stb_truetype.h:2022-2067 | rlineto and rrcurveto: every command by the places of its operands, and how many there are |
| `CharstringOperators.TurningLines` | client/deps/stb/stb_truetype.h:2031-2045 | hlineto begins along x and vlineto along y, and both turn at each operand |
| `CharstringOperators.MixedEnds` | client/deps/stb/stb_truetype.h:2069-2083 | rcurveline and rlinecurve end with the other kind |
| `CharstringOperators.TurningCurves` | client/deps/stb/stb_truetype.h:2047-2061 | hvcurveto and vhcurveto by the places of their operands, with a fifth at the end bending the last arrival |
| `CharstringOperators.ParallelStrokes` | client/deps/stb/stb_truetype.h:2085-2097 | hhcurveto and vvcurveto likewise, with an odd first operand bending the first departure |
| `CharstringOperators.Flexes` | client/deps/stb/stb_truetype.h:2127-2207 | each flex is two curves; hflex and hflex1 come back to their height, flex1 to the axis it strays from least |
| `CharstringOperators.EnoughOperands` | client/deps/stb/stb_truetype.h:2006-2211 | which operators draw, and with how few operands each is an error |
| `CharstringOperators.MaskIsSkipped` | client/deps/stb/stb_truetype.h:1990-1996 | a mask takes a bit for every stem, those in front of it included, in whole bytes, and is skipped |
| `CharstringOperators.StemsAreCounted` | client/deps/stb/stb_truetype.h:1998-2003 | stem hints count by pairs of operands |
| `CharstringOperators.CallEnters` | client/deps/stb/stb_truetype.h:2099-2115 | a call goes on with the subroutine that its number means, the caller kept |
| `CharstringOperators.ReturnResumes` | client/deps/stb/stb_truetype.h:2117-2121 | a return goes on where the latest call was left |
| `CharstringOperators.StacksAreFull` | client/deps/stb/stb_truetype.h:1973-2223 | the 49th operand, the eleventh call, and a return from no call are errors |
| `CharstringOperators.TruncDropsFraction` | client/deps/stb/stb_truetype.h:1905-1929 | a coordinate is cast to a whole number by dropping its fraction |
| `CharstringOperators.StoredAsItIs` | client/deps/stb/stb_truetype.h:1883-1897 | what fits in 16 bits is stored as it is |
| `EdgeSort.SortEdges` | client/deps/stb/stb_truetype.h:3310-3314 | the first n edges come out sorted, the same edges, and nothing behind them changes |
| `EdgeSort.QuickSort` | client/deps/stb/stb_truetype.h:3248-3308 | only shuffles its segment, and recurses at most log2 n deep |
| `EdgeSort.MedianToFront` | client/deps/stb/stb_truetype.h:3255-3275 | the pivot in front is a median of three, which is what stops the scans |
| `EdgeSort.ScanUp` | client/deps/stb/stb_truetype.h:3283-3285 | the upward scan, with no bound of its own, stops within the segment |
| `EdgeSort.ScanDown` | client/deps/stb/stb_truetype.h:3286-3288 | so does the downward scan |
| `EdgeSort.Partition` | client/deps/stb/stb_truetype.h:3277-3297 | both parts are shorter, nothing before i belongs after the pivot and nothing after j before it; index j may be in neither part |
| `EdgeSort.Insert` | client/deps/stb/stb_truetype.h:3234-3244 | one edge travels down to its place among sorted ones |
| `EdgeSort.InsertionSort` | client/deps/stb/stb_truetype.h:3230-3246 | sorts, by shuffling |
| `CmapSearch.FindSegment` | client/deps/stb/stb_truetype.h:1489-1508 | the biased power-of-two search stops at the segment a linear scan finds |
| `CmapSearch.Narrow` | client/deps/stb/stb_truetype.h:1496-1503 | each turn halves the bracket that holds the answer |
| `CmapSearch.BracketOfOne` | client/deps/stb/stb_truetype.h:1504-1508 | a bracket of one segment is the linear scan's answer |
| `CmapSearch.FindGlyph4` | client/deps/stb/stb_truetype.h:1476-1520 | format 4 lookup is what the table says about the code point by a linear scan |
| `CmapSearch.AgreesWithOpenType` | client/deps/stb/stb_truetype.h:1515-1519 | it agrees with the OpenType rule if and only if no listed glyph is found or its segment's delta is 0 |
| `CmapSearch.DeltaOfListedGlyphIgnored` | client/deps/stb/stb_truetype.h:1519 | a table on which it does not: a listed glyph does not get its delta |
| `CmapSearch.FindGlyph12` | client/deps/stb/stb_truetype.h:1521-1543 | the group search, formats 12 and 13, agrees with a linear scan over ordered groups, and finds a group that holds the code point or none on any others |
| `CmapSearch.ScanFinds` | client/deps/stb/stb_truetype.h:1526-1541 | with groups in order and apart the scan finds the one group that holds the code point |
| `CmapTables.ColumnsReadBack` | client/deps/stb/stb_truetype.h:1476-1520 | a format 4 table laid out word by word is read column by column as it was made |
| `CmapTables.MadeIsFormat4` | client/deps/stb/stb_truetype.h:1476-1520 | a table made as OpenType asks meets all that the search needs |
| `CmapTables.BeforeStart` | client/deps/stb/stb_truetype.h:1511-1513 | in such a table a code point before the start of its segment has no glyph |
| `CmapTables.ByDelta` | client/deps/stb/stb_truetype.h:1515-1517 | one of a segment without an offset has the code point plus the delta of that segment |
| `CmapTables.ByList` | client/deps/stb/stb_truetype.h:1519 | one of a segment with an offset has the glyph listed as far behind the offset as it says |
| `CmapTables.GroupsReadBack` | client/deps/stb/stb_truetype.h:1521-1541 | the groups of a format 12 or 13 table, and how many there are, read back |
| `CmapTables.GroupsMap` | client/deps/stb/stb_truetype.h:1521-1543 | in such a table the glyphs of a group go up with its code points, or in format 13 stay the same, and outside of all groups there is none |
| `Slopes.FadeSlope` | common/terrain/src/heightfield.cpp:39-41 | the fade never falls, and rises by at most 15/8 per unit |
| `Slopes.MeanSlopeBounds` | common/terrain/src/heightfield.cpp:39-41 | the slope of every chord of the fade lies in [0, 15/8] |
| `Slopes.FadeChord` | common/terrain/src/heightfield.cpp:39-41 | the nearer the ends of a chord of the fade are to 0 or 1, the flatter it is: squared, at most 225/16 u (1 - u) times its length squared, for u the mean of its ends |
| `Slopes.SpreadBound` | common/terrain/src/heightfield.cpp:53-60 | what four corners in [0, 1] can make of slopes along both axes at once: weighted by u (1 - u) and v (1 - v) their squares add up to at most 1/4 |
| `Slopes.CellStep` | common/terrain/src/heightfield.cpp:50-60 | so within a cell the noise changes by at most 15/8 of the distance, in any direction |
| `Slopes.FadeFlatAtEnds` | common/terrain/src/heightfield.cpp:39-41 | the fade is symmetric and stays under 10 t^3, so it is flat and uncurved at both ends, as no other polynomial of degree 5 is |
| `Terrain.Hash` | common/terrain/src/heightfield.cpp:23-33 | a lattice value lies in [0, 1) |
| `Terrain.MixedExamples` | common/terrain/src/heightfield.cpp:23-33 | the mixing worked out at two places |
| `Terrain.HashExample` | common/terrain/src/heightfield.cpp:23-33 | and the lattice value at one of them |
| `Terrain.NoiseAtLattice` | common/terrain/src/heightfield.cpp:44-61 | at a lattice point the noise is the lattice value |
| `Terrain.NoiseRange` | common/terrain/src/heightfield.cpp:44-61 | noise lies in [0, 1] |
| `Terrain.ClosedCell` | common/terrain/src/heightfield.cpp:44-61 | the formula of a cell holds on its far edges too: the noise has no seams |
| `Terrain.CellSlope` | common/terrain/src/heightfield.cpp:44-61 | between two places of a cell the noise changes by at most 15/8 of their distance |
| `Terrain.NoiseSlope` | common/terrain/src/heightfield.cpp:44-61 | and between any two places, across any lattice lines: the way is cut where it crosses them |
| `Terrain.NoiseTame` | common/terrain/src/heightfield.cpp:44-61 | noise lies in [0, 1] and changes by at most 15/8 per unit in any direction, everywhere |
| `Terrain.ComputeRawHeight` | common/terrain/src/heightfield.cpp:65-83 | the octave loop computes the sum of the five octaves, centred and scaled |
| `Terrain.RawHeightIsTheSum` | common/terrain/src/heightfield.cpp:73-82 | that sum, over the sum of the amplitudes, in closed form |
| `Terrain.OctaveAlone` | common/terrain/src/heightfield.cpp:65-83 | over a noise that is 1 just where one octave samples it, the height is that octave's share: 16, 8, 4, 2 or 1 of 31 parts of the range |
| `Terrain.RawFieldTame` | common/terrain/src/heightfield.cpp:65-83 | the raw height lies in [-55, 55] and changes by at most 1.6132 per metre in any direction |
| `Terrain.HeightAt` | common/terrain/src/heightfield.cpp:87-106 | the height is the kernel of five raw heights one metre apart |
| `Terrain.HeightIs` | common/terrain/src/heightfield.cpp:87-106 | the field the theorems are about has that height |
| `Terrain.KernelOnCurves` | common/terrain/src/heightfield.cpp:97-105 | of a field a + bx + cz + dx^2 + ez^2 the kernel adds (d + e) / 4 to the raw height, which fixes its weights and its radius |
| `Terrain.SmoothFieldTame` | common/terrain/src/heightfield.cpp:104-105 | the kernel keeps both bounds |
| `Terrain.TerrainTame` | common/terrain/src/heightfield.cpp:23-106 | the terrain lies in [-55, 55] and changes by at most 1.6132 per metre in any direction |
| `Character.StepCharacter` | common/gamesim/src/character.cpp:11-91 | one tick in place is the movement rule |
| `Character.TargetVelocity` | common/gamesim/src/character.cpp:12-29 | the velocity wished for, at most the speed in length |
| `Character.Accelerate` | common/gamesim/src/character.cpp:31-49 | air control, jump and gravity with terminal velocity |
| `Character.ResolveGround` | common/gamesim/src/character.cpp:70-90 | sit on the ground if through it or just above it and not rising |
| `Character.TurnedKeepsLength` | common/gamesim/src/character.cpp:15-18 | turning by the yaw keeps the length of the stick |
| `Character.StrafeIsAcross` | common/gamesim/src/character.cpp:15-18 | strafing is at right angles to walking forward |
| `Character.SpeedFollowsStick` | common/gamesim/src/character.cpp:12-29 | the target speed is that of the stick, up to 5 m/s or 9 in a sprint, exactly and whichever way the camera is turned |
| `Character.StrafeGoesAcross` | common/gamesim/src/character.cpp:12-29 | so strafing goes at right angles to walking forward, however far the stick is pushed |
| `Character.TargetFollowsCamera` | common/gamesim/src/character.cpp:12-29 | along the camera's forward axis the target speed is the stick's forward part times the speed, along its right axis the right part, for sticks up to 1, and of the same signs for longer ones |
| `Character.TurnsIfPushed` | common/gamesim/src/character.cpp:20-63 | a stick that is pushed at all turns the body to the input's yaw |
| `Character.StillKeepsFacing` | common/gamesim/src/character.cpp:20-63 | one that is not leaves the facing |
| `Character.AirControlCloses` | common/gamesim/src/character.cpp:34-38 | in the air each tick closes 0.35 of the way to the target velocity: after n ticks 0.65 to the n of it is left |
| `Character.RestsOnGround` | common/gamesim/src/character.cpp:70-90 | the centre of a capsule on the ground is 0.85 over it, and never lower |
| `Character.FlightIsParabola` | common/gamesim/src/character.cpp:44-49 | in the air, while it falls slower than terminal speed, a body is after n ticks where the fall of 20 m/s^2, a tick at a time, puts it |
| `Character.JumpIsParabola` | common/gamesim/src/character.cpp:41-49 | a jump is such a flight at 7.5 m/s |
| `Character.TargetSpeed` | common/gamesim/src/character.cpp:20-29 | no stick asks for more than 5 m/s, or 9 in a sprint, also on the diagonal |
| `Character.BlendedSpeed` | common/gamesim/src/character.cpp:34-38 | air control keeps the speed within the disc of 9 m/s |
| `Character.StepInvariant` | common/gamesim/src/character.cpp:11-91 | after any tick y is at least the rest height, grounded holds exactly when it is equal, vertical speed is in [-50, 7.5] and horizontal speed at most 9 |
| `Character.RunInvariant` | common/gamesim/src/character.cpp:11-91 | the same after every sequence of inputs |
| `Character.GameWorldLawful` | common/terrain/src/heightfield.cpp:23-106 | a world with the terrain of the game and a lawful root and length is lawful: what is proved of lawful worlds is true of the game |
| `Character.WalkIsGentle` | common/gamesim/src/character.cpp:20-33 | walking, in any direction, is slow enough for the snap distance on this terrain |
| `Character.StaysGroundedIff` | common/gamesim/src/character.cpp:31-90 | a grounded character is grounded after a tick if and only if where its target velocity takes it the ground is at most 0.15 lower, or in a jump at least 0.125 higher |
| `Character.GentleStepStaysGrounded` | common/gamesim/src/character.cpp:70-90 | a grounded character walking so is grounded after the tick |
| `Character.GentleRunStaysGrounded` | common/gamesim/src/character.cpp:82-87 | and after every tick of a walk |
| `Character.WalkStaysGrounded` | common/gamesim/src/character.cpp:82-87 | walking, however it turns, never leaves the ground |
| `Character.FlightHeight` | common/gamesim/src/character.cpp:40-49 | in one flight no tick is more than 529/360 m above the take-off |
| `Character.JumpHeight` | common/gamesim/src/character.cpp:41-43 | which holds from the tick of a jump on |
| `Character.FlightTickSpends` | common/gamesim/src/character.cpp:44-49 | every tick in the air uses up one of the ticks the bound allows |
| `Character.Lands` | common/gamesim/src/character.cpp:40-90 | every airborne character lands, within a number of ticks bounded by its height and vertical speed, whatever the inputs |
| `Prediction.Prediction.Init` | client/src/prediction.cpp:36-49 | starts from the spawn with nothing pending and numbering at 1 |
| `Prediction.Prediction.Step` | client/src/prediction.cpp:61-87 | numbers the input also when inactive; else steps and keeps the newest 256 inputs |
| `Prediction.Prediction.Reconcile` | client/src/prediction.cpp:89-141 | drops what is acknowledged, rewinds position and velocity but not the ground flag, replays, and keeps, smooths or snaps the picture |
| `Prediction.Prediction.UpdateSmoothing` | client/src/prediction.cpp:143-149 | the offset decays |
| `PredictionTheorems.UnacknowledgedAreLater` | client/src/prediction.cpp:96-99 | dropping up to the acknowledged number keeps exactly the later inputs |
| `PredictionTheorems.PendingAfter` | client/src/prediction.cpp:80-84 | the history is always a suffix of the inputs applied |
| `PredictionTheorems.ReplayKeepsFacing` | client/src/prediction.cpp:113-115 | replaying a suffix of what turned the body leaves it facing the same way |
| `PredictionTheorems.ReconcileKeepsFacing` | client/src/prediction.cpp:89-115 | so reconciling, with any authoritative state, never changes the facing |
| `PredictionTheorems.ReconcileConsistent` | client/src/prediction.cpp:89-141 | reconciling keeps the history consistent |
| `PredictionTheorems.PredictConsistent` | client/src/prediction.cpp:61-87 | so does a tick |
| `PredictionTheorems.PredictionComesTrue` | client/src/prediction.cpp:104-115 | with the ground flag right, reconciling with a state however late gives what the server reaches by the inputs since |
| `PredictionTheorems.RightPredictionStays` | client/src/prediction.cpp:117-123 | a prediction that was right is left alone: no error, no rollback |
| `PredictionTheorems.NothingPendingFlagDecides` | client/src/prediction.cpp:104-109 | with nothing to replay, the client matches the server if and only if the ground flag did |
| `PredictionTheorems.CorrectionIsTheMove` | client/src/prediction.cpp:117-125 | what is noted as the correction is how far reconciling moved the body, and it counts as a rollback just beyond 0.02 |
| `PredictionTheorems.TeleportLeavesNoOffset` | client/src/prediction.cpp:127-133 | after a correction beyond 2 the character is drawn exactly where it is predicted until the next snapshot, whatever the offset was |
| `PredictionTheorems.DrawnPositionHolds` | client/src/prediction.cpp:121-140 | the drawn position moves by at most 0.02 unless the correction exceeds 2, and not at all for a correction that counts |
| `PredictionTheorems.SmoothingIsFramerateIndependent` | client/src/prediction.cpp:144-148 | the offset decays the same however its time is cut into frames, of any number and lengths |
| `PredictionTheorems.SmoothingHalves` | client/src/prediction.cpp:16-17 | and is halved once for every half-life that the frames add up to |
| `PredictionTheorems.RunConsistent` | client/src/prediction.cpp:36-141 | on every run of ticks and snapshots in any order the history stays consistent and no reconciliation turns the body |
| `GroundFlag.WrongFlag` | common/gamesim/src/character.cpp:31-90 | one tick comes out the same with the wrong ground flag if and only if the body already moves as the input asks, and touches the ground where that takes it or, in the air, falls at terminal speed without a jump |
| `GroundFlag.OnePendingFlagDecides` | client/src/prediction.cpp:104-115 | with one input pending, reconciling matches the server if and only if the flag agrees or does no such harm |
| `GroundFlag.PendingFlagDecides` | client/src/prediction.cpp:104-115 | with any inputs pending, the replay is right all along if and only if the flag agrees or does no harm to the first of them, and then reconciling matches the server |
| `GroundFlag.RightJumpIsUndone` | client/src/prediction.cpp:104-115 | on every ground a right prediction of a jump is undone by the snapshot from before it: a client that has stood for a tick and jumped is put back on the ground |
| `GroundFlag.UndoneJumpIsRollback` | client/src/prediction.cpp:117-125 | and that counts as a rollback |
| `Simulation.Simulation.constructor` | server/worldserver/src/simulation.cpp:48-55 | the speed asked for does not survive: the clock starts at real speed |
| `Simulation.Simulation.AddPlayer` | server/worldserver/src/simulation.cpp:61-81 | a new player gets an entity id no other has and a spawn just above the ground; a second call changes nothing |
| `Simulation.Simulation.RemovePlayer` | server/worldserver/src/simulation.cpp:83-85 | only that player goes |
| `Simulation.Simulation.SetInput` | server/worldserver/src/simulation.cpp:87-98 | an older intent never replaces a newer one |
| `Simulation.Simulation.Step` | server/worldserver/src/simulation.cpp:100-122 | every player is stepped once, acknowledged, and its jump consumed; the clock is read off its anchor |
| `Simulation.Simulation.StepPlayers` | server/worldserver/src/simulation.cpp:115-122 | the player loop |
| `Simulation.Simulation.BuildSnapshot` | server/worldserver/src/simulation.cpp:163-198 | tick, time of day, and every player once in the order of ids, with the acknowledgement and without the ground flag |
| `Simulation.Simulation.SetTimeOfDay` | server/worldserver/src/simulation.cpp:144-148 | jumps, and runs on from there |
| `Simulation.Simulation.SetTimeSpeed` | server/worldserver/src/simulation.cpp:150-155 | the shown time does not change |
| `Simulation.Simulation.ResetClock` | server/worldserver/src/simulation.cpp:157-161 | real time at real speed |
| `Simulation.TickPlayer` | server/worldserver/src/simulation.cpp:115-121 | one player's tick |
| `Simulation.ServedRuns` | server/worldserver/src/simulation.cpp:115-122 | with its inputs set in order, one a step, a character goes exactly where the movement rule takes it, and the acknowledgement counts them |
| `Simulation.OneEntityEach` | server/worldserver/src/simulation.cpp:163-198 | in a snapshot exactly one entity has a player's entity id, and that one is its state |
| `Simulation.JumpsOnce` | server/worldserver/src/simulation.cpp:115-122 | a jump that has been asked for once is taken once: without a new input the later ticks go as if it had not been asked for, and acknowledge the same number |
| `Simulation.SpawnPlace` | server/worldserver/src/simulation.cpp:61-81 | a new player starts 1.05 above the ground, on an ellipse of 3 by 2 about (0, 6) |
| `WorldClock.TimeInDay` | server/worldserver/src/simulation.cpp:34-109 | the time of day lies in [0, 1), except that the wall clock may show 1 in a leap second before midnight |
| `WorldClock.StepsDoNotMatter` | server/worldserver/src/simulation.cpp:104-109 | between commands only real time counts, not how many steps ran |
| `WorldClock.StepAdvances` | server/worldserver/src/simulation.cpp:106-109 | a step adds the time passed since the shown one, modulo a day |
| `WorldClock.CommandsRunOn` | server/worldserver/src/simulation.cpp:139-161 | a time that is set runs on from there, a reset runs with the wall clock, and a new speed changes nothing at the moment it is set |
| `WorldClock.QuarterDays` | server/worldserver/src/simulation.cpp:104-109 | at real speed n steps of a quarter of a day show n quarters more, modulo a day: 86400 s later the same time |
| `WorldClock.FasterDays` | server/worldserver/src/simulation.cpp:104-109 | at any other speed a day passes in 86400 s over that speed |
| `WorldClock.ClockLags` | server/worldserver/src/simulation.cpp:139-155 | over any run of steps and speed changes the clock lags the integral of its speed by exactly the sum of old speed times the time since the shown one was brought up to date, modulo a day |
| `Link.WorldLoop.HandleInput` | server/worldserver/src/main.cpp:691-724 | an input is clamped, and set or queued by the simulated latency; none from an unbound address, that does not decode or that claims another player |
| `Link.WorldLoop.Tick` | server/worldserver/src/main.cpp:738-765 | a tick makes one numbered packet for a bound player, sent or queued |
| `Link.WorldLoop.Release` | server/worldserver/src/main.cpp:767-779 | what is due at the front of the two queues goes, in order |
| `Link.WorldLoop.ReleaseInputs` | server/worldserver/src/main.cpp:770-773 | the inputs due |
| `Link.WorldLoop.ReleasePackets` | server/worldserver/src/main.cpp:774-778 | the packets due |
| `Link.ClampIsNearest` | server/worldserver/src/main.cpp:710-713 | a stick is taken to the nearest position it can have |
| `Link.InputAfterLatency` | server/worldserver/src/main.cpp:691-773 | an input takes effect after exactly the simulated latency, in milliseconds |
| `Link.PacketAfterLatency` | server/worldserver/src/main.cpp:738-778 | so does a snapshot, once and under the next number |
| `Link.UnboundIsLeftAlone` | server/worldserver/src/main.cpp:691-765 | a player that has not said hello is neither heard nor sent to |
| `Link.DueIsDue` | server/worldserver/src/main.cpp:767-779 | what is released is the front of a queue that is due, up to the first that is not |
| `Link.NetClient.HandleSnapshot` | client/src/net_client.cpp:264-299 | a snapshot not newer than the last one applied, or one that does not decode, is dropped |
| `Link.NetClient.Frame` | client/src/application.cpp:256-269 | the first state starts the prediction, a later one is reconciled with once, unless its count is the one last reconciled at; the character is drawn where prediction says |
| `Link.FreshIsReconciled` | client/src/application.cpp:260-265 | a snapshot newer than the last is reconciled with at the next frame, once, unless its count is the one last reconciled at |
| `Link.FirstStarts` | client/src/application.cpp:256-259 | the first one starts the prediction where it says |
| `Protocol.InputsKeepOrder` | server/worldserver/src/simulation.cpp:92-97 | an input leaves the newest number in place or raises it, if and only if it has a number or none is newer |
| `Protocol.TickKeeps` | server/worldserver/src/main.cpp:738-765 | packets are numbered in order, and ticks and acknowledgements in them only grow |
| `Protocol.ReleaseKeeps` | server/worldserver/src/main.cpp:767-779 | so they do through the delay queues |
| `Protocol.ArrivalKeeps` | client/src/net_client.cpp:264-299 | what the client applies stays in order however packets arrive |
| `Protocol.FrameKeeps` | client/src/application.cpp:256-265 | a frame keeps the replays in order |
| `Protocol.EveryRunSafe` | server/worldserver/src/main.cpp:717-779 | on every run with loss, duplication, reordering and changing latency: applied ticks strictly increase, acknowledgements never go back, and nothing acknowledged is ever replayed |
| `Protocol.AckWithinHistory` | client/src/prediction.cpp:79-84 | on every run without early inputs no snapshot acknowledges more than was stepped, and the history reaches back to it unless it is over 256 inputs old |
| `Protocol.MakerDescribed` | server/worldserver/src/main.cpp:738-765 | the last packet applied tells the state of the server's player it was made of, all of whose input is in it |
| `Protocol.SnapshotComesTrue` | client/src/prediction.cpp:89-115 | on every such run reconciling puts the client where the player of the server that the packet was made of will be when it has consumed everything sent since, one input a tick |
| `Protocol.ServedAlong` | server/worldserver/src/simulation.cpp:115-122 | over a run whose server ticks consume each input once in order, by whatever path they come, the server's character takes exactly the inputs it counts |
| `Protocol.PredictionMeetsServer` | client/src/prediction.cpp:89-115 | a packet made in one state of a run, reconciled with in a later one, puts the client where the server is in a still later one, in which it has consumed, once and in order, all that the client had stepped by then, while the client steps on |
| `Protocol.ConsumedIsServed` | server/worldserver/src/main.cpp:710-713 | clamping changes nothing for a stick within its range |
| `Logins.EarlyInputsDecide` | client/src/prediction.cpp:36-70 | from the start of a prediction on, no snapshot on any run acknowledges more than has been stepped if and only if no input was sent before it |
| `Logins.RunNumberGrows` | server/worldserver/src/simulation.cpp:92-97 | the newest input number the server has of a player never goes back |
| `Logins.IgnoredUntilCaughtUp` | server/worldserver/src/simulation.cpp:92-97 | while the prediction has numbered fewer inputs than the newest number the server had at its start, none of them changes anything on the server |
| `Logins.EarlyInputAcknowledged` | client/src/prediction.cpp:50-70 | from every start, and for every number from the one that the last login left on, a run that brings the server and the first snapshot to it |
| `Logins.FirstInputsLost` | client/src/prediction.cpp:50-70 | and after it, whatever happens, the inputs below that number are lost |
| `Logins.LaterLoginMisses` | client/src/application.cpp:260-265 | a run in which a later login that comes with a count of 2 or more misses a snapshot: applied while the prediction runs, it is not due |
| `Logins.NeverMissesIff` | client/src/application.cpp:260-265 | on every run every snapshot applied once the prediction runs is due to be reconciled with at the next frame if and only if that count is 0 or 1; one applied before that frame takes its place |
| `Walking.SoundRun` | common/gamesim/src/character.cpp:11-91 | on every run the server's character keeps the bounds on its speed and, whenever the flag is set, stands on the ground |
| `Walking.TrackRun` | server/worldserver/src/simulation.cpp:115-122 | while a player walks and is served in order, the server's character and the makers of all packets since are where the inputs take it |
| `Walking.ReconcileAhead` | client/src/prediction.cpp:89-115 | a client that stands and reconciles with a packet made since the server's character stood is then where the inputs take that |
| `Walking.ReconcileStays` | client/src/prediction.cpp:117-123 | and if it is there already, nothing moves: no correction, no rollback |
| `Walking.WalkingNeverRollsBack` | client/src/prediction.cpp:104-125 | once both stand, walking counts no rollback, over any run with snapshots within the history and inputs served in order; the ground flags agree on it, and the client is always where the server will be |
| `ByteStream.ByteReader.Word` | common/net/include/net/byte_stream.h:62-73 | a number read is the one whose encoding is next; a failure is for good and gives 0 |
| `ByteStream.ByteReader.String` | common/net/include/net/byte_stream.h:75-84 | a string read is the one whose encoding is next, at most 1024 bytes; else a failure |
| `ByteStream.ByteReader.Take` | common/net/include/net/byte_stream.h:93-105 | the bytes of a number, or none of them |
| `ByteStream.ByteReader.TakeString` | common/net/include/net/byte_stream.h:75-84 | the bytes of a string, or a failure |
| `ByteStream.ByteWriter.Word` | common/net/include/net/byte_stream.h:18-28 | appends the number's encoding |
| `ByteStream.ByteWriter.String` | common/net/include/net/byte_stream.h:32-37 | appends the encoding of the string cut to 1024 bytes |
| `ByteStream.LittleBytes` | common/net/include/net/byte_stream.h:47-53 | the bytes of a number, low byte first |
| `ByteStream.NumberOfLittle` | common/net/include/net/byte_stream.h:47-53 | reading a number's bytes gives it back |
| `ByteStream.LittleOfNumber` | common/net/include/net/byte_stream.h:99-102 | and the other way round |
| `ByteStream.LowByteFirst` | common/net/include/net/byte_stream.h:47-53 | a number of 1, 2, 4 or 8 bytes is the sum of its bytes times 1, 256, 65536 and so on |
| `ByteStream.StringBytes` | common/net/include/net/byte_stream.h:32-37 | a string is its length in two bytes, low one first, and its bytes, of which the first 1024 go out |
| `ByteStream.DecodingUnique` | common/net/include/net/byte_stream.h:10-113 | data starts with the encoding of at most one sequence of fields of given kinds |
| `ByteStream.ReadBack` | common/net/include/net/byte_stream.h:58-111 | reading back written fields gives them and consumes exactly their bytes |
| `ByteStream.TruncationFails` | common/net/include/net/byte_stream.h:86-105 | reading from any proper prefix fails |
| `ByteStream.Fails` | common/net/include/net/byte_stream.h:86-98 | a failed read stays failed |
| `SnapshotCodec.EncodeSnapshot` | common/net/src/snapshot.cpp:8-33 | appends the encoding |
| `SnapshotCodec.DecodeSnapshot` | common/net/src/snapshot.cpp:35-72 | gives the snapshot of at most 512 entities whose encoding the data starts with, or nothing when there is none |
| `SnapshotCodec.ReadEntities` | common/net/src/snapshot.cpp:46-71 | the entity loop: all of them, or no snapshot of the header read is there |
| `SnapshotCodec.ReadEntity` | common/net/src/snapshot.cpp:49-65 | the sixteen fields of an entity |
| `SnapshotCodec.WriteEntity` | common/net/src/snapshot.cpp:15-32 | the sixteen fields of an entity |
| `SnapshotCodec.SnapshotUnique` | common/net/src/snapshot.cpp:8-72 | no two snapshots of at most 512 entities start the same data |
| `SnapshotCodec.DecodeInvertsEncode` | common/net/src/snapshot.cpp:42-44 | decoding gives back what was encoded if and only if it has at most 512 entities |
| `SnapshotCodec.TruncationRejected` | common/net/src/snapshot.cpp:66-68 | every truncation is rejected |
| `SnapshotCodec.EntityBytes` | common/net/src/snapshot.cpp:15-32 | an entity takes 61 bytes, and where each of its sixteen fields stands |
| `SnapshotCodec.HeaderBytes` | common/net/src/snapshot.cpp:8-14 | the header takes 18 bytes, and where each of its four fields stands |
| `SnapshotCodec.SnapshotBytes` | common/net/src/snapshot.cpp:8-33 | a snapshot is its header and 61 bytes for every entity, in order |
| `SnapshotCodec.UdpHeaderBytes` | common/net/src/snapshot.cpp:74-79 | a datagram starts with the magic number, the type and the sequence number, in ten bytes |
| `SnapshotCodec.WriteUdpHeader` | common/net/src/snapshot.cpp:74-79 | appends magic, type and sequence number |
| `SnapshotCodec.ReadUdpHeader` | common/net/src/snapshot.cpp:81-93 | gives the type and number of the header the datagram starts with, or nothing when it starts with none |
| `Framing.MessageStream.Pump` | common/net/src/framing.cpp:24-43 | appends the chunks that are there; gives up on a broken socket and, at once, on an oversized claim |
| `Framing.MessageStream.Next` | common/net/src/framing.cpp:45-63 | takes the first whole message off the buffer, if there is one |
| `Framing.MessageStream.Send` | common/net/src/framing.cpp:65-73 | queues the frame and flushes |
| `Framing.MessageStream.Flush` | common/net/src/framing.cpp:75-91 | hands over what the socket accepts, in order, and empties the buffer when all is gone |
| `Framing.FirstIsFrame` | common/net/src/framing.cpp:50-62 | a message taken off takes exactly its frame off |
| `Framing.FrameFirst` | common/net/src/framing.cpp:45-73 | a frame at the front is taken for its message, whatever follows |
| `Framing.FrameBytes` | common/net/src/framing.cpp:65-73 | a frame is the size of the payload in four bytes and its type in two, low byte first, and the payload |
| `Framing.AcceptedIs` | common/net/src/framing.cpp:75-91 | a flush hands over all that its sends accept up to the first that accepts nothing, or everything |
| `Framing.BreaksIff` | common/net/src/framing.cpp:75-91 | it fails if and only if the socket does before it is full or everything is gone |
| `Framing.FlushSendsAll` | common/net/src/framing.cpp:75-91 | a flush whose sends accept as much as is unsent, none of them nothing, leaves nothing unsent |
| `Framing.ConcatSplits` | common/net/src/framing.cpp:24-43 | chunks are put together in order, each whole |
| `Framing.NextConserves` | common/net/src/framing.cpp:24-91 | every step keeps: written and unsent bytes are all the frames, popped messages the first ones sent |
| `Framing.Faithful` | common/net/src/framing.cpp:24-91 | on every run of sends, flushes, deliveries and pops, popped messages are a prefix of those sent, and the bytes written and unsent are the frames of all |
| `Framing.RejectedIfTooBig` | common/net/src/framing.cpp:38-41 | a claim is rejected as oversized if and only if the next message is over the limit |
| `Framing.DrainedIsAll` | common/net/src/framing.cpp:45-63 | draining everything gives exactly what was sent |
| `Framing.CanDrain` | common/net/src/framing.cpp:24-91 | from every state of a run, when the socket takes and brings what is left, one pop for each message lacking ends with all of them |
| `Rpc.DbClient.Request` | server/common/src/db_client.cpp:83-112 | a call is registered under a new id and sent; without a connection its callback fails at once |
| `Rpc.DbClient.Callback` | server/common/src/db_client.cpp:97-111 | a callback runs, once, and issues what it will |
| `Rpc.DbClient.FailAllPending` | server/common/src/db_client.cpp:43-51 | every handler waiting is failed, and what the callbacks issue is not lost |
| `Rpc.DbClient.HandleReply` | server/common/src/db_client.cpp:64-78 | a reply goes to the handler of its id, which is gone before it runs; others do nothing |
| `Rpc.DbClient.Poll` | server/common/src/db_client.cpp:53-81 | dispatches every reply, or fails all on a dropped connection |
| `Rpc.IssueKeeps` | server/common/src/db_client.cpp:83-112 | a call keeps the balance of calls made, waiting and run, also when callbacks issue calls |
| `Rpc.ResolveKeeps` | server/common/src/db_client.cpp:76-78 | so does running a callback |
| `Rpc.ReplyKeeps` | server/common/src/db_client.cpp:64-79 | so does a reply, duplicate and unknown ones too |
| `Rpc.FailuresKeep` | server/common/src/db_client.cpp:46-50 | so does failing what was waiting |
| `Rpc.ExactlyOnce` | server/common/src/db_client.cpp:39-81 | on every run each call is waiting or its callback has run once, never both |
| `Rpc.OwnReply` | server/common/src/db_client.cpp:64-78 | every result on a run comes from a complete reply that a poll brought, of the type that answers the call, under the id that call and no other was sent with |
| `Rpc.ReplyReachesItsCall` | server/common/src/db_client.cpp:72-78 | a reply under the id of a waiting call takes that call out and runs its callback next, with its result if it is complete and of the right type; the calls the callback makes then wait behind the others, in order |
| `Rpc.PollAnswers` | server/common/src/db_client.cpp:64-79 | on every run, a poll leaves no call waiting whose id one of its replies carries: the callback has run once, as the first such reply says |
| `Rpc.PollLeavesOthers` | server/common/src/db_client.cpp:64-79 | and a call whose id none of them carries waits on |
| `Rpc.PollFailsAll` | server/common/src/db_client.cpp:43-61 | a poll that loses the connection fails every call that waits |
| `Rpc.CallWaits` | server/common/src/db_client.cpp:83-112 | a call made with a connection waits, under an id no call had before |
| `Rpc.CallFails` | server/common/src/db_client.cpp:83-87 | one made without fails at once, and so do all that its callback makes |
| `Rpc.AnswersFollowRequests` | common/net/include/net/protocol.h:75-100 | every request is answered under the next type, but for the second way to create an account, which shares the answer of the first |
| `Rpc.NothingLeftWaiting` | server/common/src/db_client.cpp:54-61 | once a poll has returned false nothing is waiting, of the calls callbacks made neither |
| `PlayerTables.WorldServer.RemovePlayer` | server/worldserver/src/main.cpp:201-211 | the player of a connection goes from both tables and from the world |
| `PlayerTables.WorldServer.HandleJoinRequest` | server/worldserver/src/main.cpp:233-240 | a connection that has a player does not join again |
| `PlayerTables.WorldServer.HandleSession` | server/worldserver/src/main.cpp:240-280 | a session found gives a new id, an entry in each table and a body; a player the connection has already stays |
| `PlayerTables.WorldServer.HandleHello` | server/worldserver/src/main.cpp:655-689 | an address is bound only with the token of the player it names |
| `PlayerTables.WorldServer.StreamSnapshots` | server/worldserver/src/main.cpp:749-764 | every bound player is sent to, and no one else |
| `PlayerTables.WorldServer.DropSilentPlayers` | server/worldserver/src/main.cpp:781-794 | exactly the overdue players go, and their connections are to be closed |
| `PlayerTables.WorldServer.FinishClosing` | server/common/src/tcp_server.cpp:71-82 | the deferred closes, each once, with their players |
| `PlayerTables.WorldServer.Accept` | server/common/src/tcp_server.cpp:32-36 | the next connection takes the next number |
| `PlayerTables.NextIdsAreNew` | server/common/src/tcp_server.cpp:32-36 | on every run that number is not the id of any connection, player, join in flight or close due, nor is the next player's of any player or body |
| `PlayerTables.IdsNeverReused` | server/worldserver/src/main.cpp:253-267 | on every run the id of a player, body or connection that has gone is never in use again |
| `PlayerTables.JoinedKeeps` | server/worldserver/src/main.cpp:253-267 | the id given is in no table |
| `PlayerTables.NextKeeps` | server/worldserver/src/main.cpp:201-280 | every event keeps the forward table leading back and the bodies there |
| `PlayerTables.EveryRun` | server/worldserver/src/main.cpp:655-794 | on every run an entry maps back, has a body and an id no other has, and snapshots went only where a hello with the player's token came from |
| `PlayerTables.TickStreams` | server/worldserver/src/main.cpp:749-764 | on every run a tick streams to exactly the bound players, each where its hello came from, under its next number |
| `PlayerTables.PlayerOverRun` | server/worldserver/src/main.cpp:655-727 | on every run a player keeps its token, is bound to where its latest hello came from, and was last heard when its latest datagram came |
| `PlayerTables.SilentDropped` | server/worldserver/src/main.cpp:781-794 | on every run dropping the silent takes away exactly the bound players not heard from since the deadline, and leaves every other as it is |
| `PlayerTables.SilenceDecides` | server/worldserver/src/main.cpp:655-794 | so a player goes if and only if it has said hello and nothing of it has come since the deadline |
| `PlayerTables.TokenOfItsJoin` | server/worldserver/src/main.cpp:233-267 | a player's token is one that a join of its own connection brought |
| `PlayerTables.ClosesAll` | server/common/src/tcp_server.cpp:71-82 | on every run exactly the connections queued go, with their players |
| `PlayerTables.JoinedInverse` | server/worldserver/src/main.cpp:261-264 | a join keeps the tables inverse if and only if its connection has no player |
| `PlayerTables.InverseIfFirstPlayers` | server/worldserver/src/main.cpp:233-267 | at the end of a run the tables are exact inverses if and only if every join answered with a session was for a connection without a player |
| `PlayerTables.PatientRunInverse` | server/worldserver/src/main.cpp:201-280 | with at most one join in flight per connection the tables stay exact inverses |
| `PlayerTables.SecondJoinLeaks` | server/worldserver/src/main.cpp:233-267 | of two joins in flight on one connection the second leaves a body that logging out does not remove |
| `PlayerTables.JoinedLive` | server/worldserver/src/main.cpp:239-267 | a join keeps every player's connection there if and only if its own connection is |
| `PlayerTables.LiveRun` | server/worldserver/src/main.cpp:201-280 | every player has a connection in every state of a run if and only if no join of the run is answered after its connection has gone |
| `PlayerTables.OrphanMade` | server/worldserver/src/main.cpp:239-267 | a run in which a connection goes while its join is looked up, which makes a player without one |
| `PlayerTables.OrphanStaysOn` | server/worldserver/src/main.cpp:201-280 | over any events such a player stays as it is until a hello with its token |
| `Atlas.Build` | client/src/ui/font.cpp:34-128 | places the glyphs where the layout says, fails at the first there is no room for, and leaves every glyph placed and the white texel intact and all else clear |
| `Atlas.Place` | client/src/ui/font.cpp:96-119 | painting one more glyph keeps all that |
| `Atlas.PaintGlyph` | client/src/ui/font.cpp:102-111 | the texels of its rectangle get its coverage, no other changes |
| `Atlas.OneMore` | client/src/ui/font.cpp:102-111 | a glyph apart from the earlier ones leaves their texels as they are |
| `Atlas.InsideIfNarrow` | client/src/ui/font.cpp:86-94 | the width is not checked: a glyph lies inside the border if and only if it is at most the atlas width less 2 wide |
| `Atlas.AllApart` | client/src/ui/font.cpp:56-125 | the rectangles of all sizes are pairwise apart, with two clear texels between them |
| `Atlas.AllInside` | client/src/ui/font.cpp:86-94 | and inside the border, if and only if narrow enough |
| `Atlas.FirstPlace` | client/src/ui/font.cpp:46-94 | the first glyph goes beside the white texel, or under it when it is over 1019 wide |
| `Atlas.NextPlace` | client/src/ui/font.cpp:86-125 | the next one goes two texels to the right of the one before, or, when it does not fit the row, to the left border two under the lowest of that row; there is room just when it ends above the last line |
| `Atlas.PaintedTexel` | client/src/ui/font.cpp:102-111 | texel (x, y) of a glyph is white, with the coverage of that pixel as its alpha |
| `Atlas.LayoutAhead` | client/src/ui/font.cpp:86-119 | whatever is placed later is apart from what is behind the pen, the white texel too |

## Left out

- GlyphOutline.GlyphShape: asks for a description that is all in the file, with end points that increase and a second point in a contour that starts off the curve; what the decoder reads otherwise is not modelled.
- Charstring.RunCharstring: the glyph's local subroutines are a parameter, so the choice of them through a font's fdselect table is not modelled; the array in which a failed fill pass would leave vertices is not described, since there is no such pass.
- Charstring.Context.V: a vertex beyond 32 bits before it is stored in 16 is not modelled; coordinates are reals converted to unbounded integers.
- CharstringPath.PathReadsBack: for whole coordinates whose steps a whole operand can say, each piece by an operator of its own; what the other operators stand for is in `CharstringOperators`, and fractions are in `FixedReadsBack`.
- CffIndex.EntryReadsBack: for an index that has entries; an empty one is its count alone.
- CmapSearch.FindGlyph4: asks for a well-formed table, with the search fields that the OpenType specification derives from the segment count.
- Atlas.Build: asks for glyphs at most 1022 wide, which the source does not check; where a wider one would be painted is not modelled. A texel's four bytes are one value, and metrics and texture coordinates are not part of this model.
- PlayerTables.EveryRun: messages and datagrams are events that have passed parsing; packets still queued for an address by the simulated latency go to an address that was streamed to.
- Link.WorldLoop.HandleInput: one player is followed; the inputs and packets of others touch none of this.
- Simulation.Simulation.BuildSnapshot: the cube, the entity types and the players' rotations, which are trigonometry of the facing, are not in the model's snapshot; the wire format of all of these is in `SnapshotCodec`, whose floats are bits, so that no rounding relates the two.
- Prediction.Prediction.UpdateSmoothing: the power of two is a parameter, of which the lemmas ask that it turns sums into products, and 1/2 at -1.
- Character.Lands: the bound is for the lowest ground there is, not for the ground below.
- Character.GentleRunStaysGrounded: for target speeds up to 5.5 m/s, which every walk is; whether the ground of the game falls away under a sprint is not said, only when (`StaysGroundedIff`).
- Walking.WalkingNeverRollsBack: for runs in which the server consumes each input once and in order, as in `PredictionMeetsServer`; what a lost or late input makes of the server's path, and the corrections it causes, are not described.
- Compound glyphs, kerning, character map formats 0 and 6, curve flattening, rasterising: no statement as crisp as those above.
- The CFF dictionaries and the search for a glyph's data in the file: plain lookups.
- Surface normals and the scripted cube: closed forms with no state to protect.
- The client's fake latency and loss: they weaken the acceptance of snapshots before the first one and are for testing.
- Signed 32-bit fields of the wire encoding: the same bits as unsigned ones, and unused.
- Account and permission handling, console commands, configuration, database, sockets, encryption, rendering: calls into other code, or one-branch checks.
- Rounding of floats, which in the original can make two ends differ.

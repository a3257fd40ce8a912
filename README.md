# mahjong-scoring, modelled in Dafny

This project models the hand evaluator of the riichi-mahjong scorer
`mahjong-scoring`.

## The hand-interpretation engine

The engine works in four steps:

1. It counts a 14-tile hand into an ordered map.
2. It enumerates every way to split those counts into pairs, triplets, quads and sequences (the mentsu).
3. It keeps the groupings that have four bodies and one pair.
4. For every group that contains the winning tile, it makes one copy of the hand. In that copy the group is opened on a ron and tagged with its wait (tanki, shanpon, kanchan, penchan or ryanmen). The copy is sorted and put in a set, which removes duplicates.

## Around the engine

The model also covers:

- the data the engine shares:
  - tiles and their order;
  - suits and their letters;
  - mentsu kinds and mentsu;
  - waits and their display codes;
  - the three-tile iterator over a mentsu.
- the fu calculator.
- the three yaku tables: regular, yakuman and the "weird" ones judged on bare tiles.
- the hand-notation parser, which turns a string such as `123m456p789s11z 5z` into tiles, a winning tile and a win method.

An older generation of the same code (`src/tile.rs`, `src/mentsu.rs`, `src/yaku.rs`) is modelled separately in the `Legacy*` modules.

## Module layout

Roughly one module per source file:

| module | what it models |
|---|---|
| `Suits` | the suit decoder |
| `Tiles` | tiles |
| `Waits` | waits |
| `Kinds` | mentsu kinds |
| `Mentsus` | mentsu |
| `MentsuIter` | the tile iterator |
| `Counts` | the ordered map of counts, as a strictly ordered `seq<(Tile, nat)>` |
| `Engine` | the engine's methods and the functions that specify them |
| `EngineProofs` | soundness and completeness of the enumeration |
| `BuildProofs` | what `build` returns |
| `Sorting` | the sort |
| `Score` | fu |
| `YakuTable` | the yaku record |
| `RegularYaku`, `Yakuman`, `Weird` | the three yaku tables |
| `Parser` | the hand-notation parser |
| `LegacyTiles`, `LegacyMentsu`, `LegacyYaku` | the older generation |
| `Counting`, `Wrappers` | shared helpers |

## How the source takes shape here

Pure code became functions and lemmas. Loops became methods, each proved equal to a specification function. The properties are then proved about those functions. For example:

- `Engine.RecBuild` is proved against `Engine.Enumerate`.
- `Parser.Parse` is proved against `Parser.ParseSpec`.
- `Score.Fu` is proved against `Score.RoundUp10(Score.RawFu(..))`.
- `Weird.ScanKokushi` is proved to reject every input.

The mentsu iterator is a class, because its `next` updates a field in place.

The engine's two panics are modelled as error values:

- A quad that holds the winning tile (`unimplemented!()`) is `Failure(QuadWait)`.
- Pinfu's `unwrap` on a hand without a pair is a precondition of a partial predicate (`-->` in the yaku record).

Two behaviours of the source that a reader might not expect, and how the model treats them:

- Honor "sequences": the engine's sequence branch (src/parser/i13s.rs) only checks that `add(1)` and `add(2)` exist and have nonzero counts. It therefore builds groups such as 1z-2z-3z. `Engine.Enumerate` does the same, and `Tiles.Add` has no honor check.
- Duplicates: `basic_to_open` stores the hands in a `HashSet`. Its `Hash` covers every field, but `PartialEq` compares kinds only. Two hands that differ only in annotations hash differently and compare equal. The source keeps both when their hash tags do not collide. When the tags collide on the probe path, `insert` sees an equal entry and drops the new copy. The hasher is seeded at random, so this can vary from run to run. The model chooses to keep both: it holds a set of full values.

## Model

| member | source | states |
|---|---|---|
| Suits.FromChar | src/suit.rs:9-19 | a char decodes to a suit iff it is one of `m`, `p`, `s`, `z`; only `z` gives Honor; anything else is an error value instead of the `unreachable!` |
| Suits.FromCharRoundTrip | src/suit.rs:11-17 | decoding a suit's letter gives the suit back, and every accepted char is the letter of the suit it decodes to |
| Suits.FromCharInjective | src/suit.rs:11-17 | two accepted chars that decode to the same suit are the same char |
| Suits.RankInjective | src/suit.rs:1-7 | the declaration-order rank used by the tile order is injective and below 4 |
| Tiles.LessIsStrictTotalOrder | src/tile/mod.rs:19-36 | ordering by value and then suit is irreflexive, asymmetric, transitive and total; two tiles are incomparable iff value and suit agree |
| Tiles.ExactlyOneClass | src/tile/mod.rs:64-74 | every tile is exactly one of simple, terminal and honor |
| Tiles.CanSequenceSymmetric | src/tile/mod.rs:57-62 | `can_sequence` holds iff both tiles are non-honor in one suit with values 1 or 2 apart; it is symmetric and irreflexive |
| Tiles.Add | src/tile/mod.rs:76-87 | `add(r)` fails iff value + r exceeds 9 |
| Tiles.AddProperties | src/tile/mod.rs:76-87 | a successful `add` keeps the suit and adds r to the value; the result is greater in the tile order; `add(2)` is `add(1)` twice; adding 1 or 2 to a non-honor tile gives a tile it can sequence with |
| Waits.LessIsDeclarationOrder | src/win_wait.rs:1-8 | the derived order is Ryanmen < Kanchan < Penchan < Tanki < Shanpon, and it is total |
| Waits.CodeRoundTrip | src/win_wait.rs:10-24 | every display code has three letters and decodes back to its wait, so the codes are injective |
| Kinds.LessByVariant | src/mentsu/kind.rs:3-9 | the derived order puts every Triplet before every other kind, every Quad before every Sequence and Pair, and every Sequence before every Pair, before comparing tiles |
| Kinds.LessIsStrictTotalOrder | src/mentsu/kind.rs:3 | the derived order on kinds is a strict total order, with structural equality as its equality |
| Kinds.ShowStartsWithTag | src/mentsu/kind.rs:11-22 | the display starts with the variant's `Tr(`, `Qd(`, `Sq(` or `Pr(` tag and ends in `)`, so kinds of different variants never display alike |
| Mentsus.New | src/mentsu/mod.rs:48-54 | a new mentsu has the given kind, is closed and has no wait |
| Mentsus.EquivalenceIgnoresAnnotations | src/mentsu/mod.rs:15-19 | `==` compares kinds only: mentsu of equal kind are equal whatever their open flag, yet they are different values; `==` is symmetric |
| Mentsus.ContainsIsMembership | src/mentsu/mod.rs:56-61 | `contains(t)` holds iff t is one of the group's tiles; for a pair, triplet or quad that means t is its tile |
| Mentsus.SetWinWait | src/mentsu/mod.rs:63-65 | sets the wait and changes nothing else |
| Mentsus.SetOpen | src/mentsu/mod.rs:67-69 | sets the open flag and changes nothing else |
| Mentsus.KindPredicates | src/mentsu/mod.rs:71-116 | `triplet()` covers triplets and quads; `pair()`, `quad()` and `sequence()` each pick one variant; a sequence is neither `honor()` nor `entirely_terminal()`; an entirely-terminal group contains a terminal and is not an honor group; an honor group contains no terminal |
| Mentsus.EqDiffSuitsCharacterized | src/mentsu/mod.rs:125-137 | `eq_diff_suits` holds iff the suits differ, the variants agree and the first tiles have equal values; it is symmetric and irreflexive |
| Mentsus.LessIsStrictTotalOrder | src/mentsu/mod.rs:8 | the derived order (kind, then open, then wait) is a strict total order on full values |
| MentsuIter.IterTiles | src/mentsu/iter.rs:12-19 | every kind yields three tiles: three copies of its tile for a pair, triplet or quad; first, middle, last for a sequence |
| MentsuIter.IterTilesVersusMembers | src/mentsu/iter.rs:14 | the iterator yields exactly the group's tiles only for triplets and sequences; a pair has 2 tiles and a quad 4, but both yield 3 |
| MentsuIter.Iter.constructor | src/mentsu/iter.rs:12-19 | `new` stores the tiles IterTiles gives and starts at index 0 |
| MentsuIter.Iter.Next | src/mentsu/iter.rs:25-33 | yields `tiles[next_idx]` and advances by one; once exhausted it yields None and leaves the index alone; the tiles never change |
| MentsuIter.Iter.Collect | src/mentsu/mod.rs:144-148 | draining the iterator yields exactly the tiles still ahead of it and leaves it exhausted |
| MentsuIter.GetTiles | src/mentsu/mod.rs:144-148 | `get_tiles` has three tiles per mentsu |
| MentsuIter.GetTilesAt | src/mentsu/mod.rs:144-148 | tile 3i+j of `get_tiles` is tile j of mentsu i's iteration |
| Counts.Get | src/parser/i13s.rs:86 | a lookup finds the entry holding the key or reports that no entry does |
| Counts.Increment | src/parser/i13s.rs:14 | `and_modify(+1).or_insert(1)` keeps the entries ordered and adds one copy of the tile to the counted multiset |
| Counts.Decremented | src/parser/i13s.rs:169-177 | `decrement` keeps every key and lowers each count by the number of copies of that key in the slice |
| Counts.Decrement | src/parser/i13s.rs:169-177 | the loop over the slice computes `Decremented` |
| Counts.DecrementedContents | src/parser/i13s.rs:169-177 | decrementing removes the slice's tiles from the counted multiset and keeps the order; when every tile is a key, the total drops by the slice's length |
| Counts.TotalIsSize | src/parser/i13s.rs:11-15 | the sum of the counts is the size of the counted multiset |
| Engine.Tally | src/parser/i13s.rs:11-15 | counting a tile list gives ordered counts whose multiset is the list's multiset |
| Engine.CountTiles | src/parser/i13s.rs:11-15 | the counting loop computes `Tally` |
| Engine.With | src/parser/i13s.rs:165-167 | `with` appends one mentsu and keeps the prefix |
| Engine.Consumed | src/parser/i13s.rs:53-92 | the slice each branch hands to `decrement` is exactly the group's tiles |
| Engine.TakeSame | src/parser/i13s.rs:51-81 | the pair, triplet and quad guards (count at least 2, 3 and 4) make the decrement take only tiles that are there |
| Engine.TakeSequence | src/parser/i13s.rs:84-92 | the sequence guard (`add(1)` and `add(2)` exist with count at least 1) makes its decrement take only tiles that are there |
| Engine.RecBuild | src/parser/i13s.rs:37-108 | the recursive builder returns exactly `Enumerate`: emit at the end, skip a zero count, then the pair, triplet, quad and sequence branches in that order, terminating on (total count, distinct tiles − cursor) |
| Engine.TakeThenBuild | src/parser/i13s.rs:52-58 | one branch decrements, appends the new mentsu and recurses at the same cursor |
| Engine.PushAll | src/parser/i13s.rs:56-58 | pushing a branch's results appends them in order |
| EngineProofs.EnumerateSound | src/parser/i13s.rs:37-108 | every grouping emitted extends the prefix by mentsu that use the counted multiset exactly: no tile left over, none invented |
| EngineProofs.EnumerateComplete | src/parser/i13s.rs:37-108 | every grouping of the counted multiset is emitted, up to the order of its mentsu |
| EngineProofs.SequenceStartsAtCursor | src/parser/i13s.rs:84-105 | a sequence holding the smallest tile still present starts at that tile and passes the sequence guard, which is why branching only at the cursor loses nothing |
| EngineProofs.CursorGroup | src/parser/i13s.rs:46-105 | every grouping has a mentsu holding the cursor tile that one of the branches takes |
| Engine.Winning | src/parser/i13s.rs:20-31 | the retained groupings are exactly those with four triplets, quads or sequences and one pair |
| Engine.RetainWinning | src/parser/i13s.rs:20-31 | the in-place `retain` computes `Winning` |
| Engine.SortHandCorrect | src/parser/i13s.rs:154-156 | `h.sort()` gives a sorted permutation of the hand |
| Engine.OpenAt | src/parser/i13s.rs:117-152 | the copy for group i fails iff the group is a quad; otherwise group i is opened on a ron and given its wait, and all other groups are untouched |
| Engine.BasicToOpen | src/parser/i13s.rs:110-163 | the nested loops return the set of sorted variants of every group holding the winning tile, or the quad failure |
| Engine.Build | src/parser/i13s.rs:10-34 | counting, enumerating, retaining and annotating compose to `BuildSpec` |
| BuildProofs.WaitClassification | src/parser/i13s.rs:127-152 | pair gives tanki and triplet shanpon; a quad has no wait; a sequence gives kanchan iff the tile is its middle, penchan iff the tile is the 3 of 1-2-3 or the 7 of 7-8-9, ryanmen otherwise |
| BuildProofs.VariantsOfMember | src/parser/i13s.rs:116-157 | the variants of one hand are exactly the sorted copies, one per group holding the winning tile; a hand with no such group gives nothing |
| BuildProofs.AllVariantsMember | src/parser/i13s.rs:115-157 | the set holds exactly the sorted copies over every hand and every group holding the winning tile |
| BuildProofs.BuildSound | src/parser/i13s.rs:10-163 | every hand `build` returns is a sorted copy of a winning grouping of the input tiles, annotated at a non-quad group that holds the winning tile |
| BuildProofs.BuildComplete | src/parser/i13s.rs:10-163 | for every winning grouping and every group in it holding the winning tile, the annotated sorted copy is returned, or `build` fails because that group is a quad |
| BuildProofs.BuildFailsOnQuadWait | src/parser/i13s.rs:151 | `build` fails iff some winning grouping has a quad holding the winning tile |
| BuildProofs.WinningHandSize | src/parser/i13s.rs:20-31 | a retained grouping has exactly five mentsu |
| BuildProofs.VariantShape | src/parser/i13s.rs:117-152 | a variant has exactly one annotated group, the same numbers of bodies and pairs, and its annotated group holds the winning tile, is open iff ron and carries the wait `WaitFor` gives; every other group is closed |
| BuildProofs.BuildOutputShape | src/parser/i13s.rs:10-163 | every returned hand is sorted, has four bodies and one pair, and carries exactly one wait, on a group holding the winning tile that is open iff ron; all other groups are closed |
| Sorting.SortCorrect | src/parser/i13s.rs:156 | the sort returns a sorted permutation of its input |
| Sorting.SortCanonical | src/parser/i13s.rs:154-157 | sorting is idempotent and fixes sorted lists; two hands sort alike iff they are permutations of each other, which is what deduplication relies on |
| Sorting.SortedUnique | src/parser/i13s.rs:154-157 | two sorted permutations of each other are equal |
| Score.RoundUp10 | src/score.rs:41-45 | the result is the smallest multiple of 10 at or above the raw total: it rounds up, not to the nearest |
| Score.Fu | src/score.rs:8-46 | the loop computes the base, wait points and group points and rounds up to ten |
| Score.FuBounds | src/score.rs:11-15 | fu is at least 20, is a multiple of 10, and is below every other multiple of 10 at or above the raw total |
| Score.GroupFuTable | src/score.rs:24-36 | group points: sequence and pair 0; triplet 4 and quad 16, halved when open, doubled for honor or entirely-terminal groups |
| Score.SumFuAppend | src/score.rs:17-39 | the points of two runs of groups add up |
| Score.MinimumFu | src/score.rs:8-46 | a closed hand of sequences and pairs with no wait other than ryanmen scores 30 on a ron and 20 on a tsumo |
| Score.NoGroupPoints | src/score.rs:17-39 | such a hand earns no wait or group points |
| RegularYaku.TanyaoByTiles | src/yaku/regular.rs:11 | Tanyao holds iff no tile of any group is a terminal, so honor groups never break it |
| RegularYaku.TerminalMembers | src/mentsu/mod.rs:71-76 | `contains_terminal` holds iff one of the group's tiles is a terminal |
| RegularYaku.MenzenTsumoOnlyOnTsumo | src/yaku/regular.rs:18 | on a hand the engine builds, menzen tsumo can only hold for a tsumo win, since a ron opens the completed group |
| RegularYaku.JunchanImpliesChanta | src/yaku/regular.rs:47-54 | Junchan implies Chanta |
| RegularYaku.ChantaAndTanyao | src/yaku/regular.rs:11-47 | Chanta and Tanyao both hold iff every group is an honor group |
| RegularYaku.FirstPair | src/yaku/regular.rs:63 | `find(pair).unwrap()` is the first index holding a pair |
| RegularYaku.PinfuMinimumFu | src/yaku/regular.rs:61-66 | a pinfu hand with at most one annotated group scores the minimum fu: 30 on a ron, 20 on a tsumo |
| RegularYaku.PinfuOnBuiltHand | src/yaku/regular.rs:61-66 | Pinfu never reaches its `unwrap` panic on a hand the engine builds, and a pinfu hand so built scores the minimum fu |
| RegularYaku.DragonTripletKind | src/yaku/regular.rs:68-111 | each dragon yakuhai needs a group of kind exactly `Triplet` of honor 5, 6 or 7 respectively; a quad does not count |
| RegularYaku.SanankouPermutation | src/yaku/regular.rs:118 | Sanankou (three or more closed triplets or quads) does not depend on the order of the groups |
| RegularYaku.ToitoiShapes | src/yaku/regular.rs:215 | Toitoi holds iff every group is a triplet, a quad or a pair |
| RegularYaku.FindTwin | src/yaku/regular.rs:133-137 | the search returns the first other index with an equal kind, or nothing iff there is none |
| RegularYaku.ScanIipeikou | src/yaku/regular.rs:154-166 | the Iipeikou loop returns true iff some sequence has a twin at another index |
| RegularYaku.FirstTwinned | src/yaku/regular.rs:127-137 | the first sequence at or after a position that has a twin |
| RegularYaku.FirstTwin | src/yaku/regular.rs:133-137 | the first twin of a group at or after a position |
| RegularYaku.ScanRyanpeikou | src/yaku/regular.rs:125-147 | the Ryanpeikou loop, with its `twin_idx` record, returns exactly `Ryanpeikou`: a second twinned sequence outside the first recorded pair |
| RegularYaku.RyanpeikouImpliesIipeikou | src/yaku/regular.rs:125-166 | Ryanpeikou as written implies Iipeikou |
| RegularYaku.RyanpeikouThreeTwins | src/yaku/regular.rs:125-147 | the loop as written accepts three identical sequences and a pair |
| RegularYaku.ThreeTwinsNotFixed | src/yaku/regular.rs:120-148 | the corrected Ryanpeikou (two pairs of identical sequences at four distinct positions) rejects that hand |
| RegularYaku.RyanpeikouFixedSound | src/yaku/regular.rs:120-166 | the corrected Ryanpeikou implies Iipeikou and the loop as written |
| RegularYaku.SuitMatchesMeaning | src/yaku/regular.rs:175-180 | the filtered count reaches 1 or 2 exactly when there are that many other indexes `eq_diff_suits` with the group |
| RegularYaku.ScanSanshoku | src/yaku/regular.rs:168-209 | both Sanshoku loops (triplet shape for doukou, sequence shape for doujun) return exactly `Sanshoku` |
| RegularYaku.SanshokuWitnesses | src/yaku/regular.rs:168-209 | Sanshoku as written holds iff a group of the shape has two other distinct groups `eq_diff_suits` with it |
| RegularYaku.SanshokuTwoColours | src/yaku/regular.rs:189-209 | as written, 123m with 123p twice passes doujun, though it has only two colours; the corrected predicate rejects it |
| RegularYaku.SanshokuFixedSound | src/yaku/regular.rs:168-209 | the corrected Sanshoku implies the as-written one and finds three groups in pairwise different suits |
| RegularYaku.Progress | src/yaku/regular.rs:227-239 | the `seqs` counter never exceeds 3 |
| RegularYaku.ProgressMeaning | src/yaku/regular.rs:227-239 | the counter reaches 1, 2 and 3 exactly when the suit's groups, in list order, hold a sequence starting at 1, then also one at 4, then also one at 7 |
| RegularYaku.ScanIttsuu | src/yaku/regular.rs:222-243 | the Ittsuu loop over the four suits returns true iff one suit has sequences starting at 1, 4 and 7 in list order |
| RegularYaku.ScanSuit | src/yaku/regular.rs:227-239 | one pass over the groups of a suit returns true iff that suit has sequences starting at 1, 4 and 7 in list order |
| RegularYaku.HeadingsFirst | src/yaku/regular.rs:6-41 | `REGULAR_YAKU` opens with Tanyao and Menzen-tsumo (1 han, not allowed open) and the round and seat wind yakuhai (1 han, full when open), with the source's names and descriptions |
| RegularYaku.HeadingsMiddle | src/yaku/regular.rs:42-82 | then Chanta (2 han, reduced), Junchan (3, reduced), Pinfu (1, not allowed open) and the white dragon (1, full) |
| RegularYaku.HeadingsRest | src/yaku/regular.rs:83-244 | then, in order: the green (1 han) and red (2) dragons and Sanankou (2), full; Ryanpeikou (3) and Iipeikou (1), not allowed open; Sanshoku doukou (2, full); Sanshoku doujun (2, reduced); Toitoi (2, full); Ittsuu (2, reduced) |
| RegularYaku.MeaningPlain | src/yaku/regular.rs:6-55 | `valid_for` on Tanyao, Menzen-tsumo, Chanta and Junchan is exactly the no-terminal, nothing-open, terminal-or-honor and terminal conditions on every group |
| RegularYaku.MeaningWinds | src/yaku/regular.rs:20-41 | the two wind entries check the round wind and the seat wind of the player state |
| RegularYaku.MeaningPinfu | src/yaku/regular.rs:56-67 | the Pinfu entry is defined exactly when a triplet stops the `&&` first or the hand has a pair for the `unwrap`, and then it is `Pinfu` |
| RegularYaku.MeaningTriplets | src/yaku/regular.rs:68-119 | the dragon entries check a triplet of 5z, 6z or 7z; Sanankou checks three closed triplets |
| RegularYaku.MeaningPatterns | src/yaku/regular.rs:120-244 | Ryanpeikou and the two Sanshoku apply the predicate the table is built with; Iipeikou, Toitoi and Ittsuu apply theirs |
| RegularYaku.PatternPositions | src/yaku/regular.rs:5-245 | the table has seventeen entries; Ryanpeikou is entry 11 and the two Sanshoku are entries 13 and 14 |
| RegularYaku.TablesDiffer | src/yaku/regular.rs:120-209 | the corrected `Table` applies `RyanpeikouFixed` and `SanshokuFixed` where `TableAsWritten`, the table as the source runs it, applies the as-written `Ryanpeikou` and `Sanshoku` |
| Yakuman.NoSequences | src/yaku/yakuman.rs:9-16 | all honors or all terminals implies no sequence, and all terminals implies no honor group |
| Yakuman.SuuankouImpliesSanankou | src/yaku/yakuman.rs:23 | Suuankou implies Sanankou |
| Yakuman.ChinroutouImpliesJunchanAndToitoi | src/yaku/yakuman.rs:16 | Chinroutou implies Junchan and Toitoi; Tsuuiisou implies Chanta and Toitoi |
| Yakuman.TsuuiisouAndChinroutou | src/yaku/yakuman.rs:9-16 | the two hold together only for the empty list |
| Yakuman.TableMeaning | src/yaku/yakuman.rs:3-25 | `YAKUMAN` is Tsuuiisou and Chinroutou (99 han, full when open) and Suuankou (99, not allowed open), each applying its predicate |
| Weird.CountOthers | src/yaku/weird.rs:23-28 | the filtered count is the number of other positions holding the same tile |
| Weird.ScanChiitoi | src/yaku/weird.rs:21-35 | the Chiitoi loop returns true iff every position has exactly one other equal tile |
| Weird.ChiitoiPairs | src/yaku/weird.rs:21-35 | Chiitoi holds on the empty hand; it holds iff every distinct tile occurs exactly twice; then the length is even |
| Weird.ScanKokushi | src/yaku/weird.rs:42-68 | the Kokushi loop as written returns false on every input |
| Weird.ScanKokushiFixed | src/yaku/weird.rs:42-68 | the loop with the pair counted once returns true iff no tile is simple, none occurs three times or more, and exactly one tile occurs twice |
| Weird.ThirteenOrphansAccepted | src/yaku/weird.rs:42-68 | the corrected Kokushi accepts the thirteen orphans with a second 1m |
| Weird.KokushiHasAllOrphans | src/yaku/weird.rs:38-39 | on fourteen tiles with honor values 1 to 7, the corrected Kokushi holds only when every one of the thirteen terminals and honors occurs |
| Weird.TableMeaning | src/yaku/weird.rs:15-70 | `WEIRD_YAKU` is Chiitoi (2 han) and Kokushi musou (99 han), both not allowed open; the Kokushi entry applies the corrected `Kokushi`, since the loop as written (`Weird.ScanKokushi`) rejects every hand |
| Parser.DigitValue | src/parser/mod.rs:14 | a digit's value is at most 9 |
| Parser.Spread | src/parser/mod.rs:32-34 | flushing the buffer makes one tile of the suit per buffered value, in order |
| Parser.PushSpread | src/parser/mod.rs:32-34 | the push loop appends exactly the flushed tiles, in buffer order, after what was already read |
| Parser.Parse | src/parser/mod.rs:8-42 | the loop reading the notation, with its digit buffer, computes `ParseSpec` |
| Parser.ParseCorrect | src/parser/mod.rs:8-42 | a successful parse returns the tiles read, sorted; the winning tile has the value of the char at len−2 and the suit of the last char, and is itself in the hand; the method is ron iff the char at len−3 exists and is whitespace |
| Parser.ParseFails | src/parser/mod.rs:12-37 | parsing fails iff the char at len−2 is not a digit, the last char is not a suit letter, or some suit position holds an unknown letter |
| Parser.ReadAppend | src/parser/mod.rs:26-37 | reading s then t is reading s and then t from the digits s leaves in the buffer |
| Parser.DigitsOnly | src/parser/mod.rs:27-30 | digits only fill the buffer and add no tiles |
| Parser.ReadIgnores | src/parser/mod.rs:26-37 | trailing digits without a suit are dropped, and a non-digit with an empty buffer adds nothing |
| Parser.ReadRender | src/parser/mod.rs:26-37 | reading the notation written for a list of runs gives back exactly the tiles of those runs and leaves the buffer empty |
| Parser.ReadEndsWithWin | src/parser/mod.rs:12-37 | the last tile read is the winning tile, so the hand always includes it |
| Parser.ParseRendered | src/parser/mod.rs:8-42 | writing runs, a space and the winning tile parses to those tiles plus the winning tile, with that winning tile, as a ron |
| Parser.Interpret | src/parser/mod.rs:44-48 | `interpret` returns exactly `build` |
| Parser.PrependAssoc | src/parser/mod.rs:33 | pushing two batches of tiles is pushing their concatenation |
| LegacyTiles.SimpleIncludesHonors | src/tile.rs:22-28 | the older `simple` is `!terminal`: it holds iff the newer `simple` or the tile is an honor, so honors count as simple |
| LegacyTiles.HonorIsSimple | src/tile.rs:26-28 | 5z is simple under the older definition and not under the newer one |
| LegacyMentsu.Code | src/mentsu.rs:39-48 | every older wait code has three letters |
| LegacyMentsu.CodeInjective | src/mentsu.rs:39-48 | the codes RMN, KCN, PCN, TNK, SHP are pairwise distinct |
| LegacyMentsu.DerivedEquality | src/mentsu.rs:5 | equality is derived over all fields: opening a new mentsu makes it a different value, though the newer kind-only `==` calls them equal |
| LegacyMentsu.BuildMentsu | src/mentsu.rs:144-152 | `build_mentsu` counts the tiles and enumerates from cursor 0 with no prefix |
| LegacyMentsu.BuildMentsuSound | src/mentsu.rs:155-240 | every grouping returned uses the input tiles exactly |
| LegacyMentsu.BuildMentsuComplete | src/mentsu.rs:155-240 | every grouping of the input tiles is returned, up to the order of its mentsu |
| LegacyMentsu.Unfiltered | src/mentsu.rs:144-152 | no winning filter applies: a lone pair is returned, though it is not a winning hand |
| LegacyYaku.PinfuDraftWeaker | src/yaku.rs:55-58 | the older Pinfu (no triplet, pair not honor) follows from the newer one, and accepts a lone 22m pair that the newer one rejects |
| LegacyYaku.PairsOf | src/yaku.rs:97 | a pair per tile, in order |
| LegacyYaku.PairsOfGroup | src/yaku.rs:97 | those pairs group the doubled tiles and are all pairs |
| LegacyYaku.ChiitoiOnlyUnfiltered | src/yaku.rs:97 | a seven-pairs reading is never a winning grouping, but the unfiltered older builder does return one for seven doubled tiles |
| LegacyYaku.RegularTableMeaning | src/yaku.rs:16-68 | the older regular table is Tanyao, Chanta, Junchan, the draft Pinfu (defined iff there is a triplet or a pair) and Toitoi (no sequence), applied by `valid_for` |
| LegacyYaku.OtherTablesMeaning | src/yaku.rs:70-107 | the older yakuman are Tsuuiisou and Chinroutou; Chiitoi counts exactly seven pairs; Kokushi (`\|_\| true`) accepts everything |

## Left out

- Round and seat wind yakuhai (src/yaku/regular.rs:25-40) call `m.wind()`, which no file of the source defines, so `RegularYaku.WindYakuhai` takes the wind of a group as a parameter.
- The one-argument `fn(&[Mentsu]) -> bool` of src/yaku/mod.rs does not match the two-argument closures of the tables. The yaku record uses the two-argument form, with the player state passed through.
- src/player_state.rs contributes only its data types.
- src/yaku/conditional.rs (a table of constant `true`) and src/main.rs (a prototype) are not part of this model.
- `Suit::iter()` comes from an external derive, so `RegularYaku.ScanIttsuu` walks the fixed list Man, Pin, Sou, Honor.
- src/tile/suit.rs (the newer suit type) is not part of this model. The model reuses the variants of src/suit.rs, and the tile order assumes their declaration order.
- Tiles.Add: does not model `u32` overflow of `value + rhs`; integers are unbounded, and values are at most 9.
- Score.Fu: does not model `u32` overflow of the total; a 14-tile hand stays far below it.
- Parser.Parse: requires an ASCII string of at least two chars.
  - The source indexes bytes as chars and slices at `len - 3`. On a two-char string that subtraction underflows; the model treats it as "no char there", which gives a tsumo.
  - `Suit::from`'s panic on an unknown letter becomes the error value `UnknownSuit`.
  - `dbg!` output is not modelled.
- Display of tiles and of mentsu depends on the unseen suit display. `Kinds.Show` therefore takes the tile text as a parameter, and only the kind tags are fixed.
- The `HashSet` iteration order of `basic_to_open` is not modelled; the result is a set. The `PartialEq`/`Hash` mismatch is resolved as `Hash` resolves it: the set holds full values. The model does not capture the case where the source drops one of two hands that differ only in annotations because their hash tags collide. That drop depends on the randomly seeded hasher, and the standard library leaves the behaviour of such a mismatch unspecified.
- The setters `set_open` and `set_win_wait` mutate a mentsu through `&mut self`. They are modelled as functional updates, since every use works on a fresh copy.
- `slice::sort` is a library routine, modelled as insertion sort. Its result is unique, because the order is total.
- The older generation does not compile as shown:
  - `src/tile.rs` has no order, no `add` and no `honor`, but `src/mentsu.rs` uses them.
  - The legacy modules use the newer tile order, `add` and `honor`.
  - The older `rec_build` and `decrement` are the same text as the newer ones, so `LegacyMentsu` reuses the engine's enumeration.
- The older mentsu's derived order and its `Display` are not modelled.
- `RegularYaku.Table` and `Weird.Table` use the corrected Kokushi, Ryanpeikou and Sanshoku. `RegularYaku.TableAsWritten` keeps the as-written Ryanpeikou and Sanshoku. The as-written Kokushi is the loop `Weird.ScanKokushi`, which rejects every hand, so the weird table has no as-written twin. The Findings below list all three.

## Findings

| source | as written | input that shows it | evidently intended | confidence | as-written member | corrected member |
|---|---|---|---|---|---|---|
| src/yaku/weird.rs:42-68 | both copies of the duplicated tile see exactly one other copy, so the second of them returns false and Kokushi accepts no hand at all | `Weird.ThirteenOrphans`: 1m 9m 1p 9p 1s 9s 1z–7z and a second 1m | no simple tile, no tile three times, exactly one tile twice | not executed | Weird.ScanKokushi | Weird.ScanKokushiFixed (with Weird.ThirteenOrphansAccepted) |
| src/yaku/regular.rs:125-147 | a third copy of an already-recorded sequence finds the first copy as its twin, so three identical sequences pass as Ryanpeikou | `RegularYaku.ThreeTwins`: 123m three times and a pair (`RegularYaku.RyanpeikouThreeTwins`) | two pairs of identical sequences at four distinct positions | not executed | RegularYaku.ScanRyanpeikou | RegularYaku.RyanpeikouFixed (with RegularYaku.ThreeTwinsNotFixed and RegularYaku.RyanpeikouFixedSound) |
| src/yaku/regular.rs:189-209 | the two matches only need suits different from the first group, not from each other, so two colours pass Sanshoku | `RegularYaku.TwoColours`: 123m, 123p, 123p (`RegularYaku.SanshokuTwoColours`) | three groups in three different suits | not executed | RegularYaku.ScanSanshoku | RegularYaku.SanshokuFixed (with RegularYaku.SanshokuFixedSound) |

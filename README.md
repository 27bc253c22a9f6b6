# CLS case classifier, modelled in Dafny

This project models the classification core of a 3x3x3 "CLS" (corners of the
last layer with a corner-slot insertion) case browser. It has two parts.

- **Orientation normalization** (`src/normalizeOrientation.ts`):
  - the `(idxU, idxL)` key of a state's center permutation;
  - the one-time construction of the 6x6 cache of the 24 whole-cube
    rotations, filled in place by a nested loop;
  - `normalizePuzzleOrientation`, which combines a state with the cache cell
    at its own key.
- **Case classification** (`src/index.ts`):
  - the tables `coInverse` and `drfPlacedCases`;
  - `checkIsCLS`, which validates a state with early exit and returns the
    text of the first failing check;
  - `preNormalize`;
  - `clsCaseName`. Its first branch searches the four AUF rotations of the
    top corner twists in the placed-DRF table. Its second branch applies the
    AUF and encodes the remaining twists as a base-3 index behind an O / + /
    - prefix;
  - `clsCaseNameForAlg`;
  - the module-level loop that files every algorithm record into the `cases`
    dictionary under its case name.

The puzzle library (cubing.js) is not modelled. Its operations are the fields
of the `Kinematics` datatype and are never looked into:

- combine, invert, applying an algorithm or a block move;
- parsing an algorithm, inverting an algorithm;
- the solved state.

Where a property needs something of the library, it says so in a hypothesis.
There are three such hypotheses:

- `Lawful`: the library keeps states of the 3x3x3 well formed. A
  well-formed state has a permutation of 6 centers, 12 edges and 8 corners.
  Edge twists lie in 0..1 and corner twists in 0..2. The classifier never
  reads center orientation, so center twists are only bounded by the four
  quarter turns, 0..3.
- `RotationsWellFormed`: the 24 rotation states have keyable centers. It
  follows from `Lawful`.
- `DistinctKeys`: the 24 rotations have distinct keys.

Files:

| file | module | models |
|---|---|---|
| `kinematics.dfy` | `Kinematics` | states as three orbits (6 centers, 12 edges, 8 corners) of permutation and orientation sequences; the library's operations |
| `normalize_orientation.dfy` | `NormalizeOrientation` | the key, the cache class `OrientationCache` and its constructor, normalization |
| `cls_check.dfy` | `ClsCheck` | `checkIsCLS` and its scan order |
| `cls_case.dfy` | `ClsCase` | the tables, `preNormalize`, `clsCaseName`, `clsCaseNameForAlg` |
| `case_grouping.dfy` | `CaseGrouping` | the `cases` dictionary (class `CaseTable`) and the loop that fills it |

What `clsCaseName` returns is the datatype `ClsCase.Outcome`:

- `Threw`: the lookup of the state's key in the orientation cache cannot
  be completed. The read itself throws only when idxU lies outside 0..5 or
  the centers orbit is empty: the outer array then gives undefined, and
  indexing that throws. With idxU in 0..5, an idxL outside 0..5 or a
  one-center orbit (idxL undefined) reads undefined from the inner array
  without throwing, and so does an empty cell. The source hands that
  undefined to the library's `Combine`, and that call is modelled as a
  throw.
- `Returned(name)`, where the name is one of:
  - `NotCLS`: the empty string;
  - `Placed(n)`: a table name;
  - `Unmatched`: the undefined returned when the placed search misses;
  - `Shape(prefix, index)`: the name built from a prefix and an index;
  - `ShapeNaN(prefix)`: a prefix followed by NaN;
  - `NoPrefix`: the text of an unset prefix and index.

The last two, and `Unmatched`, are what the source does with malformed input.
`ClsCase.LawfulNamesAreReal` proves that a well-formed state never gets them, and `ClsCase.NeverThrows` that it is never `Threw`, when the rotations have distinct keys.

### Behaviour that is easy to misread

- The placed-table branch runs when the DRF corner (identity 4) sits at
  **slot 4**, its own home slot, not at slot 0 (`src/index.ts:110-112`).
- Every other position goes to the AUF branch: slot 0 with AUF 0, and also
  slots 5-7 or an absent DRF (`indexOf` gives -1, AUF -1)
  (`src/index.ts:121-125`).
- Edge orientation is checked for all twelve edges, including the top edges
  0-3 (`src/index.ts:71-78`).
- The "+" index uses reversed weights, `9·coInverse[ori[1]] +
  3·coInverse[ori[2]] + coInverse[ori[3]]` (`src/index.ts:139-142`). It is
  still a bijection onto 0..26 (`ClsCase.ShapeDecodes`,
  `ClsCase.ShapeEncodes`).
- A miss of the placed search returns undefined, not an empty or sentinel
  name (`src/index.ts:112-121`).
- A failed cache lookup is modelled as a throw
  (`src/normalizeOrientation.ts:57-58`).

## Model

| member | source | states |
|---|---|---|
| NormalizeOrientation.PuzzleOrientationIdx | src/normalizeOrientation.ts:14-26 | idxU is the center in slot 0; idxL is the center in slot 1 minus how many of the slot-0 and slot-5 centers are strictly below it, a missing slot 5 never counting; so idxL lies between the slot-1 center less two and the slot-1 center |
| NormalizeOrientation.ShortOrbitKey | src/normalizeOrientation.ts:14-26 | an orbit without slot 5 is keyed from slots 0 and 1 alone: [0,1,2,3,4] has key (0, 0) |
| NormalizeOrientation.TiltAlgs | src/normalizeOrientation.ts:37-39 | the six tilts "", z, x, z', x', x2, in the order the build applies them |
| NormalizeOrientation.YAlg | src/normalizeOrientation.ts:40 | the turn y applied four times after each tilt |
| NormalizeOrientation.KeyInRange | src/normalizeOrientation.ts:14-32 | distinct slot-0, slot-1 and slot-5 centers in 0..5 give idxU in 0..5 and idxL in 0..3, inside the 6x6 cache |
| NormalizeOrientation.IdentityKey | src/normalizeOrientation.ts:14-26 | the identity center permutation has key (0, 0) |
| NormalizeOrientation.NthFreeFinds | src/normalizeOrientation.ts:17-24 | counting the free center values from v reaches the left center after as many steps as idxL's compression leaves |
| NormalizeOrientation.KeyDecodes | src/normalizeOrientation.ts:17-24 | round trip: the key and the down center give back the left center |
| NormalizeOrientation.KeyInjective | src/normalizeOrientation.ts:17-24 | for fixed up and down centers, distinct left centers give distinct keys |
| NormalizeOrientation.TiltOf | src/normalizeOrientation.ts:41-51 | write n belongs to the tilt u with 4u <= n < 4u+4: four writes per tilt |
| NormalizeOrientation.SpunWellFormed | src/normalizeOrientation.ts:44-45 | with a lawful library, applying y any number of times keeps a state well formed |
| NormalizeOrientation.WellFormedKeyable | src/normalizeOrientation.ts:14-26 | a well-formed state has six centers with distinct up, left and down identities in 0..5 |
| NormalizeOrientation.LawfulRotations | src/normalizeOrientation.ts:41-51 | with a lawful library every rotation state the builder keys is keyable |
| NormalizeOrientation.WriteKey | src/normalizeOrientation.ts:46 | the key of every write lies in the 6x4 corner of the cache |
| NormalizeOrientation.WriteKeysAt | src/normalizeOrientation.ts:41-51 | the m-th recorded key is the key of the m-th write, in write order |
| NormalizeOrientation.FillKeys | src/normalizeOrientation.ts:35-53 | after n writes a cell is filled exactly when one of those writes used its key; cells never written stay empty |
| NormalizeOrientation.FillInRange | src/normalizeOrientation.ts:28-53 | only cells inside the 6x4 corner are ever filled |
| NormalizeOrientation.WriteIndex | src/normalizeOrientation.ts:41-44 | write 4u+i belongs to tilt u |
| NormalizeOrientation.WriteStateAt | src/normalizeOrientation.ts:42-45 | write i of tilt u keys the reset state with tilt u applied, then y applied i+1 times |
| NormalizeOrientation.DistinctWrites | src/normalizeOrientation.ts:41-51 | under distinct keys, the 24 recorded keys are pairwise different |
| NormalizeOrientation.FillDistinct | src/normalizeOrientation.ts:47-50 | under distinct keys, the cell at the m-th write's key holds the inverse of the m-th state |
| NormalizeOrientation.FilledCells | src/normalizeOrientation.ts:35-53 | after all 24 writes, cell (a, b) is filled exactly when (a, b) is one of the written keys |
| NormalizeOrientation.StoreRotation | src/normalizeOrientation.ts:46-50 | one write: the key computed is the write's own key, Invert(state) is stored there, and no other cell changes |
| NormalizeOrientation.SpinOnce | src/normalizeOrientation.ts:44-50 | one round of the inner loop: y applied once more, and the cache then holds one more write |
| NormalizeOrientation.SpinAndStore | src/normalizeOrientation.ts:44-51 | the inner loop: after four rounds of applying y and storing, the cache holds the first 4u+4 writes |
| NormalizeOrientation.OrientationCache.Build | src/normalizeOrientation.ts:28-53 | the built cache holds exactly the 24 writes, each state reset before its tilt, and its cells are filled exactly at the written keys |
| NormalizeOrientation.OrientationCache.Cell | src/normalizeOrientation.ts:57 | the cell read at a key is what the 24 writes left there, and None outside the array |
| NormalizeOrientation.OrientationCache.Normalize | src/normalizeOrientation.ts:55-59 | succeeds exactly when the input has at least two centers (so its key is defined) and its own key's cell is filled, and then returns Combine(input, cell) |
| NormalizeOrientation.OrientationCache.NormalizeLikeRotation | src/normalizeOrientation.ts:55-59 | under distinct keys, a state keyed like the m-th rotation is combined with that rotation's inverse |
| NormalizeOrientation.EveryCellWritten | src/normalizeOrientation.ts:28-53 | under distinct keys the 24 writes fill every cell of the 6x4 corner (pigeonhole over the 24 places) |
| NormalizeOrientation.OrientationCache.NormalizeTotal | src/normalizeOrientation.ts:55-59 | under distinct keys, normalizing a state whose up, left and down centers are distinct identities in 0..5 never fails |
| NormalizeOrientation.OrientationCache.CacheHoldsEveryRotation | src/normalizeOrientation.ts:35-53 | under distinct keys, each of the 24 rotations sits in the cell at its own key |
| ClsCheck.EdgeNames | src/index.ts:59 | the twelve edge names UF .. BL in slot order |
| ClsCheck.CornerNames | src/index.ts:60 | the eight corner names UFR .. DBR in slot order |
| ClsCheck.CenterNames | src/index.ts:61 | the six center names U, L, F, R, B, D in slot order |
| ClsCheck.Home | src/index.ts:66-84 | the piece of `slot` sits in `slot`; a slot past the end reads as undefined, which `!==` never equates with the slot |
| ClsCheck.Untwisted | src/index.ts:72-81 | the piece in `slot` has orientation 0; a slot past the end reads as undefined, which `!= 0` counts as misoriented |
| ClsCheck.Position | src/index.ts:65-85 | every check of the scan has a place below 32 |
| ClsCheck.Next | src/index.ts:65-85 | the successor of a check is the check one place later: centers 0-5, then per edge placement (edges 4-11) before orientation (all edges), then corners 5-7 placement before orientation; only the last check has none |
| ClsCheck.PositionInjective | src/index.ts:65-85 | distinct checks come at distinct places |
| ClsCheck.FirstFaultFromIsFirst | src/index.ts:65-87 | the scan from a check finds nothing exactly when every later check passes; what it reports fails, and every check before it passes |
| ClsCheck.Describe | src/index.ts:57-84 | the reason text of a failing check is never empty |
| ClsCheck.CheckIsCLS | src/index.ts:65-88 | ok exactly when no check fails; the reason is the text of the first failing check; ok exactly when the reason is empty |
| ClsCheck.CLSPassesScan | src/index.ts:65-88 | a CLS state passes every check of the scan |
| ClsCheck.ScanCoversCLS | src/index.ts:65-88 | a state is CLS exactly when it passes every check of the scan |
| ClsCheck.CheckAcceptsExactlyCLS | src/index.ts:65-88 | the check accepts exactly the states with all centers fixed, edges 4-11 fixed, all 12 edges untwisted and corners 5-7 fixed and untwisted |
| ClsCheck.FaultIsFirstInScan | src/index.ts:65-86 | on failure the reported check fails and every check scanned before it passes |
| ClsCheck.FaultIsFirstOrEarlier | src/index.ts:65-86 | a failing check preceded only by passing checks is the one reported |
| ClsCheck.SolvedIsCLS | src/index.ts:65-88 | the solved state passes |
| ClsCheck.TwistedTopEdgeReported | src/index.ts:71-78 | with centers fixed, a twisted UF edge is reported as "UF edge is misoriented", though top edges may move |
| ClsCheck.TwistedUFText | src/index.ts:58-76 | the text for a twisted UF edge |
| ClsCase.CoInverse | src/index.ts:27 | the twist that undoes twists 0, 1, 2: [0, 2, 1] |
| ClsCase.DrfPlacedCases | src/index.ts:30-55 | the 24 placed-DRF case names I0-I7, Im0-Im7 and C0-C7, each keyed by its four top-corner twists |
| ClsCase.CoInverseInvolution | src/index.ts:27 | coInverse maps twists to twists, is its own inverse and cancels a twist modulo 3 |
| ClsCase.TableName | src/index.ts:113-116 | a key of length four hits exactly when it is in the table with a non-empty name, and the hit is that name; no other key hits |
| ClsCase.PreNormalize | src/index.ts:90-94 | succeeds exactly when normalizing the inverse succeeds |
| ClsCase.PreNormalizeLikeRotation | src/index.ts:90-94 | a state whose inverse is keyed like the m-th rotation yields Invert(Combine(Invert(s), Invert(rotation m))) |
| NormalizeOrientation.FillWellFormed | src/normalizeOrientation.ts:47-50 | with a lawful library every filled cache cell is a well-formed state |
| ClsCase.PreNormalizeWellFormed | src/index.ts:90-94 | with a lawful library, pre-normalizing a well-formed state gives a well-formed state |
| ClsCase.IndexOf | src/index.ts:110 | -1 exactly when the value is absent; otherwise a slot holding it with no earlier slot holding it |
| ClsCase.AufAmount | src/index.ts:121-125 | for DRF in slots 0-3 the AUF is in -1..2 and equal to the slot modulo 4 quarter turns; it is the slot itself except for slot 3 |
| ClsCase.Lookup | src/index.ts:113 | the lookup key is the first four corner twists (all of them when fewer) |
| ClsCase.RotateLeft | src/index.ts:119 | the first twist moves to the end and the rest shift down by one |
| ClsCase.PlacedCaseName | src/index.ts:112-120 | the rotation loop returns what the search over AUFs 0-3 finds |
| ClsCase.PlacedSearchIsFirst | src/index.ts:112-121 | the search misses exactly when none of the four rotations is in the table; otherwise it returns the table name of the first rotation that is |
| ClsCase.PlacedExamples | src/index.ts:39-47 | "0000" names C0 and "1000" names Im0 |
| ClsCase.AufState | src/index.ts:108-127 | a fresh puzzle combined with the state, then turned by the block move U of the AUF amount |
| ClsCase.ShapeName | src/index.ts:126-149 | the AUF branch yields a shape name, a NaN index or an unset prefix, never a table name or the empty name |
| ClsCase.ShapeTwists | src/index.ts:129-149 | every index below 27 stands for three twists in 0..2 |
| ClsCase.Base3 | src/index.ts:131-147 | three twists weighted 1, 3, 9 give an index below 27 whose base-3 digits are those twists |
| ClsCase.ShapeDecodes | src/index.ts:126-149 | a URF twist of 0, 1 or 2 picks O, + or -; with valid twists the index is below 27 and decodes back to those twists |
| ClsCase.PlainDecodes | src/index.ts:131-147 | the "O" and "-" index of three twists is below 27 and decodes back to those twists |
| ClsCase.PlusDecodes | src/index.ts:139-142 | the reversed, complemented "+" index decodes back to the three twists |
| ClsCase.ShapeEncodes | src/index.ts:126-149 | every index below 27 of every prefix is the name of the twists it decodes to |
| ClsCase.PlacedName | src/index.ts:114-121 | the placed branch never yields the empty name |
| ClsCase.ClsCaseName | src/index.ts:99-151 | the method returns exactly what CaseNameOf defines: throws when the cache lookup fails, the empty name when the pre-normalized state is not CLS, the placed search when DRF is at slot 4, and the shape after the AUF otherwise |
| ClsCase.ClsCaseNameForAlg | src/index.ts:153-157 | names the state reached from a fresh puzzle by the inverse of the algorithm |
| ClsCase.EmptyNameExactlyForNonCLS | src/index.ts:101-107 | the empty name is returned exactly when the pre-normalized state is not a CLS state |
| ClsCase.PlacedOnlyWhenDrfHome | src/index.ts:110-120 | a table name comes only from a CLS state with DRF at slot 4 and in no earlier slot, and it is the table name of one of its four AUF rotations |
| ClsCase.RotateFour | src/index.ts:119 | one rotation of a four-twist key |
| ClsCase.RotationsOfFour | src/index.ts:113-120 | the four keys the loop tries are the four cyclic rotations |
| ClsCase.TableCoversEveryNecklace | src/index.ts:30-55 | some cyclic rotation of every pattern of four twists in 0..2 is a key of the table |
| ClsCase.TableNamesNonEmpty | src/index.ts:30-55 | every name in the table is non-empty |
| ClsCase.SearchHits | src/index.ts:112-120 | a named key among the four rotations makes the search hit |
| ClsCase.PlacedNeverMisses | src/index.ts:112-121 | on twists in 0..2 the placed search never falls off the end |
| ClsCase.FirstOfFour | src/index.ts:113-120 | the first of four lookups hits exactly when one of them does |
| ClsCase.SearchUnfolds | src/index.ts:112-120 | the search over a four-twist key is the first hit among its four AUF rotations, in order |
| ClsCase.FirstOfFourTurn | src/index.ts:112-120 | when all hits agree, starting the four lookups one AUF later finds the same |
| ClsCase.SearchIgnoresTurn | src/index.ts:112-120 | for a table with at most one key per cyclic class, one more AUF of the key finds the same name |
| ClsCase.NoKeyTurnedOnce | src/index.ts:30-55 | no key of the table is a different key turned by one AUF |
| ClsCase.NoKeyTurnedTwice | src/index.ts:30-55 | no key of the table is a different key turned by two AUFs |
| ClsCase.OneKeyPerNecklace | src/index.ts:30-55 | among the four AUF rotations of any pattern at most one is a key of the table |
| ClsCase.PlacedNameIgnoresAuf | src/index.ts:112-120 | on twists in 0..2 the placed name does not depend on the AUF the case is presented with |
| ClsCase.NeverThrows | src/index.ts:90-107 | with a lawful library whose rotations have distinct keys, pre-normalizing a well-formed state succeeds, so naming it never throws |
| ClsCase.LawfulNamesAreReal | src/index.ts:99-151 | with a lawful library whose rotations have distinct keys, a well-formed state is named (never a throw) and its name is empty, from the table, or a shape index below 27: never undefined, NaN or an unset prefix |
| CaseGrouping.GroupedBuckets | src/index.ts:159-167 | a bucket exists exactly for the names that occur, and holds the records of that name in input order |
| CaseGrouping.BucketOfAbsent | src/index.ts:159-167 | a name that never occurs has an empty bucket |
| CaseGrouping.BucketsPartition | src/index.ts:159-167 | no record is filed under two names: the buckets of two different names together are a sub-multiset of the records, so they hold at most all of them |
| CaseGrouping.GroupedStep | src/index.ts:159-167 | filing one more record extends the grouping by exactly one step |
| CaseGrouping.CaseTable.constructor | src/index.ts:159 | the dictionary starts empty |
| CaseGrouping.CaseTable.Push | src/index.ts:164-165 | the bucket is created empty if absent, the record is appended to it, and no other bucket changes |
| CaseGrouping.NameRecord | src/index.ts:160-162 | parses field 1 of the record and names the case that algorithm solves |
| CaseGrouping.FileNext | src/index.ts:160-166 | one pass of the loop: stops, changing nothing, when naming the record throws; otherwise the record is named and filed, extending the grouping by one record |
| CaseGrouping.AllNamedStep | src/index.ts:159-167 | naming one more record extends the named prefix |
| CaseGrouping.BuildCases | src/index.ts:159-167 | every record before the stopping point is named, and the dictionary is the grouping of those records by name; the loop stops only at a record whose naming throws |

## Left out

- The user interface: the DOM table, `TwistyPlayer`, SVG drawing, `setAlg` and renderer sharing (`src/index.ts:24`, `src/index.ts:169-223`).
- The `console.log` of the failure reason in `clsCaseName`. It has no effect on the result.
- The semantics of the puzzle library (combine, invert, algorithm and move application, `reset`, `BareBlockMove`, parsing, algorithm inversion). These are uninterpreted, so nothing is proved about which rotation normalization picks or that it leaves the centers solved.
- NormalizeOrientation.OrientationCache.Build: it does not prove that the 24 rotations have distinct keys. That depends on the library, so it is the hypothesis `DistinctKeys` wherever it is needed.
- `clsAlgs` and `planCLSSVGString` are not part of this model. The grouping loop runs over an arbitrary sequence of records.
- CaseGrouping.BuildCases requires every record to have an algorithm field (field 1). The model does not say what parsing a missing field would do.
- Text is not modelled:
  - Case names are a datatype, not strings.
  - The `cases` dictionary is keyed by that datatype rather than by the name text. The grouping is the same as long as distinct names have distinct texts, which holds for every name a well-formed state can get.
  - Placed-table keys are sequences of twists, not joined digit strings. They agree with the source whenever each twist is a single digit. For shorter orbits, the joined string's rotation `lookup.slice(1) + lookup[0]` of an empty string gives "undefined". That is modelled as an empty key, which misses the table just the same.
- Out-of-range reads the source makes on malformed states give JavaScript's undefined. These are modelled as the checks failing, the table missing, a missing slot 5 of the centers that never lowers idxL, or the `ShapeNaN` / `NoPrefix` names, as described above.
- NormalizeOrientation.OrientationCache.Normalize: an empty cache cell, an idxL outside 0..5 (with idxU in 0..5) and a one-center orbit (undefined idxL) all read undefined from the cache and leave `Combine` an undefined argument. What the library then does is not modelled; each is modelled as a throw, like the reads that throw in the source (idxU outside 0..5, an empty orbit).

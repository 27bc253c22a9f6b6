/** Naming a CLS case (src/index.ts): undo the whole-cube orientation of the
    inverse state, check that the state is a CLS case, and name it either from
    the table of cases with the DRF corner already placed or from the twist
    pattern of the top corners once an AUF has brought DRF to the URF slot. */
module ClsCase {
  import opened Kinematics
  import opened NormalizeOrientation
  import opened ClsCheck

  // ---------------------------------------------------------------------------
  // Tables

  /** `coInverse`: the twist a corner needs to undo twist `x`. */
  const CoInverse: seq<int> := [0, 2, 1]

  /** Undoing a twist twice gives the twist back. */
  lemma CoInverseInvolution(x: int)
    requires 0 <= x < 3
    ensures 0 <= CoInverse[x] < 3 && CoInverse[CoInverse[x]] == x
    ensures (x + CoInverse[x]) % 3 == 0
  {
  }

  /** Four twists of URF, UBR, ULB, UFL, the key of `drfPlacedCases`. */
  type PlacedKey = (int, int, int, int)

  /** `drfPlacedCases`: the name of each CLS case with the DRF corner placed,
      keyed by the twists of the four top corners. */
  const DrfPlacedCases: map<PlacedKey, string> := map[
    (2, 0, 0, 0) := "I0", (0, 0, 2, 2) := "I1", (0, 2, 0, 2) := "I2", (2, 0, 2, 1) := "I3",
    (0, 1, 2, 2) := "I4", (0, 2, 2, 1) := "I5", (2, 1, 1, 1) := "I6", (2, 2, 2, 2) := "I7",
    (1, 0, 0, 0) := "Im0", (0, 1, 1, 0) := "Im1", (0, 1, 0, 1) := "Im2", (1, 2, 1, 0) := "Im3",
    (0, 1, 1, 2) := "Im4", (0, 2, 1, 1) := "Im5", (1, 2, 2, 2) := "Im6", (1, 1, 1, 1) := "Im7",
    (0, 0, 0, 0) := "C0", (2, 2, 2, 0) := "C1", (1, 0, 1, 1) := "C2", (2, 1, 2, 1) := "C3",
    (1, 0, 2, 0) := "C4", (0, 2, 1, 0) := "C5", (0, 1, 2, 0) := "C6", (2, 2, 1, 1) := "C7"]

  /** The table entry for a lookup key: keys of any length other than four
      name nothing, and an empty name counts as a miss. */
  function TableName(table: map<PlacedKey, string>, lookup: seq<int>): (r: Option<string>)
    ensures r.Some? ==> |lookup| == 4 && r.value != ""
    ensures r.Some? ==> (lookup[0], lookup[1], lookup[2], lookup[3]) in table
    ensures r.Some? ==> r.value == table[(lookup[0], lookup[1], lookup[2], lookup[3])]
    ensures (|lookup| == 4 && (lookup[0], lookup[1], lookup[2], lookup[3]) in table
             && table[(lookup[0], lookup[1], lookup[2], lookup[3])] != "") ==> r.Some?
  {
    if |lookup| != 4 then None
    else
      var key := (lookup[0], lookup[1], lookup[2], lookup[3]);
      if key in table && table[key] != "" then Some(table[key]) else None
  }

  // ---------------------------------------------------------------------------
  // Pre-normalization

  /** preNormalize: normalize the orientation of the inverse state and invert
      back. None when the cache lookup cannot be completed. */
  function PreNormalize(cache: OrientationCache, s: Transformation): (r: Option<Transformation>)
    reads cache, cache.cells
    requires cache.Valid()
    ensures r.Some? <==> cache.Normalize(cache.kin.invert(s)).Some?
  {
    match cache.Normalize(cache.kin.invert(s))
    case None => None
    case Some(v) => Some(cache.kin.invert(v))
  }

  /** A state whose inverse is oriented like the `m`-th cached rotation has
      that rotation's inverse composed onto its inverse. */
  lemma PreNormalizeLikeRotation(cache: OrientationCache, s: Transformation, m: nat)
    requires cache.Valid() && DistinctKeys(cache.kin) && m < WriteCount
    requires |cache.kin.invert(s).centers.permutation| >= 2
    requires KeyOf(cache.kin.invert(s)) == WriteKey(cache.kin, m)
    ensures PreNormalize(cache, s) == Some(cache.kin.invert(cache.kin.combine(
      cache.kin.invert(s), cache.kin.invert(WriteState(cache.kin, m)))))
  {
    cache.NormalizeLikeRotation(cache.kin.invert(s), m);
  }

  /** Pre-normalizing a state of the 3x3x3 yields a state of the 3x3x3. */
  lemma PreNormalizeWellFormed(cache: OrientationCache, s: Transformation)
    requires cache.Valid() && Lawful(cache.kin) && WellFormed(s)
    ensures PreNormalize(cache, s).Some? ==> WellFormed(PreNormalize(cache, s).value)
  {
    var inv := cache.kin.invert(s);
    if |inv.centers.permutation| >= 2 {
      FillWellFormed(cache.kin, WriteCount, KeyOf(inv));
    }
  }

  // ---------------------------------------------------------------------------
  // Where the DRF corner is

  /** `indexOf`: the first slot holding `x`, or -1. */
  function IndexOf(s: seq<int>, x: int): (r: int)
    ensures r == -1 <==> x !in s
    ensures r != -1 ==> 0 <= r < |s| && s[r] == x && x !in s[..r]
  {
    if |s| == 0 then -1
    else if s[0] == x then 0
    else
      var rest := IndexOf(s[1..], x);
      assert s[1..][..(if rest < 0 then 0 else rest)] == s[1..1 + (if rest < 0 then 0 else rest)];
      if rest == -1 then -1 else rest + 1
  }

  /** The DRF corner's identity in the corner orbit. */
  const DRF := 4

  /** The AUF, in quarter turns of U, that the DRF corner's slot calls for:
      the slot itself, except that slot 3 calls for one turn back. */
  function AufAmount(idxDRF: int): (a: int)
    ensures 0 <= idxDRF <= 3 ==> -1 <= a <= 2 && (idxDRF - a) % 4 == 0
    ensures idxDRF != 3 ==> a == idxDRF
  {
    if idxDRF == 3 then -1 else idxDRF
  }

  // ---------------------------------------------------------------------------
  // DRF placed: the table search over the four AUFs

  /** The lookup key: the twists of the first four corner slots (fewer when
      the orbit is shorter). */
  function Lookup(ori: seq<int>): (r: seq<int>)
    ensures |r| == if |ori| < 4 then |ori| else 4
    ensures r == ori[..|r|]
  {
    if |ori| < 4 then ori else ori[..4]
  }

  /** One AUF of the lookup key: its first twist moves to the end. */
  function RotateLeft(s: seq<int>): (r: seq<int>)
    ensures |r| == |s|
    ensures |s| > 0 ==> r[|s| - 1] == s[0] && r[..|s| - 1] == s[1..]
  {
    if |s| == 0 then s else s[1..] + [s[0]]
  }

  /** The lookup key after `n` AUFs. */
  function Rotated(s: seq<int>, n: nat): (r: seq<int>)
    ensures |r| == |s|
  {
    if n == 0 then s else RotateLeft(Rotated(s, n - 1))
  }

  /** The name the search finds starting at AUF `a`: the first of AUFs `a..3`
      whose key the table names. */
  function PlacedSearch(table: map<PlacedKey, string>, digits: seq<int>, a: nat): Option<string>
    decreases 4 - a
  {
    if a >= 4 then None
    else if TableName(table, Rotated(digits, a)).Some? then TableName(table, Rotated(digits, a))
    else PlacedSearch(table, digits, a + 1)
  }

  /** The rotation loop of the placed branch. */
  method PlacedCaseName(digits: seq<int>) returns (name: Option<string>)
    ensures name == PlacedSearch(DrfPlacedCases, digits, 0)
  {
    var lookup := digits;
    for aufAmount := 0 to 4
      invariant lookup == Rotated(digits, aufAmount)
      invariant PlacedSearch(DrfPlacedCases, digits, 0) == PlacedSearch(DrfPlacedCases, digits, aufAmount)
    {
      var caseName := TableName(DrfPlacedCases, lookup);
      if caseName.Some? {
        return caseName;
      }
      lookup := RotateLeft(lookup);
    }
    return None;
  }

  /** The search reports the table entry of the first AUF that has one, and
      misses exactly when none of the four AUFs has one. */
  lemma {:induction false} PlacedSearchIsFirst(table: map<PlacedKey, string>, digits: seq<int>, a: nat)
    requires a <= 4
    ensures PlacedSearch(table, digits, a).None? <==> forall r :: a <= r < 4 ==> TableName(table, Rotated(digits, r)).None?
    ensures PlacedSearch(table, digits, a).Some? ==>
      exists r :: a <= r < 4 && PlacedSearch(table, digits, a) == TableName(table, Rotated(digits, r))
        && forall q :: a <= q < r ==> TableName(table, Rotated(digits, q)).None?
    decreases 4 - a
  {
    if a < 4 {
      PlacedSearchIsFirst(table, digits, a + 1);
      if TableName(table, Rotated(digits, a)).Some? {
        assert PlacedSearch(table, digits, a) == TableName(table, Rotated(digits, a));
        assert a <= a < 4 && !TableName(table, Rotated(digits, a)).None?;
      } else {
        assert PlacedSearch(table, digits, a) == PlacedSearch(table, digits, a + 1);
        if PlacedSearch(table, digits, a).Some? {
          var r :| a + 1 <= r < 4 && PlacedSearch(table, digits, a + 1) == TableName(table, Rotated(digits, r))
            && forall q :: a + 1 <= q < r ==> TableName(table, Rotated(digits, q)).None?;
          assert forall q :: a <= q < r ==> TableName(table, Rotated(digits, q)).None?;
        }
      }
    }
  }

  /** The all-solved top layer is the C0 case, a single twisted URF the Im0 case. */
  lemma PlacedExamples()
    ensures PlacedSearch(DrfPlacedCases, [0, 0, 0, 0], 0) == Some("C0")
    ensures PlacedSearch(DrfPlacedCases, [1, 0, 0, 0], 0) == Some("Im0")
  {
    assert TableName(DrfPlacedCases, [0, 0, 0, 0]) == Some("C0");
    assert TableName(DrfPlacedCases, [1, 0, 0, 0]) == Some("Im0");
  }

  // ---------------------------------------------------------------------------
  // DRF elsewhere: the twist pattern after the AUF

  /** The subset prefix chosen by the twist of the corner in the URF slot. */
  datatype Prefix = O | Plus | Minus

  /** What clsCaseName returns. `NotCLS` is the empty string, `Unmatched` the
      undefined of a placed search that misses, `ShapeNaN` a prefix followed
      by NaN and `NoPrefix` the text of an unset prefix and index. */
  datatype CaseName =
    | NotCLS
    | Placed(name: string)
    | Unmatched
    | Shape(prefix: Prefix, index: int)
    | ShapeNaN(nanPrefix: Prefix)
    | NoPrefix

  /** The URF twist that selects a prefix. */
  function PrefixTwist(p: Prefix): int {
    match p
    case O => 0
    case Plus => 1
    case Minus => 2
  }

  /** Whether `x` is a twist that `coInverse` maps. */
  predicate Twist(x: int) {
    0 <= x < 3
  }

  /** The three twists of UBR, ULB, UFL, all in range. */
  predicate ValidTail(ori: seq<int>) {
    |ori| >= 4 && Twist(ori[1]) && Twist(ori[2]) && Twist(ori[3])
  }

  /** The name from the corner twists after the AUF: the URF twist picks the
      prefix, the other three twists form a base-3 index (the "+" subset
      reads them inverted and in the opposite order). */
  function ShapeName(ori: seq<int>): (r: CaseName)
    ensures r.Shape? || r.ShapeNaN? || r.NoPrefix?
  {
    if |ori| == 0 || !Twist(ori[0]) then NoPrefix
    else if ori[0] == 1 then
      if ValidTail(ori)
      then Shape(Plus, 9 * CoInverse[ori[1]] + 3 * CoInverse[ori[2]] + CoInverse[ori[3]])
      else ShapeNaN(Plus)
    else
      var p := if ori[0] == 0 then O else Minus;
      if |ori| >= 4 then Shape(p, ori[1] + 3 * ori[2] + 9 * ori[3]) else ShapeNaN(p)
  }

  /** The three twists a shape index of a prefix stands for. */
  function ShapeTwists(p: Prefix, index: int): (t: seq<int>)
    requires 0 <= index < 27
    ensures |t| == 3 && Twist(t[0]) && Twist(t[1]) && Twist(t[2])
  {
    var lo, mid, hi := index % 3, (index / 3) % 3, index / 9;
    if p == Plus then [CoInverse[hi], CoInverse[mid], CoInverse[lo]] else [lo, mid, hi]
  }

  /** Base-3 digits of a number below 27. */
  lemma Base3(a: int, b: int, c: int)
    requires Twist(a) && Twist(b) && Twist(c)
    ensures var n := a + 3 * b + 9 * c; 0 <= n < 27 && n % 3 == a && (n / 3) % 3 == b && n / 9 == c
  {
  }

  /** Round trip one way: a URF twist of 0, 1 or 2 with valid twists after it
      names a shape whose index is below 27 and gives those twists back. */
  lemma ShapeDecodes(ori: seq<int>)
    requires |ori| >= 4 && Twist(ori[0]) && ValidTail(ori)
    ensures ShapeName(ori).Shape? && 0 <= ShapeName(ori).index < 27
    ensures PrefixTwist(ShapeName(ori).prefix) == ori[0]
    ensures ShapeTwists(ShapeName(ori).prefix, ShapeName(ori).index) == ori[1..4]
  {
    assert ori[1..4] == [ori[1], ori[2], ori[3]];
    if ori[0] == 1 {
      PlusDecodes(ori[1], ori[2], ori[3]);
    } else {
      PlainDecodes(if ori[0] == 0 then O else Minus, ori[1], ori[2], ori[3]);
    }
  }

  /** The "O" and "-" index of three twists gives them back. */
  lemma PlainDecodes(p: Prefix, a: int, b: int, c: int)
    requires p != Plus && Twist(a) && Twist(b) && Twist(c)
    ensures 0 <= a + 3 * b + 9 * c < 27 && ShapeTwists(p, a + 3 * b + 9 * c) == [a, b, c]
  {
    Base3(a, b, c);
  }

  /** The "+" index of three twists gives them back. */
  lemma PlusDecodes(a: int, b: int, c: int)
    requires Twist(a) && Twist(b) && Twist(c)
    ensures var index := 9 * CoInverse[a] + 3 * CoInverse[b] + CoInverse[c];
      0 <= index < 27 && ShapeTwists(Plus, index) == [a, b, c]
  {
    CoInverseInvolution(a);
    CoInverseInvolution(b);
    CoInverseInvolution(c);
    Base3(CoInverse[c], CoInverse[b], CoInverse[a]);
  }

  /** Round trip the other way: every index below 27 of every prefix names
      the twists it stands for, behind the URF twist of that prefix. */
  lemma ShapeEncodes(p: Prefix, index: int)
    requires 0 <= index < 27
    ensures ShapeName([PrefixTwist(p)] + ShapeTwists(p, index)) == Shape(p, index)
  {
    var lo, mid, hi := index % 3, (index / 3) % 3, index / 9;
    assert index == lo + 3 * mid + 9 * hi;
    if p == Plus {
      CoInverseInvolution(lo);
      CoInverseInvolution(mid);
      CoInverseInvolution(hi);
    }
  }

  // ---------------------------------------------------------------------------
  // clsCaseName

  /** What a call of clsCaseName does: return a name, or throw because the
      orientation cache has no entry for the state. */
  datatype Outcome = Threw | Returned(name: CaseName)

  /** The name of the placed branch: the table entry found, or undefined. */
  function PlacedName(found: Option<string>): (c: CaseName)
    ensures c != NotCLS
  {
    match found
    case None => Unmatched
    case Some(n) => Placed(n)
  }

  /** The puzzle after the AUF of the non-placed branch: a fresh puzzle
      combined with the state, then turned by U the AUF amount. */
  function AufState(k: Kinematics, state: Transformation, idxDRF: int): Transformation {
    k.applyMove(k.combine(k.identity, state), BlockMove("U", AufAmount(idxDRF)))
  }

  /** The name of a pre-normalized state that passed the CLS check. */
  function ClassifyCLS(k: Kinematics, state: Transformation): CaseName {
    var idxDRF := IndexOf(state.corners.permutation, DRF);
    if idxDRF == 4 then PlacedName(PlacedSearch(DrfPlacedCases, Lookup(state.corners.orientation), 0))
    else ShapeName(AufState(k, state, idxDRF).corners.orientation)
  }

  /** clsCaseName as a function of the cache and the input state. */
  function CaseNameOf(cache: OrientationCache, t: Transformation): Outcome
    reads cache, cache.cells
    requires cache.Valid()
  {
    match PreNormalize(cache, t)
    case None => Threw
    case Some(state) =>
      if FirstFault(state) != None then Returned(NotCLS) else Returned(ClassifyCLS(cache.kin, state))
  }

  /** clsCaseName: pre-normalize, check, then look up the placed case or read
      the twist pattern after the AUF. */
  method ClsCaseName(cache: OrientationCache, nonNormOriState: Transformation) returns (o: Outcome)
    requires cache.Valid()
    ensures o == CaseNameOf(cache, nonNormOriState)
  {
    var pre := PreNormalize(cache, nonNormOriState);
    if pre.None? {
      return Threw;
    }
    var state := pre.value;
    var isCLS, reason := CheckIsCLS(state);
    if !isCLS {
      return Returned(NotCLS);
    }
    var k := cache.kin;
    var puzzle := k.combine(k.identity, state);
    var idxDRF := IndexOf(state.corners.permutation, DRF);
    if idxDRF == 4 {
      var found := PlacedCaseName(Lookup(state.corners.orientation));
      return Returned(PlacedName(found));
    }
    var aufAmount := idxDRF;
    if aufAmount == 3 {
      aufAmount := -1;
    }
    puzzle := k.applyMove(puzzle, BlockMove("U", aufAmount));
    var ori := puzzle.corners.orientation;
    return Returned(ShapeName(ori));
  }

  /** The state a fresh puzzle reaches by the inverse of `alg`. */
  function SetupState(k: Kinematics, alg: Alg): Transformation {
    k.applyAlg(k.identity, k.invertAlg(alg))
  }

  /** clsCaseNameForAlg: name the case that `alg` solves. */
  method ClsCaseNameForAlg(cache: OrientationCache, alg: Alg) returns (o: Outcome)
    requires cache.Valid()
    ensures o == CaseNameOf(cache, SetupState(cache.kin, alg))
  {
    var k := cache.kin;
    var state := k.applyAlg(k.identity, k.invertAlg(alg));
    o := ClsCaseName(cache, state);
  }

  // ---------------------------------------------------------------------------
  // Properties of the classification

  /** The empty name is returned exactly for pre-normalized states that are
      not CLS cases. */
  lemma EmptyNameExactlyForNonCLS(cache: OrientationCache, t: Transformation)
    requires cache.Valid()
    ensures CaseNameOf(cache, t) == Returned(NotCLS) <==>
      PreNormalize(cache, t).Some? && !IsCLS(PreNormalize(cache, t).value)
  {
    if PreNormalize(cache, t).Some? {
      CheckAcceptsExactlyCLS(PreNormalize(cache, t).value);
    }
  }

  /** A table name is returned only when the DRF corner is in its own slot
      (and in no earlier one), and it is the table's name for one of the
      four AUFs of the top twists, the first that has one. */
  lemma PlacedOnlyWhenDrfHome(cache: OrientationCache, t: Transformation, n: string)
    requires cache.Valid() && CaseNameOf(cache, t) == Returned(Placed(n))
    ensures PreNormalize(cache, t).Some?
    ensures var state := PreNormalize(cache, t).value;
      && IsCLS(state)
      && |state.corners.permutation| > 4 && state.corners.permutation[4] == DRF
      && DRF !in state.corners.permutation[..4]
      && exists r :: 0 <= r < 4 && TableName(DrfPlacedCases, Rotated(Lookup(state.corners.orientation), r)) == Some(n)
  {
    var state := PreNormalize(cache, t).value;
    CheckAcceptsExactlyCLS(state);
    PlacedSearchIsFirst(DrfPlacedCases, Lookup(state.corners.orientation), 0);
  }

  /** The twists of the four AUFs of a four-twist key. */
  lemma RotationsOfFour(d: seq<int>)
    requires |d| == 4
    ensures Rotated(d, 0) == [d[0], d[1], d[2], d[3]]
    ensures Rotated(d, 1) == [d[1], d[2], d[3], d[0]]
    ensures Rotated(d, 2) == [d[2], d[3], d[0], d[1]]
    ensures Rotated(d, 3) == [d[3], d[0], d[1], d[2]]
  {
    assert d == [d[0], d[1], d[2], d[3]];
    RotateFour(d[0], d[1], d[2], d[3]);
    assert Rotated(d, 1) == RotateLeft(d);
    RotateFour(d[1], d[2], d[3], d[0]);
    assert Rotated(d, 2) == RotateLeft(Rotated(d, 1));
    RotateFour(d[2], d[3], d[0], d[1]);
    assert Rotated(d, 3) == RotateLeft(Rotated(d, 2));
  }

  /** One AUF of a four-twist key. */
  lemma RotateFour(a: int, b: int, c: int, e: int)
    ensures RotateLeft([a, b, c, e]) == [b, c, e, a]
  {
    assert [a, b, c, e][1..] == [b, c, e];
  }

  /** Some AUF of every pattern of four twists is a key of the table: the
      24 keys are one per cyclic class of patterns. */
  lemma TableCoversEveryNecklace(a: int, b: int, c: int, e: int)
    requires Twist(a) && Twist(b) && Twist(c) && Twist(e)
    ensures (a, b, c, e) in DrfPlacedCases || (b, c, e, a) in DrfPlacedCases
      || (c, e, a, b) in DrfPlacedCases || (e, a, b, c) in DrfPlacedCases
  {
    if a == 0 {
      if b == 0 { } else if b == 1 { } else { }
    } else if a == 1 {
      if b == 0 { } else if b == 1 { } else { }
    } else {
      if b == 0 { } else if b == 1 { } else { }
    }
  }

  /** Every name in the table is non-empty, so a table hit is never a miss. */
  lemma TableNamesNonEmpty(key: PlacedKey)
    requires key in DrfPlacedCases
    ensures DrfPlacedCases[key] != ""
  {
  }

  /** A named key among the four AUFs makes the search hit. */
  lemma SearchHits(table: map<PlacedKey, string>, d: seq<int>, r: nat)
    requires |d| == 4 && r < 4
    requires var q := Rotated(d, r); (q[0], q[1], q[2], q[3]) in table && table[(q[0], q[1], q[2], q[3])] != ""
    ensures PlacedSearch(table, d, 0).Some?
  {
    PlacedSearchIsFirst(table, d, 0);
    assert TableName(table, Rotated(d, r)).Some?;
  }

  /** On twists in 0..2 the placed search never misses. */
  lemma PlacedNeverMisses(d: seq<int>)
    requires |d| == 4 && Twist(d[0]) && Twist(d[1]) && Twist(d[2]) && Twist(d[3])
    ensures PlacedSearch(DrfPlacedCases, d, 0).Some?
  {
    var a, b, c, e := d[0], d[1], d[2], d[3];
    RotationsOfFour(d);
    TableCoversEveryNecklace(a, b, c, e);
    var r := if (a, b, c, e) in DrfPlacedCases then 0
      else if (b, c, e, a) in DrfPlacedCases then 1
      else if (c, e, a, b) in DrfPlacedCases then 2
      else 3;
    var q := Rotated(d, r);
    TableNamesNonEmpty((q[0], q[1], q[2], q[3]));
    SearchHits(DrfPlacedCases, d, r);
  }

  /** With a lawful library whose rotations have distinct keys, naming a
      state of the 3x3x3 never throws: the cache lookup always finds a cell. */
  lemma NeverThrows(cache: OrientationCache, t: Transformation)
    requires cache.Valid() && Lawful(cache.kin) && DistinctKeys(cache.kin) && WellFormed(t)
    ensures PreNormalize(cache, t).Some?
    ensures CaseNameOf(cache, t).Returned?
  {
    var inv := cache.kin.invert(t);
    WellFormedKeyable(inv);
    cache.NormalizeTotal(inv);
  }

  /** With a lawful library, a state of the 3x3x3 is never given undefined,
      a NaN index or an unset prefix: it is either not a CLS case, a case of
      the table, or a shape whose index is below 27. */
  lemma LawfulNamesAreReal(cache: OrientationCache, t: Transformation)
    requires cache.Valid() && Lawful(cache.kin) && DistinctKeys(cache.kin) && WellFormed(t)
    ensures CaseNameOf(cache, t).Returned?
    ensures var name := CaseNameOf(cache, t).name;
      name.NotCLS? || name.Placed? || (name.Shape? && 0 <= name.index < 27)
  {
    NeverThrows(cache, t);
    PreNormalizeWellFormed(cache, t);
    var state := PreNormalize(cache, t).value;
    if FirstFault(state) == None {
      var ori := state.corners.orientation;
      var idxDRF := IndexOf(state.corners.permutation, DRF);
      if idxDRF == 4 {
        PlacedNeverMisses(Lookup(ori));
      } else {
        var after := AufState(cache.kin, state, idxDRF);
        assert WellFormed(after);
        ShapeDecodes(after.corners.orientation);
      }
    }
  }

  /** No key of the table is another key turned by one AUF. */
  lemma NoKeyTurnedOnce(a: int, b: int, c: int, e: int)
    requires (a, b, c, e) in DrfPlacedCases
    ensures (b, c, e, a) in DrfPlacedCases ==> (b, c, e, a) == (a, b, c, e)
  {
  }

  /** No key of the table is another key turned by two AUFs. */
  lemma NoKeyTurnedTwice(a: int, b: int, c: int, e: int)
    requires (a, b, c, e) in DrfPlacedCases
    ensures (c, e, a, b) in DrfPlacedCases ==> (c, e, a, b) == (a, b, c, e)
  {
  }

  /** Among the four AUFs of a pattern at most one key is in the table. */
  lemma OneKeyPerNecklace(a: int, b: int, c: int, e: int)
    ensures var rots := [(a, b, c, e), (b, c, e, a), (c, e, a, b), (e, a, b, c)];
      forall i, j :: 0 <= i < 4 && 0 <= j < 4 && rots[i] in DrfPlacedCases && rots[j] in DrfPlacedCases ==> rots[i] == rots[j]
  {
    var rots := [(a, b, c, e), (b, c, e, a), (c, e, a, b), (e, a, b, c)];
    forall i, j | 0 <= i < 4 && 0 <= j < 4 && rots[i] in DrfPlacedCases && rots[j] in DrfPlacedCases
      ensures rots[i] == rots[j]
    {
      var t := rots[i];
      NoKeyTurnedOnce(t.0, t.1, t.2, t.3);
      NoKeyTurnedTwice(t.0, t.1, t.2, t.3);
      if rots[j] in DrfPlacedCases {
        var u := rots[j];
        NoKeyTurnedOnce(u.0, u.1, u.2, u.3);
      }
    }
  }

  /** The first of four lookups that hits. */
  function FirstOfFour(o0: Option<string>, o1: Option<string>, o2: Option<string>, o3: Option<string>): (r: Option<string>)
    ensures r.Some? <==> o0.Some? || o1.Some? || o2.Some? || o3.Some?
  {
    if o0.Some? then o0 else if o1.Some? then o1 else if o2.Some? then o2 else o3
  }

  /** The search over a four-twist key is the first hit among its four AUFs. */
  lemma SearchUnfolds(table: map<PlacedKey, string>, a: int, b: int, c: int, e: int)
    ensures PlacedSearch(table, [a, b, c, e], 0) == FirstOfFour(
      TableName(table, [a, b, c, e]), TableName(table, [b, c, e, a]),
      TableName(table, [c, e, a, b]), TableName(table, [e, a, b, c]))
  {
    RotationsOfFour([a, b, c, e]);
  }

  /** For a table with at most one key among the four AUFs of a pattern, a
      search that hits finds the same name after one more AUF. */
  lemma SearchIgnoresTurn(table: map<PlacedKey, string>, a: int, b: int, c: int, e: int)
    requires var rots := [(a, b, c, e), (b, c, e, a), (c, e, a, b), (e, a, b, c)];
      forall i, j :: 0 <= i < 4 && 0 <= j < 4 && rots[i] in table && rots[j] in table ==> rots[i] == rots[j]
    ensures PlacedSearch(table, [b, c, e, a], 0) == PlacedSearch(table, [a, b, c, e], 0)
  {
    SearchUnfolds(table, a, b, c, e);
    SearchUnfolds(table, b, c, e, a);
    var o := [TableName(table, [a, b, c, e]), TableName(table, [b, c, e, a]),
      TableName(table, [c, e, a, b]), TableName(table, [e, a, b, c])];
    var rots := [(a, b, c, e), (b, c, e, a), (c, e, a, b), (e, a, b, c)];
    assert forall i :: 0 <= i < 4 && o[i].Some? ==> rots[i] in table && o[i] == Some(table[rots[i]]);
    assert forall i, j :: 0 <= i < 4 && 0 <= j < 4 && o[i].Some? && o[j].Some? ==> o[i] == o[j];
    FirstOfFourTurn(o[0], o[1], o[2], o[3]);
  }

  /** When all hits agree, which lookup comes first does not matter. */
  lemma FirstOfFourTurn(o0: Option<string>, o1: Option<string>, o2: Option<string>, o3: Option<string>)
    requires o0.Some? && o1.Some? ==> o0 == o1
    requires o0.Some? && o2.Some? ==> o0 == o2
    requires o0.Some? && o3.Some? ==> o0 == o3
    requires o1.Some? && o2.Some? ==> o1 == o2
    requires o1.Some? && o3.Some? ==> o1 == o3
    requires o2.Some? && o3.Some? ==> o2 == o3
    ensures FirstOfFour(o1, o2, o3, o0) == FirstOfFour(o0, o1, o2, o3)
  {
  }

  /** The name of a placed case does not depend on the AUF it is presented
      with: one more AUF of the top twists finds the same name. */
  lemma PlacedNameIgnoresAuf(d: seq<int>)
    requires |d| == 4 && Twist(d[0]) && Twist(d[1]) && Twist(d[2]) && Twist(d[3])
    ensures PlacedSearch(DrfPlacedCases, RotateLeft(d), 0) == PlacedSearch(DrfPlacedCases, d, 0)
  {
    OneKeyPerNecklace(d[0], d[1], d[2], d[3]);
    TurnIgnored(DrfPlacedCases, d);
  }

  /** `SearchIgnoresTurn` for a key given as a sequence. */
  lemma TurnIgnored(table: map<PlacedKey, string>, d: seq<int>)
    requires |d| == 4
    requires var rots := [(d[0], d[1], d[2], d[3]), (d[1], d[2], d[3], d[0]), (d[2], d[3], d[0], d[1]), (d[3], d[0], d[1], d[2])];
      forall i, j :: 0 <= i < 4 && 0 <= j < 4 && rots[i] in table && rots[j] in table ==> rots[i] == rots[j]
    ensures PlacedSearch(table, RotateLeft(d), 0) == PlacedSearch(table, d, 0)
  {
    SearchIgnoresTurn(table, d[0], d[1], d[2], d[3]);
    assert d == [d[0], d[1], d[2], d[3]];
    RotateFour(d[0], d[1], d[2], d[3]);
  }
}

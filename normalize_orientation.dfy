/** The whole-cube orientation key of a state, the 6x6 cache of the 24
    whole-cube rotations indexed by that key, and orientation normalization
    (src/normalizeOrientation.ts). */
module NormalizeOrientation {
  import opened Kinematics

  /** `(idxU, idxL)`: which center is in the up slot, and a dense index of the
      center in the left slot once the up and down occupants are skipped. */
  datatype Key = Key(idxU: int, idxL: int)

  /** How many of `xs` are strictly below `v`. */
  function CountBelow(xs: seq<int>, v: int): (n: nat)
    ensures n <= |xs|
  {
    if xs == [] then 0 else (if xs[0] < v then 1 else 0) + CountBelow(xs[1..], v)
  }

  /** Three distinct center identities in 0..5: what a whole-cube rotation
      puts in the up, left and down slots. */
  predicate DistinctCenters(up: int, left: int, down: int) {
    && 0 <= up < 6 && 0 <= left < 6 && 0 <= down < 6
    && up != left && left != down && up != down
  }

  /** The centers that can push the left center's index down: slot 0 (U) and,
      when the orbit has it, slot 5 (D). A missing slot 5 reads as undefined,
      which compares false with everything, so it never counts. */
  function UpAndDown(centers: seq<int>): seq<int>
    requires |centers| >= 1
  {
    if |centers| >= 6 then [centers[0], centers[5]] else [centers[0]]
  }

  /** puzzleOrientationIdx: the key is computed from slots 0 (U), 1 (L) and 5 (D). */
  function PuzzleOrientationIdx(centers: seq<int>): (key: Key)
    requires |centers| >= 2
    ensures key.idxU == centers[0]
    ensures key.idxL == centers[1] - CountBelow(UpAndDown(centers), centers[1])
    ensures key.idxL <= centers[1] && centers[1] - 2 <= key.idxL
  {
    var idxU, unadjustedIdxL := centers[0], centers[1];
    var idxL := unadjustedIdxL
      - (if idxU < unadjustedIdxL then 1 else 0)
      - (if |centers| >= 6 && centers[5] < unadjustedIdxL then 1 else 0);
    Key(idxU, idxL)
  }

  /** The key of a state. */
  function KeyOf(t: Transformation): Key
    requires |t.centers.permutation| >= 2
  {
    PuzzleOrientationIdx(t.centers.permutation)
  }

  /** With distinct up, left and down centers, the key lands inside the 6x4
      corner of the 6x6 cache. */
  lemma KeyInRange(centers: seq<int>)
    requires |centers| >= 6
    requires DistinctCenters(centers[0], centers[1], centers[5])
    ensures 0 <= PuzzleOrientationIdx(centers).idxU < 6
    ensures 0 <= PuzzleOrientationIdx(centers).idxL < 4
  {
  }

  /** The identity center permutation has key (0, 0). */
  lemma IdentityKey()
    ensures PuzzleOrientationIdx([0, 1, 2, 3, 4, 5]) == Key(0, 0)
  {
  }

  /** An orbit without slot 5 is keyed from slots 0 and 1 alone. */
  lemma ShortOrbitKey()
    ensures PuzzleOrientationIdx([0, 1, 2, 3, 4]) == Key(0, 0)
    ensures PuzzleOrientationIdx([2, 3]) == Key(2, 2)
  {
  }

  /** The `n`-th (from 0) value among `v..5` that is neither `up` nor `down`,
      or -1 when there is none: the inverse of the compression of idxL. */
  function NthFree(v: int, n: int, up: int, down: int): (c: int)
    requires 0 <= v
    decreases 6 - v
  {
    if v >= 6 then -1
    else if v == up || v == down then NthFree(v + 1, n, up, down)
    else if n == 0 then v
    else NthFree(v + 1, n - 1, up, down)
  }

  /** The left center a key stands for, given the down center. */
  function LeftCenter(key: Key, down: int): int {
    NthFree(0, key.idxL, key.idxU, down)
  }

  /** How many of `up`, `down` lie in `[v, left)`. */
  function SkippedBetween(v: int, left: int, up: int, down: int): nat {
    (if v <= up < left then 1 else 0) + (if v <= down < left then 1 else 0)
  }

  lemma {:induction false} NthFreeFinds(v: int, left: int, up: int, down: int)
    requires 0 <= v <= left < 6
    requires up != down && left != up && left != down
    ensures NthFree(v, left - v - SkippedBetween(v, left, up, down), up, down) == left
    decreases left - v
  {
    if v < left {
      NthFreeFinds(v + 1, left, up, down);
    }
  }

  /** Round trip: the key and the down center give back the left center, so for
      fixed up and down occupants the compression of idxL loses nothing. */
  lemma {:induction false} KeyDecodes(centers: seq<int>)
    requires |centers| >= 6
    requires DistinctCenters(centers[0], centers[1], centers[5])
    ensures LeftCenter(PuzzleOrientationIdx(centers), centers[5]) == centers[1]
  {
    NthFreeFinds(0, centers[1], centers[0], centers[5]);
  }

  /** For fixed up and down occupants, distinct left occupants give distinct keys. */
  lemma KeyInjective(a: seq<int>, b: seq<int>)
    requires |a| >= 6 && |b| >= 6
    requires a[0] == b[0] && a[5] == b[5]
    requires DistinctCenters(a[0], a[1], a[5]) && DistinctCenters(b[0], b[1], b[5])
    requires a[1] != b[1]
    ensures PuzzleOrientationIdx(a) != PuzzleOrientationIdx(b)
  {
    KeyDecodes(a);
    KeyDecodes(b);
  }

  // ---------------------------------------------------------------------------
  // The cache of whole-cube rotations

  /** The six tilts that bring each face to the top. */
  const TiltAlgs: seq<string> := ["", "z", "x", "z'", "x'", "x2"]
  const YAlg: string := "y"

  /** Number of cache writes: six tilts times four turns about the vertical axis. */
  const WriteCount := 24

  /** A reset puzzle with tilt `u` applied. */
  function TiltState(k: Kinematics, u: nat): Transformation
    requires u < |TiltAlgs|
  {
    k.applyAlg(k.identity, k.parse(TiltAlgs[u]))
  }

  /** `s` with `y` applied `n` times. */
  function Spun(k: Kinematics, s: Transformation, n: nat): Transformation {
    if n == 0 then s else k.applyAlg(Spun(k, s, n - 1), k.parse(YAlg))
  }

  /** Which tilt the `n`-th write belongs to: writes come four per tilt. */
  function TiltOf(n: nat): (u: nat)
    ensures 4 * u <= n < 4 * u + 4
  {
    if n < 4 then 0 else 1 + TiltOf(n - 4)
  }

  /** The state whose key the `n`-th write computes: its tilt, reset before
      it, followed by one more turn `y` than the writes of that tilt before
      it. */
  function WriteState(k: Kinematics, n: nat): Transformation
    requires n < WriteCount
  {
    Spun(k, TiltState(k, TiltOf(n)), n - 4 * TiltOf(n) + 1)
  }

  /** What the library is trusted to provide: each of the 24 rotation states
      has six centers, with distinct identities in 0..5 in the up, left and
      down slots. */
  ghost predicate RotationsWellFormed(k: Kinematics) {
    forall n :: 0 <= n < WriteCount ==> CentersKeyable(WriteState(k, n).centers.permutation)
  }

  predicate CentersKeyable(c: seq<int>) {
    |c| >= 6 && DistinctCenters(c[0], c[1], c[5])
  }

  /** A lawful library keeps turning a state of the 3x3x3 into states of the
      3x3x3. */
  lemma {:induction false} SpunWellFormed(k: Kinematics, s: Transformation, n: nat)
    requires Lawful(k) && WellFormed(s)
    ensures WellFormed(Spun(k, s, n))
  {
    if n > 0 {
      SpunWellFormed(k, s, n - 1);
    }
  }

  /** The centers of a state of the 3x3x3 can always be keyed. */
  lemma WellFormedKeyable(t: Transformation)
    requires WellFormed(t)
    ensures CentersKeyable(t.centers.permutation)
  {
    var c := t.centers.permutation;
    assert c[0] != c[1] && c[1] != c[5] && c[0] != c[5] by {
      assert IsPermutation(c, CenterCount);
    }
  }

  /** With a lawful library, every state the cache builder visits can be keyed. */
  lemma LawfulRotations(k: Kinematics)
    requires Lawful(k)
    ensures RotationsWellFormed(k)
  {
    forall n | 0 <= n < WriteCount
      ensures CentersKeyable(WriteState(k, n).centers.permutation)
    {
      SpunWellFormed(k, TiltState(k, TiltOf(n)), n - 4 * TiltOf(n) + 1);
      WellFormedKeyable(WriteState(k, n));
    }
  }

  /** Every filled cache cell holds a state of the 3x3x3 when the library is lawful. */
  lemma {:induction false} FillWellFormed(k: Kinematics, n: nat, key: Key)
    requires Lawful(k) && n <= WriteCount
    ensures RotationsWellFormed(k)
    ensures FillAt(k, n, key).Some? ==> WellFormed(FillAt(k, n, key).value)
  {
    LawfulRotations(k);
    if n > 0 {
      FillWellFormed(k, n - 1, key);
      var u := TiltOf(n - 1);
      SpunWellFormed(k, TiltState(k, u), n - 1 - 4 * u + 1);
    }
  }

  function WriteKey(k: Kinematics, n: nat): (key: Key)
    requires n < WriteCount && RotationsWellFormed(k)
    ensures 0 <= key.idxU < 6 && 0 <= key.idxL < 4
  {
    var c := WriteState(k, n).centers.permutation;
    KeyInRange(c);
    PuzzleOrientationIdx(c)
  }

  /** The cache cell at `key` after the first `n` writes: the inverse of the
      state of the last write whose key is `key`, or None if none was. */
  function FillAt(k: Kinematics, n: nat, key: Key): Option<Transformation>
    requires n <= WriteCount && RotationsWellFormed(k)
  {
    if n == 0 then None
    else if WriteKey(k, n - 1) == key then Some(k.invert(WriteState(k, n - 1)))
    else FillAt(k, n - 1, key)
  }

  /** The keys of the first `n` writes, in write order. */
  function WriteKeys(k: Kinematics, n: nat): (keys: seq<Key>)
    requires n <= WriteCount && RotationsWellFormed(k)
    ensures |keys| == n
  {
    if n == 0 then [] else WriteKeys(k, n - 1) + [WriteKey(k, n - 1)]
  }

  /** The `m`-th recorded key is the key of the `m`-th write. */
  lemma {:induction false} WriteKeysAt(k: Kinematics, n: nat, m: nat)
    requires n <= WriteCount && RotationsWellFormed(k) && m < n
    ensures WriteKeys(k, n)[m] == WriteKey(k, m)
  {
    if m < n - 1 {
      WriteKeysAt(k, n - 1, m);
    }
  }

  /** A cell is populated exactly when one of the first `n` writes used its key. */
  lemma {:induction false} FillKeys(k: Kinematics, n: nat, key: Key)
    requires n <= WriteCount && RotationsWellFormed(k)
    ensures FillAt(k, n, key).Some? <==> key in WriteKeys(k, n)
  {
    if n > 0 {
      FillKeys(k, n - 1, key);
    }
  }

  /** Write `4 * u + i` is the `i`-th turn after tilt `u`. */
  lemma WriteIndex(u: nat, i: nat)
    requires i < 4
    ensures TiltOf(4 * u + i) == u
  {
    var t := TiltOf(4 * u + i);
    assert 4 * t <= 4 * u + i < 4 * t + 4;
  }

  /** Write `4 * u + i` keys tilt `u` followed by `i + 1` turns. */
  lemma WriteStateAt(k: Kinematics, u: nat, i: nat)
    requires u < |TiltAlgs| && i < 4
    ensures WriteState(k, 4 * u + i) == Spun(k, TiltState(k, u), i + 1)
  {
    WriteIndex(u, i);
  }

  /** Every populated key lies inside the 6x4 corner of the array. */
  lemma {:induction false} FillInRange(k: Kinematics, n: nat, key: Key)
    requires n <= WriteCount && RotationsWellFormed(k)
    ensures FillAt(k, n, key).Some? ==> 0 <= key.idxU < 6 && 0 <= key.idxL < 4
  {
    if n > 0 && WriteKey(k, n - 1) != key {
      FillInRange(k, n - 1, key);
    }
  }

  /** The 24 rotations have pairwise distinct keys. This holds for the real
      cube; the library's semantics are not modelled, so it is a hypothesis. */
  ghost predicate DistinctKeys(k: Kinematics)
    requires RotationsWellFormed(k)
  {
    forall m, n :: 0 <= m < n < WriteCount ==> WriteKey(k, m) != WriteKey(k, n)
  }

  /** With distinct keys the 24 recorded keys are pairwise distinct: 24
      writes populate 24 different cells. */
  lemma DistinctWrites(k: Kinematics)
    requires RotationsWellFormed(k) && DistinctKeys(k)
    ensures forall i, j :: 0 <= i < j < WriteCount ==> WriteKeys(k, WriteCount)[i] != WriteKeys(k, WriteCount)[j]
  {
    forall i, j | 0 <= i < j < WriteCount
      ensures WriteKeys(k, WriteCount)[i] != WriteKeys(k, WriteCount)[j]
    {
      WriteKeysAt(k, WriteCount, i);
      WriteKeysAt(k, WriteCount, j);
    }
  }

  /** The place of a key in the 6x4 corner of the cache, read row by row. */
  function Slot(key: Key): int {
    4 * key.idxU + key.idxL
  }

  /** The values `0..n-1`, and there are `n` of them. */
  function Below(n: nat): (r: set<int>)
    ensures forall i :: i in r <==> 0 <= i < n
    ensures |r| == n
  {
    if n == 0 then {} else Below(n - 1) + {n - 1}
  }

  /** A sequence without repeats has as many distinct values as elements. */
  lemma {:induction false} DistinctSize(xs: seq<int>)
    requires forall i, j :: 0 <= i < j < |xs| ==> xs[i] != xs[j]
    ensures |set x | x in xs| == |xs|
  {
    if xs != [] {
      var n := |xs| - 1;
      DistinctSize(xs[..n]);
      assert (set x | x in xs) == (set x | x in xs[..n]) + {xs[n]} by {
        assert xs == xs[..n] + [xs[n]];
      }
      assert xs[n] !in xs[..n];
    }
  }

  /** A subset as large as its finite superset is the whole superset. */
  lemma FullSubset(a: set<int>, b: set<int>)
    requires a <= b && |a| == |b|
    ensures a == b
  {
    var rest := b - a;
    assert a + rest == b && a * rest == {};
    assert |a + rest| + |a * rest| == |a| + |rest|;
    assert rest == {};
  }

  /** Pigeonhole: `n` distinct values in `0..n-1` take every value there. */
  lemma Pigeonhole(xs: seq<int>, n: nat)
    requires |xs| == n && forall i :: 0 <= i < n ==> 0 <= xs[i] < n
    requires forall i, j :: 0 <= i < j < |xs| ==> xs[i] != xs[j]
    ensures forall v :: 0 <= v < n ==> v in xs
  {
    var values := set x | x in xs;
    forall x | x in values
      ensures x in Below(n)
    {
      var i :| 0 <= i < |xs| && xs[i] == x;
    }
    DistinctSize(xs);
    FullSubset(values, Below(n));
    forall v | 0 <= v < n
      ensures v in xs
    {
      assert v in values;
    }
  }

  /** Two keys in the 6x4 corner with the same place are the same key. */
  lemma SlotInjective(a: Key, b: Key)
    requires 0 <= a.idxU < 6 && 0 <= a.idxL < 4 && 0 <= b.idxU < 6 && 0 <= b.idxL < 4
    requires Slot(a) == Slot(b)
    ensures a == b
  {
  }

  /** The places of the 24 writes' keys. */
  function WriteSlots(k: Kinematics): (slots: seq<int>)
    requires RotationsWellFormed(k)
    ensures |slots| == WriteCount
    ensures forall i :: 0 <= i < WriteCount ==> slots[i] == Slot(WriteKey(k, i))
  {
    seq(WriteCount, i requires 0 <= i < WriteCount => Slot(WriteKey(k, i)))
  }

  /** With distinct keys the 24 places are distinct values in 0..23. */
  lemma WriteSlotsDistinct(k: Kinematics)
    requires RotationsWellFormed(k) && DistinctKeys(k)
    ensures forall i :: 0 <= i < WriteCount ==> 0 <= WriteSlots(k)[i] < WriteCount
    ensures forall i, j :: 0 <= i < j < WriteCount ==> WriteSlots(k)[i] != WriteSlots(k)[j]
  {
    var slots := WriteSlots(k);
    forall i, j | 0 <= i < j < WriteCount
      ensures slots[i] != slots[j]
    {
      if slots[i] == slots[j] {
        SlotInjective(WriteKey(k, i), WriteKey(k, j));
      }
    }
  }

  /** 24 distinct keys in the 24 cells of the 6x4 corner fill every one of
      those cells. */
  lemma EveryCellWritten(k: Kinematics)
    requires RotationsWellFormed(k) && DistinctKeys(k)
    ensures forall a, b :: 0 <= a < 6 && 0 <= b < 4 ==> Key(a, b) in WriteKeys(k, WriteCount)
  {
    var slots := WriteSlots(k);
    WriteSlotsDistinct(k);
    Pigeonhole(slots, WriteCount);
    forall a, b | 0 <= a < 6 && 0 <= b < 4
      ensures Key(a, b) in WriteKeys(k, WriteCount)
    {
      assert Slot(Key(a, b)) in slots;
      var i :| 0 <= i < WriteCount && slots[i] == Slot(Key(a, b));
      SlotInjective(WriteKey(k, i), Key(a, b));
      WriteKeysAt(k, WriteCount, i);
    }
  }

  /** With distinct keys no write is overwritten: cell `WriteKey(m)` holds the
      inverse of the `m`-th rotation. */
  lemma {:induction false} FillDistinct(k: Kinematics, n: nat, m: nat)
    requires n <= WriteCount && RotationsWellFormed(k) && DistinctKeys(k) && m < n
    ensures FillAt(k, n, WriteKey(k, m)) == Some(k.invert(WriteState(k, m)))
  {
    if m < n - 1 {
      assert WriteKey(k, m) != WriteKey(k, n - 1);
      FillDistinct(k, n - 1, m);
    }
  }

  /** The 6x6 array holds the cache contents after the first `n` writes. */
  ghost predicate Holds(c: array2<Option<Transformation>>, k: Kinematics, n: nat)
    reads c
    requires n <= WriteCount && RotationsWellFormed(k)
  {
    && c.Length0 == 6 && c.Length1 == 6
    && forall a, b :: 0 <= a < 6 && 0 <= b < 6 ==> c[a, b] == FillAt(k, n, Key(a, b))
  }

  /** After the 24 writes a cell is populated exactly when its key was written. */
  lemma FilledCells(c: array2<Option<Transformation>>, k: Kinematics)
    requires RotationsWellFormed(k) && Holds(c, k, WriteCount)
    ensures forall a, b :: 0 <= a < 6 && 0 <= b < 6 ==> (c[a, b].Some? <==> Key(a, b) in WriteKeys(k, WriteCount))
  {
    forall a, b | 0 <= a < 6 && 0 <= b < 6
      ensures c[a, b].Some? <==> Key(a, b) in WriteKeys(k, WriteCount)
    {
      FillKeys(k, WriteCount, Key(a, b));
    }
  }

  /** One write of the build block: the `n`-th write, made after `i + 1`
      turns from tilt `u`, stores the inverse of `state` at the state's own
      key. */
  method StoreRotation(c: array2<Option<Transformation>>, k: Kinematics, u: nat, i: nat, ghost n: nat,
                       state: Transformation)
    returns (key: Key)
    requires u < |TiltAlgs| && i < 4 && n == 4 * u + i && RotationsWellFormed(k)
    requires state == Spun(k, TiltState(k, u), i + 1) && Holds(c, k, n)
    modifies c
    ensures key == WriteKey(k, n) && Holds(c, k, n + 1)
  {
    WriteStateAt(k, u, i);
    key := PuzzleOrientationIdx(state.centers.permutation);
    c[key.idxU, key.idxL] := Some(k.invert(state));
    forall a, b | 0 <= a < 6 && 0 <= b < 6
      ensures c[a, b] == FillAt(k, n + 1, Key(a, b))
    {
      if Key(a, b) != key {
        assert c[a, b] == old(c[a, b]);
      }
    }
  }

  /** One round of the inner loop: apply `y` once more and store the inverse
      of the result at its key. */
  method SpinOnce(c: array2<Option<Transformation>>, k: Kinematics, u: nat, i: nat, ghost n: nat,
                  tilted: Transformation, state: Transformation, yAlg: Alg)
    returns (next: Transformation)
    requires u < |TiltAlgs| && i < 4 && n == 4 * u + i && RotationsWellFormed(k)
    requires tilted == TiltState(k, u) && yAlg == k.parse(YAlg)
    requires state == Spun(k, tilted, i) && Holds(c, k, n)
    modifies c
    ensures next == Spun(k, tilted, i + 1) && Holds(c, k, n + 1)
  {
    next := k.applyAlg(state, yAlg);
    var key := StoreRotation(c, k, u, i, n, next);
  }

  /** The inner loop of the build block for tilt `u`: four times apply `y`
      to the tilted state and store the inverse at its key. */
  method SpinAndStore(c: array2<Option<Transformation>>, k: Kinematics, u: nat,
                      tilted: Transformation, yAlg: Alg)
    requires u < |TiltAlgs| && RotationsWellFormed(k)
    requires tilted == TiltState(k, u) && yAlg == k.parse(YAlg)
    requires Holds(c, k, 4 * u)
    modifies c
    ensures Holds(c, k, 4 * u + 4)
  {
    var state := tilted;
    ghost var n := 4 * u;
    for i := 0 to 4
      invariant n == 4 * u + i
      invariant state == Spun(k, tilted, i) && Holds(c, k, n)
    {
      state := SpinOnce(c, k, u, i, n, tilted, state, yAlg);
      n := n + 1;
    }
  }

  /** puzzleOrientationCache: a 6x6 array filled once by the build block. */
  class OrientationCache {
    const kin: Kinematics
    const cells: array2<Option<Transformation>>

    ghost predicate Valid()
      reads this, cells
    {
      RotationsWellFormed(kin) && Holds(cells, kin, WriteCount)
    }

    /** The build block: for each tilt, reset and apply it, then four times apply
        `y`, compute the key and store the inverse state there. Exactly 24
        writes; cells never written stay empty. */
    constructor Build(k: Kinematics)
      requires RotationsWellFormed(k)
      ensures Valid() && kin == k && fresh(cells)
      ensures forall a, b :: 0 <= a < 6 && 0 <= b < 6 ==> (cells[a, b].Some? <==> Key(a, b) in WriteKeys(k, WriteCount))
    {
      var c := new Option<Transformation>[6, 6]((_, _) => None);
      var tilts := seq(|TiltAlgs|, u requires 0 <= u < |TiltAlgs| => k.parse(TiltAlgs[u]));
      var yAlg := k.parse(YAlg);
      for u := 0 to |tilts|
        invariant Holds(c, k, 4 * u)
      {
        var state := k.identity;
        state := k.applyAlg(state, tilts[u]);
        SpinAndStore(c, k, u, state, yAlg);
      }
      kin := k;
      cells := c;
      new;
      FilledCells(c, k);
    }

    /** The cache cell at `key`, or None outside the array or in an empty cell. */
    function Cell(key: Key): (r: Option<Transformation>)
      reads this, cells
      requires Valid()
      ensures r == FillAt(kin, WriteCount, key)
    {
      FillInRange(kin, WriteCount, key);
      if 0 <= key.idxU < 6 && 0 <= key.idxL < 6 then cells[key.idxU, key.idxL] else None
    }

    /** normalizePuzzleOrientation: combine the input with the cache cell at its
        own key. None stands for the lookup the source cannot complete (a key
        outside the array, an empty cell, or an orbit of fewer than two
        centers, whose key is undefined). */
    function Normalize(s: Transformation): (r: Option<Transformation>)
      reads this, cells
      requires Valid()
      ensures r.Some? <==> |s.centers.permutation| >= 2 && FillAt(kin, WriteCount, KeyOf(s)).Some?
      ensures r.Some? ==> r.value == kin.combine(s, FillAt(kin, WriteCount, KeyOf(s)).value)
    {
      if |s.centers.permutation| < 2 then None
      else
        match Cell(KeyOf(s))
        case None => None
        case Some(o) => Some(kin.combine(s, o))
    }

    /** A state oriented like the `m`-th rotation is combined with that
        rotation's inverse, provided the rotations have distinct keys. */
    lemma NormalizeLikeRotation(s: Transformation, m: nat)
      requires Valid() && DistinctKeys(kin) && m < WriteCount
      requires |s.centers.permutation| >= 2 && KeyOf(s) == WriteKey(kin, m)
      ensures Normalize(s) == Some(kin.combine(s, kin.invert(WriteState(kin, m))))
    {
      FillDistinct(kin, WriteCount, m);
    }

    /** With distinct keys every state whose centers can be keyed is
        normalized: its key lands on a filled cell. */
    lemma NormalizeTotal(s: Transformation)
      requires Valid() && DistinctKeys(kin) && CentersKeyable(s.centers.permutation)
      ensures Normalize(s).Some?
    {
      KeyInRange(s.centers.permutation);
      EveryCellWritten(kin);
      FillKeys(kin, WriteCount, KeyOf(s));
    }

    /** With distinct keys each of the 24 rotations sits in its own cell. */
    lemma CacheHoldsEveryRotation()
      requires Valid() && DistinctKeys(kin)
      ensures forall m :: 0 <= m < WriteCount ==> Cell(WriteKey(kin, m)) == Some(kin.invert(WriteState(kin, m)))
    {
      forall m | 0 <= m < WriteCount
        ensures Cell(WriteKey(kin, m)) == Some(kin.invert(WriteState(kin, m)))
      {
        FillDistinct(kin, WriteCount, m);
      }
    }
  }
}

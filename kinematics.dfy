/** Puzzle states of the 3x3x3 and the operations the classifier borrows from
    the puzzle-kinematics library. The library's operations are not modelled:
    they are carried as uninterpreted function values in `Kinematics`. */
module Kinematics {

  datatype Option<+T> = None | Some(value: T)

  /** One orbit of pieces: `permutation[slot]` is the identity of the piece in
      `slot`, `orientation[slot]` its twist. */
  datatype Orbit = Orbit(permutation: seq<int>, orientation: seq<int>)

  /** A transformation of the 3x3x3: its three orbits. */
  datatype Transformation = Transformation(centers: Orbit, edges: Orbit, corners: Orbit)

  /** A block move such as U, U2 or U' (family and signed amount). */
  datatype Move = BlockMove(family: string, amount: int)

  /** A parsed move sequence. */
  type Alg = seq<Move>

  /** The library's operations, as values the model is given and never looks into. */
  datatype Kinematics = Kinematics(
    identity: Transformation,                              // KPuzzle start state, reset()
    combine: (Transformation, Transformation) -> Transformation,
    invert: Transformation -> Transformation,
    applyAlg: (Transformation, Alg) -> Transformation,
    applyMove: (Transformation, Move) -> Transformation,   // applyBlockMove
    parse: string -> Alg,
    invertAlg: Alg -> Alg)

  const CenterCount := 6
  const EdgeCount := 12
  const CornerCount := 8

  /** A permutation of `0..n-1`. */
  predicate IsPermutation(p: seq<int>, n: nat) {
    && |p| == n
    && (forall i :: 0 <= i < n ==> 0 <= p[i] < n)
    && (forall i, j :: 0 <= i < j < n ==> p[i] != p[j])
  }

  /** An orbit of `n` slots whose twists are taken modulo `modulus`. */
  predicate OrbitWellFormed(o: Orbit, n: nat, modulus: nat) {
    && IsPermutation(o.permutation, n)
    && |o.orientation| == n
    && (forall i :: 0 <= i < n ==> 0 <= o.orientation[i] < modulus)
  }

  /** A state of the 3x3x3 as the library produces it. Center orientation
      is never read by the classifier; it is only bounded by the four
      quarter turns of a center. */
  predicate WellFormed(t: Transformation) {
    && OrbitWellFormed(t.centers, CenterCount, 4)
    && OrbitWellFormed(t.edges, EdgeCount, 2)
    && OrbitWellFormed(t.corners, CornerCount, 3)
  }

  /** What the classifier relies on from the library: the solved state is a
      state of the 3x3x3, and composing, inverting and applying moves keep
      it one. */
  ghost predicate Lawful(k: Kinematics) {
    && WellFormed(k.identity)
    && (forall t :: WellFormed(t) ==> WellFormed(k.invert(t)))
    && (forall a, b :: WellFormed(a) && WellFormed(b) ==> WellFormed(k.combine(a, b)))
    && (forall t, m :: WellFormed(t) ==> WellFormed(k.applyMove(t, m)))
    && (forall t, alg :: WellFormed(t) ==> WellFormed(k.applyAlg(t, alg)))
  }
}

/** The check that a normalized state only disturbs the last-layer corners
    and the top edges' positions (checkIsCLS in src/index.ts). */
module ClsCheck {
  import opened Kinematics

  datatype OrbitId = Centers | Edges | Corners

  /** One check of the scan: a piece that must be in its home slot, or one
      that must have orientation 0. */
  datatype Check = Misplaced(orbit: OrbitId, slot: nat) | Misoriented(orbit: OrbitId, slot: nat)

  const EdgeNames: seq<string> := ["UF", "UR", "UB", "UL", "DF", "DR", "DB", "DL", "FR", "FL", "BR", "BL"]
  const CornerNames: seq<string> := ["UFR", "URB", "UBL", "ULF", "DRF", "DFL", "DLB", "DBR"]
  const CenterNames: seq<string> := ["U", "L", "F", "R", "B", "D"]

  function OrbitOf(t: Transformation, o: OrbitId): Orbit {
    match o
    case Centers => t.centers
    case Edges => t.edges
    case Corners => t.corners
  }

  /** The piece whose home is `slot` sits in `slot`. A slot past the end reads
      as undefined in the source, which never equals the slot. */
  predicate Home(o: Orbit, slot: nat) {
    slot < |o.permutation| && o.permutation[slot] == slot
  }

  /** The piece in `slot` has orientation 0 (a slot past the end reads as
      undefined, which the source's `!= 0` counts as misoriented). */
  predicate Untwisted(o: Orbit, slot: nat) {
    slot < |o.orientation| && o.orientation[slot] == 0
  }

  predicate Fails(t: Transformation, f: Check) {
    match f
    case Misplaced(o, slot) => !Home(OrbitOf(t, o), slot)
    case Misoriented(o, slot) => !Untwisted(OrbitOf(t, o), slot)
  }

  // ---------------------------------------------------------------------------
  // The order in which the source scans: the six centers; then each edge in
  // index order, its placement (from edge 4 on) before its orientation; then
  // corners 5 to 7, placement before orientation. 32 checks in all.

  const ScanLength := 32

  /** The checks the scan makes. */
  predicate InScan(f: Check) {
    match f
    case Misplaced(Centers, m) => m < 6
    case Misplaced(Edges, e) => 4 <= e < 12
    case Misoriented(Edges, e) => e < 12
    case Misplaced(Corners, c) => 5 <= c < 8
    case Misoriented(Corners, c) => 5 <= c < 8
    case Misoriented(Centers, _) => false
  }

  /** Where a check comes in the scan, counting from 0. */
  function Position(f: Check): (p: nat)
    requires InScan(f)
    ensures p < ScanLength
  {
    match f
    case Misplaced(Centers, m) => m
    case Misoriented(Edges, e) => if e < 4 then 6 + e else 11 + 2 * (e - 4)
    case Misplaced(Edges, e) => 10 + 2 * (e - 4)
    case Misplaced(Corners, c) => 26 + 2 * (c - 5)
    case Misoriented(Corners, c) => 27 + 2 * (c - 5)
  }

  /** The check made after `f`, or None after the last one. */
  function Next(f: Check): (r: Option<Check>)
    requires InScan(f)
    ensures r.Some? ==> InScan(r.value) && Position(r.value) == Position(f) + 1
    ensures r.None? <==> Position(f) == ScanLength - 1
  {
    match f
    case Misplaced(Centers, m) =>
      if m < 5 then Some(Misplaced(Centers, m + 1)) else Some(Misoriented(Edges, 0))
    case Misoriented(Edges, e) =>
      if e < 3 then Some(Misoriented(Edges, e + 1))
      else if e < 11 then Some(Misplaced(Edges, e + 1))
      else Some(Misplaced(Corners, 5))
    case Misplaced(Edges, e) => Some(Misoriented(Edges, e))
    case Misplaced(Corners, c) => Some(Misoriented(Corners, c))
    case Misoriented(Corners, c) => if c < 7 then Some(Misplaced(Corners, c + 1)) else None
  }

  /** Distinct checks come at distinct places. */
  lemma PositionInjective(f: Check, g: Check)
    requires InScan(f) && InScan(g) && Position(f) == Position(g)
    ensures f == g
  {
  }

  /** Where the scan stands: at check `f`, or past the end. */
  function Remaining(from: Option<Check>): nat
    requires from.Some? ==> InScan(from.value)
  {
    if from.Some? then ScanLength - Position(from.value) else 0
  }

  /** The first failing check of the scan, starting at `from`. */
  function FirstFaultFrom(t: Transformation, from: Option<Check>): Option<Check>
    requires from.Some? ==> InScan(from.value)
    decreases Remaining(from)
  {
    match from
    case None => None
    case Some(f) => if Fails(t, f) then Some(f) else FirstFaultFrom(t, Next(f))
  }

  /** The scan starts at the U center. */
  const FirstCheck := Misplaced(Centers, 0)

  /** The first offending piece in scan order, if any. */
  function FirstFault(t: Transformation): Option<Check> {
    FirstFaultFrom(t, Some(FirstCheck))
  }

  /** The checks at or after `from`. */
  predicate AtOrAfter(g: Check, from: Option<Check>)
    requires from.Some? ==> InScan(from.value)
  {
    InScan(g) && from.Some? && Position(g) >= Position(from.value)
  }

  /** The search from `from` reports a failing check at or after `from`, and
      every check between `from` and the one reported passes; it reports
      nothing exactly when every check from `from` on passes. */
  lemma {:induction false} FirstFaultFromIsFirst(t: Transformation, from: Option<Check>)
    requires from.Some? ==> InScan(from.value)
    ensures FirstFaultFrom(t, from).None? <==> forall g :: AtOrAfter(g, from) ==> !Fails(t, g)
    ensures FirstFaultFrom(t, from).Some? ==>
      var f := FirstFaultFrom(t, from).value;
      && AtOrAfter(f, from) && Fails(t, f)
      && forall g :: AtOrAfter(g, from) && Position(g) < Position(f) ==> !Fails(t, g)
    decreases Remaining(from)
  {
    if from.Some? && !Fails(t, from.value) {
      var f := from.value;
      FirstFaultFromIsFirst(t, Next(f));
      forall g | AtOrAfter(g, from) && g != f ensures AtOrAfter(g, Next(f)) {
        if Position(g) == Position(f) {
          PositionInjective(g, f);
        }
      }
    }
  }

  // ---------------------------------------------------------------------------
  // The reason text

  function PieceName(names: seq<string>, slot: nat): string {
    if slot < |names| then names[slot] else "undefined"
  }

  function Names(o: OrbitId): seq<string> {
    match o
    case Centers => CenterNames
    case Edges => EdgeNames
    case Corners => CornerNames
  }

  function Word(o: OrbitId): string {
    match o
    case Centers => "center"
    case Edges => "edge"
    case Corners => "corner"
  }

  /** The reason text: the piece's name, its kind and what is wrong with it. */
  function Describe(f: Check): (s: string)
    ensures s != ""
  {
    PieceName(Names(f.orbit), f.slot) + " " + Word(f.orbit)
      + (if f.Misplaced? then " is misplaced" else " is misoriented")
  }

  function Reason(r: Option<Check>): string {
    match r
    case None => ""
    case Some(f) => Describe(f)
  }

  /** Where the scan stands when the center loop is at `m`. */
  function CenterFrom(m: nat): Option<Check> {
    if m < 6 then Some(Misplaced(Centers, m)) else Some(Misoriented(Edges, 0))
  }

  /** Where the scan stands when the edge loop is at `e`. */
  function EdgeFrom(e: nat): Option<Check> {
    if e < 4 then Some(Misoriented(Edges, e))
    else if e < 12 then Some(Misplaced(Edges, e))
    else Some(Misplaced(Corners, 5))
  }

  /** Where the scan stands when the corner loop is at `c`. */
  function CornerFrom(c: nat): Option<Check> {
    if 5 <= c < 8 then Some(Misplaced(Corners, c)) else None
  }

  /** checkIsCLS: scan the three orbits and stop at the first offending piece. */
  method CheckIsCLS(t: Transformation) returns (ok: bool, reason: string)
    ensures ok <==> FirstFault(t) == None
    ensures reason == Reason(FirstFault(t))
    ensures ok <==> reason == ""
  {
    for mIdx := 0 to 6
      invariant FirstFault(t) == FirstFaultFrom(t, CenterFrom(mIdx))
    {
      if !Home(t.centers, mIdx) {
        return false, Describe(Misplaced(Centers, mIdx));
      }
    }
    for eIdx := 0 to 12
      invariant FirstFault(t) == FirstFaultFrom(t, EdgeFrom(eIdx))
    {
      if eIdx >= 4 && !Home(t.edges, eIdx) {
        return false, Describe(Misplaced(Edges, eIdx));
      }
      if !Untwisted(t.edges, eIdx) {
        return false, Describe(Misoriented(Edges, eIdx));
      }
    }
    for cIdx := 5 to 8
      invariant FirstFault(t) == FirstFaultFrom(t, CornerFrom(cIdx))
    {
      if !Home(t.corners, cIdx) {
        return false, Describe(Misplaced(Corners, cIdx));
      }
      if !Untwisted(t.corners, cIdx) {
        return false, Describe(Misoriented(Corners, cIdx));
      }
    }
    return true, "";
  }

  // ---------------------------------------------------------------------------
  // What the scan accepts, stated declaratively

  /** All centers home; edges 4..11 home; all twelve edges (0..3 included)
      oriented; corners 5..7 home and oriented. */
  predicate IsCLS(t: Transformation) {
    && (forall m :: 0 <= m < 6 ==> Home(t.centers, m))
    && (forall e :: 4 <= e < 12 ==> Home(t.edges, e))
    && (forall e :: 0 <= e < 12 ==> Untwisted(t.edges, e))
    && (forall c :: 5 <= c < 8 ==> Home(t.corners, c) && Untwisted(t.corners, c))
  }

  /** Each check of the scan is one of the conditions of IsCLS. */
  lemma CLSPassesScan(t: Transformation, g: Check)
    requires IsCLS(t) && InScan(g)
    ensures !Fails(t, g)
  {
    match g
    case Misplaced(Centers, m) => assert Home(t.centers, m);
    case Misplaced(Edges, e) => assert Home(t.edges, e);
    case Misoriented(Edges, e) => assert Untwisted(t.edges, e);
    case Misplaced(Corners, c) => assert Home(t.corners, c);
    case Misoriented(Corners, c) => assert Untwisted(t.corners, c);
  }

  /** The conditions of IsCLS are exactly the checks of the scan. */
  lemma ScanCoversCLS(t: Transformation)
    ensures IsCLS(t) <==> forall g :: InScan(g) ==> !Fails(t, g)
  {
    if forall g :: InScan(g) ==> !Fails(t, g) {
      forall m | 0 <= m < 6 ensures Home(t.centers, m) {
        assert !Fails(t, Misplaced(Centers, m));
      }
      forall e | 0 <= e < 12 ensures (e >= 4 ==> Home(t.edges, e)) && Untwisted(t.edges, e) {
        assert e >= 4 ==> !Fails(t, Misplaced(Edges, e));
        assert !Fails(t, Misoriented(Edges, e));
      }
      forall c | 5 <= c < 8 ensures Home(t.corners, c) && Untwisted(t.corners, c) {
        assert !Fails(t, Misplaced(Corners, c));
        assert !Fails(t, Misoriented(Corners, c));
      }
    }
    if IsCLS(t) {
      forall g | InScan(g) ensures !Fails(t, g) {
        CLSPassesScan(t, g);
      }
    }
  }

  /** The scan finds nothing exactly when the state is a CLS state. */
  lemma CheckAcceptsExactlyCLS(t: Transformation)
    ensures FirstFault(t) == None <==> IsCLS(t)
  {
    ScanCoversCLS(t);
    FirstFaultFromIsFirst(t, Some(FirstCheck));
    assert forall g :: InScan(g) ==> AtOrAfter(g, Some(FirstCheck));
  }

  /** On failure the fault reported fails, and every check scanned before it
      passes. */
  lemma FaultIsFirstInScan(t: Transformation)
    requires FirstFault(t).Some?
    ensures InScan(FirstFault(t).value) && Fails(t, FirstFault(t).value)
    ensures forall g :: InScan(g) && Position(g) < Position(FirstFault(t).value) ==> !Fails(t, g)
  {
    FirstFaultFromIsFirst(t, Some(FirstCheck));
    assert forall g :: InScan(g) ==> AtOrAfter(g, Some(FirstCheck));
  }

  /** The solved state passes. */
  lemma SolvedIsCLS(t: Transformation)
    requires t.centers.permutation == [0, 1, 2, 3, 4, 5]
    requires t.edges.permutation == [0, 1, 2, 3, 4, 5, 6, 7, 8, 9, 10, 11]
    requires t.edges.orientation == [0, 0, 0, 0, 0, 0, 0, 0, 0, 0, 0, 0]
    requires t.corners.permutation == [0, 1, 2, 3, 4, 5, 6, 7]
    requires t.corners.orientation == [0, 0, 0, 0, 0, 0, 0, 0]
    ensures FirstFault(t) == None
  {
    assert IsCLS(t);
    CheckAcceptsExactlyCLS(t);
  }

  /** A twisted top edge is reported even though top edges may move: the
      source checks the orientation of all twelve edges. */
  lemma TwistedTopEdgeReported(t: Transformation)
    requires t.centers.permutation == [0, 1, 2, 3, 4, 5]
    requires |t.edges.orientation| == 12 && t.edges.orientation[0] == 1
    ensures FirstFault(t) == Some(Misoriented(Edges, 0))
    ensures Reason(FirstFault(t)) == "UF edge is misoriented"
  {
    forall g | InScan(g) && Position(g) < 6 ensures !Fails(t, g) {
      assert g.Misplaced? && g.orbit == Centers && g.slot < 6;
    }
    FaultIsFirstOrEarlier(t, Misoriented(Edges, 0));
    TwistedUFText();
  }

  /** The text reported for a twisted UF edge. */
  lemma TwistedUFText()
    ensures Reason(Some(Misoriented(Edges, 0))) == "UF edge is misoriented"
  {
    assert PieceName(EdgeNames, 0) == "UF";
  }

  /** A failing check is reported when every check before it passes. */
  lemma FaultIsFirstOrEarlier(t: Transformation, f: Check)
    requires InScan(f) && Fails(t, f)
    requires forall g :: InScan(g) && Position(g) < Position(f) ==> !Fails(t, g)
    ensures FirstFault(t) == Some(f)
  {
    FirstFaultFromIsFirst(t, Some(FirstCheck));
    assert AtOrAfter(f, Some(FirstCheck));
    FaultIsFirstInScan(t);
    var r := FirstFault(t).value;
    if Position(r) != Position(f) {
      assert false;
    }
    PositionInjective(r, f);
  }
}

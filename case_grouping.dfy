/** Grouping the algorithm records by the case each one solves
    (src/index.ts, the loop over `clsAlgs` that fills `cases`). */
module CaseGrouping {
  import opened Kinematics
  import opened NormalizeOrientation
  import opened ClsCase

  /** One algorithm record: its fields as text; field 1 is the algorithm. */
  type AlgInfo = seq<string>

  /** The bucket map after `info` is filed under `name`: the bucket is
      created empty if absent, then `info` is appended. */
  function Filed(cases: map<CaseName, seq<AlgInfo>>, name: CaseName, info: AlgInfo): map<CaseName, seq<AlgInfo>> {
    cases[name := (if name in cases then cases[name] else []) + [info]]
  }

  /** The buckets after filing `records` in order, the `i`-th under `names[i]`. */
  function Grouped(names: seq<CaseName>, records: seq<AlgInfo>): map<CaseName, seq<AlgInfo>>
    requires |names| == |records|
  {
    if |names| == 0 then map[]
    else Filed(Grouped(names[..|names| - 1], records[..|records| - 1]), names[|names| - 1], records[|records| - 1])
  }

  /** The records filed under `name`, in input order: an independent
      description of a bucket. */
  function Bucket(names: seq<CaseName>, records: seq<AlgInfo>, name: CaseName): (b: seq<AlgInfo>)
    requires |names| == |records|
    ensures |b| <= |records|
  {
    if |names| == 0 then []
    else
      Bucket(names[..|names| - 1], records[..|records| - 1], name)
        + (if names[|names| - 1] == name then [records[|records| - 1]] else [])
  }

  /** A bucket exists exactly for the names that occur, and it holds the
      records of that name in input order. */
  lemma {:induction false} GroupedBuckets(names: seq<CaseName>, records: seq<AlgInfo>, name: CaseName)
    requires |names| == |records|
    ensures name in Grouped(names, records) <==> name in names
    ensures name in Grouped(names, records) ==> Grouped(names, records)[name] == Bucket(names, records, name)
  {
    if |names| > 0 {
      var n := |names| - 1;
      GroupedBuckets(names[..n], records[..n], name);
      assert names == names[..n] + [names[n]];
      if name !in names[..n] {
        assert Bucket(names[..n], records[..n], name) == [] by {
          BucketOfAbsent(names[..n], records[..n], name);
        }
      }
    }
  }

  /** A name that does not occur has an empty bucket. */
  lemma {:induction false} BucketOfAbsent(names: seq<CaseName>, records: seq<AlgInfo>, name: CaseName)
    requires |names| == |records| && name !in names
    ensures Bucket(names, records, name) == []
  {
    if |names| > 0 {
      var n := |names| - 1;
      assert names[n] in names;
      BucketOfAbsent(names[..n], records[..n], name);
    }
  }

  /** No record is filed under two names: the buckets of two different
      names together hold at most the records, counted with multiplicity. */
  lemma {:induction false} BucketsPartition(names: seq<CaseName>, records: seq<AlgInfo>, a: CaseName, b: CaseName)
    requires |names| == |records| && a != b
    ensures multiset(Bucket(names, records, a)) + multiset(Bucket(names, records, b)) <= multiset(records)
    ensures |Bucket(names, records, a)| + |Bucket(names, records, b)| <= |records|
  {
    if |names| > 0 {
      var prefix, earlier := names[..|names| - 1], records[..|records| - 1];
      BucketsPartition(prefix, earlier, a, b);
      PartitionStep(Bucket(prefix, earlier, a), Bucket(prefix, earlier, b), records,
                    names[|names| - 1] == a, names[|names| - 1] == b);
    }
  }

  /** The last record, added to at most one of two buckets that share out
      the earlier records, keeps them sharing out the records. */
  lemma PartitionStep(pa: seq<AlgInfo>, pb: seq<AlgInfo>, records: seq<AlgInfo>, toA: bool, toB: bool)
    requires |records| > 0 && !(toA && toB)
    requires multiset(pa) + multiset(pb) <= multiset(records[..|records| - 1])
    requires |pa| + |pb| <= |records| - 1
    ensures var last := [records[|records| - 1]];
      var a, b := pa + (if toA then last else []), pb + (if toB then last else []);
      multiset(a) + multiset(b) <= multiset(records) && |a| + |b| <= |records|
  {
    var n := |records| - 1;
    assert records == records[..n] + [records[n]];
  }

  /** Filing one more record extends the fold by one step. */
  lemma GroupedStep(names: seq<CaseName>, records: seq<AlgInfo>, n: nat, name: CaseName)
    requires |names| == n < |records|
    ensures Grouped(names + [name], records[..n + 1]) == Filed(Grouped(names, records[..n]), name, records[n])
  {
    assert (names + [name])[..n] == names;
    assert records[..n + 1][..n] == records[..n];
  }

  /** The module-level `cases` record. */
  class CaseTable {
    var cases: map<CaseName, seq<AlgInfo>>

    constructor ()
      ensures cases == map[]
    {
      cases := map[];
    }

    /** File one record: create the bucket of `name` if it is absent, then
        append the record to it. */
    method Push(name: CaseName, info: AlgInfo)
      modifies this
      ensures cases == Filed(old(cases), name, info)
    {
      var bucket := if name in cases then cases[name] else [];
      cases := cases[name := bucket + [info]];
    }
  }

  /** The name the loop computes for one record. */
  function RecordOutcome(cache: OrientationCache, info: AlgInfo): Outcome
    reads cache, cache.cells
    requires cache.Valid() && |info| >= 2
  {
    CaseNameOf(cache, SetupState(cache.kin, cache.kin.parse(info[1])))
  }

  /** One pass of the loop up to the name: parse the record's algorithm and
      name the case it solves. */
  method NameRecord(cache: OrientationCache, algInfo: AlgInfo) returns (caseName: Outcome)
    requires cache.Valid() && |algInfo| >= 2
    ensures caseName == RecordOutcome(cache, algInfo)
  {
    var parsed := cache.kin.parse(algInfo[1]);
    caseName := ClsCaseNameForAlg(cache, parsed);
  }

  /** `names[i]` is the name computed for `records[i]`, for every `i`. */
  ghost predicate AllNamed(cache: OrientationCache, records: seq<AlgInfo>, names: seq<CaseName>)
    reads cache, cache.cells
    requires cache.Valid() && forall i :: 0 <= i < |records| ==> |records[i]| >= 2
  {
    |names| == |records| && forall i :: 0 <= i < |records| ==> RecordOutcome(cache, records[i]) == Returned(names[i])
  }

  /** Naming one more record extends the named prefix. */
  lemma AllNamedStep(cache: OrientationCache, records: seq<AlgInfo>, n: nat, names: seq<CaseName>, name: CaseName)
    requires cache.Valid() && forall i :: 0 <= i < |records| ==> |records[i]| >= 2
    requires n < |records| && AllNamed(cache, records[..n], names)
    requires RecordOutcome(cache, records[n]) == Returned(name)
    ensures AllNamed(cache, records[..n + 1], names + [name])
  {
  }

  /** One pass of the loop: name the next record and, unless naming
      throws, file it under its name. */
  method FileNext(cache: OrientationCache, table: CaseTable, records: seq<AlgInfo>, filed: nat, ghost names: seq<CaseName>)
    returns (threw: bool, ghost names': seq<CaseName>)
    requires cache.Valid() && forall i :: 0 <= i < |records| ==> |records[i]| >= 2
    requires filed < |records| && AllNamed(cache, records[..filed], names)
    requires table.cases == Grouped(names, records[..filed])
    modifies table
    ensures threw ==> RecordOutcome(cache, records[filed]) == Threw
    ensures threw ==> names' == names && table.cases == old(table.cases)
    ensures !threw ==> AllNamed(cache, records[..filed + 1], names')
    ensures !threw ==> table.cases == Grouped(names', records[..filed + 1])
  {
    var algInfo := records[filed];
    var caseName := NameRecord(cache, algInfo);
    if caseName.Threw? {
      return true, names;
    }
    AllNamedStep(cache, records, filed, names, caseName.name);
    GroupedStep(names, records, filed, caseName.name);
    table.Push(caseName.name, algInfo);
    return false, names + [caseName.name];
  }

  /** The loop over the records: parse each algorithm, name its case and
      file the record under that name. A record whose naming throws stops
      the loop; `filed` counts the records filed before it. */
  method BuildCases(cache: OrientationCache, records: seq<AlgInfo>) returns (table: CaseTable, filed: nat, ghost names: seq<CaseName>)
    requires cache.Valid()
    requires forall i :: 0 <= i < |records| ==> |records[i]| >= 2
    ensures filed <= |records| && AllNamed(cache, records[..filed], names)
    ensures filed < |records| ==> RecordOutcome(cache, records[filed]) == Threw
    ensures table.cases == Grouped(names, records[..filed])
  {
    table := new CaseTable();
    names := [];
    filed := 0;
    while filed < |records|
      invariant fresh(table)
      invariant filed <= |records| && AllNamed(cache, records[..filed], names)
      invariant table.cases == Grouped(names, records[..filed])
    {
      var threw;
      threw, names := FileNext(cache, table, records, filed, names);
      if threw {
        return;
      }
      filed := filed + 1;
    }
  }
}

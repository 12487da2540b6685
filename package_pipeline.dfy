/**
 * `GetPackages` and `PackageHasCommands` as functions of the enumerated
 * packages: which packages survive the filter, which warnings it writes,
 * where a non-configuration fault stops it, and the order of the listing.
 */
module PackagePipeline {
  import opened Wrappers
  import opened ToolPackage
  import opened PackageIdOrder

  /** `LocalizableStrings.InvalidPackageWarning` with its two arguments. */
  datatype Warning = InvalidPackageWarning(packageId: string, message: string)

  function WarningFor(p: Package): Warning
    requires HasConfigurationFault(p)
  {
    InvalidPackageWarning(p.id, p.commands.error.message)
  }

  /**
   * The index of the first package whose commands read raises a fault other
   * than a configuration fault; `|ps|` when there is none.
   */
  function FirstOtherFault(ps: seq<Package>): (k: nat)
    ensures k <= |ps|
    ensures forall i :: 0 <= i < k ==> !HasOtherFault(ps[i])
    ensures k < |ps| ==> HasOtherFault(ps[k])
  {
    if |ps| == 0 then 0
    else if HasOtherFault(ps[0]) then 0
    else 1 + FirstOtherFault(ps[1..])
  }

  /** The packages among the first `n` that `Where(PackageHasCommands)` lets through, in enumeration order. */
  function KeptUpTo(ps: seq<Package>, n: nat): seq<Package>
    requires n <= |ps|
  {
    if n == 0 then []
    else KeptUpTo(ps, n - 1) + (if HasReadableCommands(ps[n - 1]) then [ps[n - 1]] else [])
  }

  /** The packages among the first `n` dropped for a configuration fault, in enumeration order. */
  function DroppedUpTo(ps: seq<Package>, n: nat): seq<Package>
    requires n <= |ps|
  {
    if n == 0 then []
    else DroppedUpTo(ps, n - 1) + (if HasConfigurationFault(ps[n - 1]) then [ps[n - 1]] else [])
  }

  /** The warnings the filter writes for the first `n` packages. */
  function WarningsUpTo(ps: seq<Package>, n: nat): seq<Warning>
    requires n <= |ps|
  {
    if n == 0 then []
    else WarningsUpTo(ps, n - 1) + (if HasConfigurationFault(ps[n - 1]) then [WarningFor(ps[n - 1])] else [])
  }

  function Kept(ps: seq<Package>): seq<Package> {
    KeptUpTo(ps, |ps|)
  }

  function Dropped(ps: seq<Package>): seq<Package> {
    DroppedUpTo(ps, |ps|)
  }

  function Warnings(ps: seq<Package>): seq<Warning> {
    WarningsUpTo(ps, |ps|)
  }

  lemma {:induction false} KeptUpToMembers(ps: seq<Package>, n: nat)
    requires n <= |ps|
    ensures forall p :: p in KeptUpTo(ps, n) <==> p in ps[..n] && HasReadableCommands(p)
    decreases n
  {
    if n > 0 {
      assert ps[..n] == ps[..n - 1] + [ps[n - 1]];
      KeptUpToMembers(ps, n - 1);
    }
  }

  lemma {:induction false} DroppedUpToMembers(ps: seq<Package>, n: nat)
    requires n <= |ps|
    ensures forall p :: p in DroppedUpTo(ps, n) <==> p in ps[..n] && HasConfigurationFault(p)
    decreases n
  {
    if n > 0 {
      assert ps[..n] == ps[..n - 1] + [ps[n - 1]];
      DroppedUpToMembers(ps, n - 1);
    }
  }

  /** A package is kept if and only if reading its commands succeeds. */
  lemma KeptMembers(ps: seq<Package>)
    ensures forall p :: p in Kept(ps) <==> p in ps && HasReadableCommands(p)
  {
    KeptUpToMembers(ps, |ps|);
    assert ps[..|ps|] == ps;
  }

  /** A package is dropped if and only if reading its commands raises a configuration fault. */
  lemma DroppedMembers(ps: seq<Package>)
    ensures forall p :: p in Dropped(ps) <==> p in ps && HasConfigurationFault(p)
  {
    DroppedUpToMembers(ps, |ps|);
    assert ps[..|ps|] == ps;
  }

  lemma {:induction false} WarningsUpToMatchDropped(ps: seq<Package>, n: nat)
    requires n <= |ps|
    ensures |WarningsUpTo(ps, n)| == |DroppedUpTo(ps, n)|
    ensures forall i :: 0 <= i < |WarningsUpTo(ps, n)| ==>
              HasConfigurationFault(DroppedUpTo(ps, n)[i]) && WarningsUpTo(ps, n)[i] == WarningFor(DroppedUpTo(ps, n)[i])
    decreases n
  {
    if n > 0 {
      WarningsUpToMatchDropped(ps, n - 1);
    }
  }

  /** The filter writes one warning per dropped package, in the same order, with its id and fault message. */
  lemma WarningsMatchDropped(ps: seq<Package>)
    ensures |Warnings(ps)| == |Dropped(ps)|
    ensures forall i :: 0 <= i < |Warnings(ps)| ==>
              HasConfigurationFault(Dropped(ps)[i]) && Warnings(ps)[i] == WarningFor(Dropped(ps)[i])
  {
    WarningsUpToMatchDropped(ps, |ps|);
  }

  lemma {:induction false} PartitionUpTo(ps: seq<Package>, n: nat)
    requires n <= |ps|
    requires forall j :: 0 <= j < n ==> !HasOtherFault(ps[j])
    ensures multiset(KeptUpTo(ps, n)) + multiset(DroppedUpTo(ps, n)) == multiset(ps[..n])
    decreases n
  {
    if n > 0 {
      assert ps[..n] == ps[..n - 1] + [ps[n - 1]];
      PartitionUpTo(ps, n - 1);
    }
  }

  /**
   * When no other fault stops the filter, every package is either kept or
   * dropped with a warning, and not both.
   */
  lemma KeptAndDroppedPartition(ps: seq<Package>)
    requires FirstOtherFault(ps) == |ps|
    ensures multiset(Kept(ps)) + multiset(Dropped(ps)) == multiset(ps)
    ensures |Kept(ps)| + |Warnings(ps)| == |ps|
  {
    PartitionUpTo(ps, |ps|);
    assert ps[..|ps|] == ps;
    assert |multiset(Kept(ps))| + |multiset(Dropped(ps))| == |multiset(ps)|;
    WarningsMatchDropped(ps);
  }

  lemma {:induction false} KeptUpToCounts(ps: seq<Package>, n: nat)
    requires n <= |ps|
    ensures forall p :: multiset(KeptUpTo(ps, n))[p] == if HasReadableCommands(p) then multiset(ps[..n])[p] else 0
    decreases n
  {
    if n > 0 {
      assert ps[..n] == ps[..n - 1] + [ps[n - 1]];
      KeptUpToCounts(ps, n - 1);
    }
  }

  /** How often each package occurs among the kept ones. */
  lemma KeptCounts(ps: seq<Package>)
    ensures forall p :: multiset(Kept(ps))[p] == if HasReadableCommands(p) then multiset(ps)[p] else 0
  {
    KeptUpToCounts(ps, |ps|);
    assert ps[..|ps|] == ps;
  }

  lemma {:induction false} KeptUpToDistinct(ps: seq<Package>, n: nat)
    requires n <= |ps| && DistinctIds(ps)
    ensures DistinctIds(KeptUpTo(ps, n))
    decreases n
  {
    if n > 0 {
      KeptUpToDistinct(ps, n - 1);
      KeptUpToMembers(ps, n - 1);
      forall q | q in ps[..n - 1] ensures q.id != ps[n - 1].id {
        var k :| 0 <= k < n - 1 && ps[k] == q;
      }
    }
  }

  lemma KeptDistinct(ps: seq<Package>)
    requires DistinctIds(ps)
    ensures DistinctIds(Kept(ps))
  {
    KeptUpToDistinct(ps, |ps|);
  }

  // ----- the order of the listing -----

  predicate SortedById(s: seq<Package>) {
    forall i, j :: 0 <= i < j < |s| ==> IdLessEq(s[i].id, s[j].id)
  }

  predicate DistinctIds(s: seq<Package>) {
    forall i, j :: 0 <= i < j < |s| ==> s[i].id != s[j].id
  }

  /** Inserts `p` before the first package whose id is not below it. */
  function Insert(p: Package, s: seq<Package>): (r: seq<Package>)
    ensures multiset(r) == multiset(s) + multiset{p}
  {
    if |s| == 0 then [p]
    else if IdLessEq(p.id, s[0].id) then [p] + s
    else
      assert s == [s[0]] + s[1..];
      [s[0]] + Insert(p, s[1..])
  }

  /** `OrderBy(p => p.Id)`: a stable insertion sort by id. */
  function SortById(s: seq<Package>): (r: seq<Package>)
    ensures multiset(r) == multiset(s)
  {
    if |s| == 0 then []
    else
      assert s == [s[0]] + s[1..];
      Insert(s[0], SortById(s[1..]))
  }

  /** The packages of `Insert(p, s)` are `p` and those of `s`. */
  lemma InsertMembers(p: Package, s: seq<Package>)
    ensures forall q :: q in Insert(p, s) <==> q == p || q in s
  {
  }

  /** Every package of a sorted `s` has an id at least that of its first package. */
  lemma SortedHeadIsLeast(s: seq<Package>, q: Package)
    requires SortedById(s) && |s| > 0 && q in s
    ensures IdLessEq(s[0].id, q.id)
  {
    var k :| 0 <= k < |s| && s[k] == q;
    if k == 0 {
      IdLessEqReflexive(q.id);
    }
  }

  lemma {:induction false} InsertSorted(p: Package, s: seq<Package>)
    requires SortedById(s)
    ensures SortedById(Insert(p, s))
    decreases |s|
  {
    if |s| > 0 {
      var r := Insert(p, s);
      if IdLessEq(p.id, s[0].id) {
        forall j | 1 < j < |r| ensures IdLessEq(r[0].id, r[j].id) {
          IdLessEqTransitive(p.id, s[0].id, s[j - 1].id);
        }
      } else {
        IdLessEqTotal(p.id, s[0].id);
        var t := Insert(p, s[1..]);
        InsertSorted(p, s[1..]);
        InsertMembers(p, s[1..]);
        forall j | 0 < j < |r| ensures IdLessEq(r[0].id, r[j].id) {
          assert r[j] in t;
          if r[j] != p {
            SortedHeadIsLeast(s, r[j]);
          }
        }
      }
    }
  }

  lemma {:induction false} SortByIdSorted(s: seq<Package>)
    ensures SortedById(SortById(s))
    decreases |s|
  {
    if |s| > 0 {
      SortByIdSorted(s[1..]);
      InsertSorted(s[0], SortById(s[1..]));
    }
  }

  lemma {:induction false} InsertDistinct(p: Package, s: seq<Package>)
    requires DistinctIds(s)
    requires forall q :: q in s ==> q.id != p.id
    ensures DistinctIds(Insert(p, s))
    decreases |s|
  {
    if |s| > 0 && !IdLessEq(p.id, s[0].id) {
      var r := Insert(p, s);
      var t := Insert(p, s[1..]);
      InsertDistinct(p, s[1..]);
      InsertMembers(p, s[1..]);
      forall j | 0 < j < |r| ensures r[0].id != r[j].id {
        assert r[j] in t;
        if r[j] != p {
          var k :| 0 <= k < |s[1..]| && s[1..][k] == r[j];
          assert s[k + 1] == r[j];
        }
      }
    }
  }

  lemma {:induction false} SortByIdDistinct(s: seq<Package>)
    requires DistinctIds(s)
    ensures DistinctIds(SortById(s))
    decreases |s|
  {
    if |s| > 0 {
      SortByIdDistinct(s[1..]);
      forall q | q in SortById(s[1..]) ensures q.id != s[0].id {
        assert q in multiset(s[1..]);
      }
      InsertDistinct(s[0], SortById(s[1..]));
    }
  }

  lemma TailMultiset(s: seq<Package>)
    requires |s| > 0
    ensures multiset(s[1..]) == multiset(s) - multiset{s[0]}
  {
    assert s == [s[0]] + s[1..];
  }

  lemma TailSortedDistinct(s: seq<Package>)
    requires |s| > 0 && SortedById(s) && DistinctIds(s)
    ensures SortedById(s[1..]) && DistinctIds(s[1..])
  {
  }

  /** The first packages of two such sequences agree: both hold the least id. */
  lemma {:induction false} SameFirstPackage(a: seq<Package>, b: seq<Package>)
    requires |a| > 0 && |b| > 0
    requires SortedById(a) && SortedById(b) && DistinctIds(b)
    requires multiset(a) == multiset(b)
    ensures a[0] == b[0]
  {
    assert a[0] in multiset(b) && b[0] in multiset(a);
    var j :| 0 <= j < |b| && b[j] == a[0];
    var i :| 0 <= i < |a| && a[i] == b[0];
    if i == 0 { IdLessEqReflexive(a[0].id); }
    if j == 0 { IdLessEqReflexive(b[0].id); }
    IdLessEqAntisymmetric(a[0].id, b[0].id);
  }

  /**
   * Two id-sorted sequences without repeated ids that hold the same packages
   * are the same sequence.
   */
  lemma {:induction false} SortedDistinctUnique(a: seq<Package>, b: seq<Package>)
    requires SortedById(a) && DistinctIds(a)
    requires SortedById(b) && DistinctIds(b)
    requires multiset(a) == multiset(b)
    ensures a == b
    decreases |a|
  {
    assert |a| == |multiset(a)| == |multiset(b)| == |b|;
    if |a| > 0 {
      SameFirstPackage(a, b);
      TailMultiset(a);
      TailMultiset(b);
      TailSortedDistinct(a);
      TailSortedDistinct(b);
      SortedDistinctUnique(a[1..], b[1..]);
      assert a == [a[0]] + a[1..];
      assert b == [b[0]] + b[1..];
    }
  }

  /**
   * The listed packages do not depend on the order in which the store
   * enumerates them, given that ids are unique within an enumeration.
   */
  lemma RowsIndependentOfEnumerationOrder(a: seq<Package>, b: seq<Package>)
    requires DistinctIds(a) && DistinctIds(b)
    requires multiset(a) == multiset(b)
    ensures SortById(Kept(a)) == SortById(Kept(b))
  {
    KeptCounts(a);
    KeptCounts(b);
    assert multiset(Kept(a)) == multiset(Kept(b));
    KeptDistinct(a);
    KeptDistinct(b);
    SortByIdSorted(Kept(a));
    SortByIdSorted(Kept(b));
    SortByIdDistinct(Kept(a));
    SortByIdDistinct(Kept(b));
    SortedDistinctUnique(SortById(Kept(a)), SortById(Kept(b)));
  }

  /**
   * The listing holds exactly the kept packages, each once, in strictly
   * ascending id order.
   */
  lemma ListedPackages(ps: seq<Package>)
    requires DistinctIds(ps)
    ensures multiset(SortById(Kept(ps))) == multiset(Kept(ps))
    ensures forall p :: p in SortById(Kept(ps)) <==> p in ps && HasReadableCommands(p)
    ensures forall i, j :: 0 <= i < j < |SortById(Kept(ps))| ==>
              IdLessEq(SortById(Kept(ps))[i].id, SortById(Kept(ps))[j].id) && SortById(Kept(ps))[i].id != SortById(Kept(ps))[j].id
  {
    var listed := SortById(Kept(ps));
    KeptMembers(ps);
    forall p ensures p in listed <==> p in Kept(ps) {
      assert p in listed <==> p in multiset(listed);
    }
    KeptDistinct(ps);
    SortByIdSorted(Kept(ps));
    SortByIdDistinct(Kept(ps));
  }
}

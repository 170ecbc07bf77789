/** Reconciling the disks that a poller reports with those that are stored: disk_cb_updateconfig,
    up to its decision that the configuration has to be written again. */
module Disks {

  /** The fields that DISK_config_cmp looks at. Strings are shared, so comparing pointers compares them. */
  datatype Config = Config(
    intDev: string, extDev: string, mode: string, kind: string, partitionType: string, mappedDev: string,
    numSectors: real, sizeSector: int, startSector: real, capacity: real, blockSize: int)

  /** A disk has a label and request counters besides; they are no part of its configuration. */
  datatype Disk = Disk(config: Config, title: string, requests: (real, real, real), free: real)

  /** DISK_config_cmp on two disks that are there. */
  function ConfigCmp(a: Disk, b: Disk): (r: int)
    ensures r == 0 <==> a.config == b.config
  {
    var (x, y) := (a.config, b.config);
    if x.intDev != y.intDev then 1
    else if x.extDev != y.extDev then 1
    else if x.mode != y.mode then 1
    else if x.kind != y.kind then 1
    else if x.partitionType != y.partitionType then 1
    else if x.mappedDev != y.mappedDev then 1
    else if x.numSectors != y.numSectors then 1
    else if x.sizeSector != y.sizeSector then 1
    else if x.startSector != y.startSector then 1
    else if x.capacity != y.capacity then 1
    else if x.blockSize != y.blockSize then 1
    else 0
  }

  /** DISK_path_cmp */
  function PathCmp(a: Disk, b: Disk): int {
    if a.config.extDev != b.config.extDev then 1 else 0
  }

  function Paths(disks: seq<Disk>): (s: set<string>) {
    set d | d in disks :: d.config.extDev
  }

  /** eina_list_search_unsorted with DISK_path_cmp: the first disk of that path, or -1. */
  method Search(disks: seq<Disk>, d: Disk) returns (found: int)
    ensures -1 <= found < |disks|
    ensures found == -1 <==> d.config.extDev !in Paths(disks)
    ensures found >= 0 ==> disks[found].config.extDev == d.config.extDev
                           && forall k :: 0 <= k < found ==> disks[k].config.extDev != d.config.extDev
  {
    for i := 0 to |disks|
      invariant forall k :: 0 <= k < i ==> disks[k].config.extDev != d.config.extDev
    {
      if PathCmp(disks[i], d) == 0 {
        assert disks[i] in disks;
        return i;
      }
    }
    found := -1;
  }

  ghost predicate DistinctPaths(disks: seq<Disk>) {
    forall i, j :: 0 <= i < j < |disks| ==> disks[i].config.extDev != disks[j].config.extDev
  }

  /** What a list of disks with distinct paths means: a configuration for each path. */
  ghost predicate SameDisks(a: seq<Disk>, b: seq<Disk>) {
    && Paths(a) == Paths(b)
    && forall i, j :: 0 <= i < |a| && 0 <= j < |b| && a[i].config.extDev == b[j].config.extDev ==> a[i].config == b[j].config
  }

  /** The input disks whose path is not stored, in order. */
  function Missing(input: seq<Disk>, stored: seq<Disk>): seq<string> {
    if input == [] then []
    else
      var rest, d := Missing(input[..|input| - 1], stored), input[|input| - 1];
      if d.config.extDev in Paths(stored) then rest else rest + [d.config.extDev]
  }

  /** An input disk whose first stored disk of the same path has another configuration. */
  ghost predicate Differs(d: Disk, stored: seq<Disk>) {
    exists i :: 0 <= i < |stored| && stored[i].config.extDev == d.config.extDev
                && (forall k :: 0 <= k < i ==> stored[k].config.extDev != d.config.extDev)
                && stored[i].config != d.config
  }

  lemma FoundDiffers(d: Disk, stored: seq<Disk>, x: int)
    requires -1 <= x < |stored| && (x == -1 <==> d.config.extDev !in Paths(stored))
    requires x >= 0 ==> stored[x].config.extDev == d.config.extDev
                        && forall k :: 0 <= k < x ==> stored[k].config.extDev != d.config.extDev
    ensures Differs(d, stored) <==> x >= 0 && stored[x].config != d.config
  {
    if i :| 0 <= i < |stored| && stored[i].config.extDev == d.config.extDev {
      assert stored[i] in stored;
    }
  }

  /** When the code raises the parent's flag, for any two lists. */
  ghost predicate Raises(stored: seq<Disk>, input: seq<Disk>) {
    if stored == [] || |stored| != |input| then stored != [] || input != []
    else !(Paths(stored) <= Paths(input)) || exists i :: 0 <= i < |input| && Differs(input[i], stored)
  }

  /** How the first pass leaves the sub-context: freed, without a query so that nothing ever runs it
      again, or with the queries for a new disk or for the latest revision. */
  datatype Outcome = Ends | Stalls | GoesOn

  /** When nothing ever runs the sub-context again, for any two lists: nothing was stored, or there is
      a difference but no disk to create. */
  ghost predicate Stops(stored: seq<Disk>, input: seq<Disk>) {
    if stored == [] then input != []
    else |stored| == |input| && Raises(stored, input) && Missing(input, stored) == []
  }

  /** The context of one reconciliation. */
  class Context {
    var auth: bool
    var checked: bool

    constructor ()
      ensures !auth && !checked
    {
      auth, checked := false, false;
    }
  }

  /** The first loop of disk_cb_updateconfig: a stored disk whose path is not in the input. */
  method AnyGone(stored: seq<Disk>, input: seq<Disk>) returns (gone: bool)
    ensures gone <==> !(Paths(stored) <= Paths(input))
  {
    for i := 0 to |stored|
      invariant forall k :: 0 <= k < i ==> stored[k].config.extDev in Paths(input)
    {
      var x := Search(input, stored[i]);
      if x == -1 {
        assert stored[i].config.extDev in Paths(stored);
        return true;
      }
    }
    return false;
  }

  /** disk_cb_updateconfig, count 0, with queries that can be created; created lists the paths that
      createDisk is called for. */
  method UpdateConfig(ctx: Context, pctx: Context, stored: seq<Disk>, input: seq<Disk>)
    returns (created: seq<string>, outcome: Outcome)
    requires ctx != pctx && !ctx.auth && !ctx.checked
    modifies ctx, pctx
    ensures pctx.auth == (old(pctx.auth) || Raises(stored, input)) && pctx.checked == old(pctx.checked)
    ensures ctx.checked == Raises(stored, input)
    ensures created == if stored != [] && |stored| == |input| then Missing(input, stored) else []
    ensures outcome == Ends <==> stored == [] == input
    ensures outcome == Stalls <==> Stops(stored, input)
    ensures outcome == GoesOn && created == [] ==> ctx.auth
  {
    created := [];
    if stored == [] {
      if input == [] {
        return created, Ends;
      }
      ctx.auth, ctx.checked, pctx.auth := true, true, true;
      return created, Stalls;
    } else if |stored| != |input| {
      ctx.auth, ctx.checked, pctx.auth := true, true, true;
      return created, GoesOn;
    }
    var gone := AnyGone(stored, input);
    if gone {
      ctx.auth, ctx.checked, pctx.auth := true, true, true;
    }
    hide Paths, Differs;
    for i := 0 to |input|
      invariant created == Missing(input[..i], stored)
      invariant ctx.checked <==> gone || exists k :: 0 <= k < i && Differs(input[k], stored)
      invariant pctx.auth == (old(pctx.auth) || gone) && pctx.checked == old(pctx.checked)
    {
      var x := Search(stored, input[i]);
      FoundDiffers(input[i], stored, x);
      assert input[..i + 1][..i] == input[..i];
      if x == -1 {
        created := created + [input[i].config.extDev];
      } else if ConfigCmp(stored[x], input[i]) != 0 {
        ctx.checked := true;
      }
    }
    assert input[..|input|] == input;
    if ctx.checked {
      pctx.auth := true;
      if created == [] {
        ctx.auth := true;
        return created, Stalls;
      }
    }
    var count := 1000 - |created|;
    if count == 1000 {
      ctx.auth := true;
    }
    return created, GoesOn;
  }

  /** With distinct stored paths: there was nothing stored for the input, or the input is as long and
      differs without a new path. A reconciliation that stops has always raised the parent's flag. */
  lemma StopsExactly(stored: seq<Disk>, input: seq<Disk>)
    requires DistinctPaths(stored)
    ensures Stops(stored, input) <==>
              if stored == [] then input != []
              else |stored| == |input| && Paths(input) <= Paths(stored) && !SameDisks(stored, input)
    ensures Stops(stored, input) ==> Raises(stored, input)
  {
    if stored != [] && |stored| == |input| {
      ExactForDistinct(stored, input);
      NoneMissing(input, stored);
    }
  }

  lemma LastPath(disks: seq<Disk>)
    requires disks != [] && DistinctPaths(disks)
    ensures var (rest, p) := (disks[..|disks| - 1], disks[|disks| - 1].config.extDev);
            DistinctPaths(rest) && Paths(disks) == Paths(rest) + {p} && p !in Paths(rest)
  {
    assert disks == disks[..|disks| - 1] + [disks[|disks| - 1]];
  }

  lemma {:induction false} PathsCardinality(disks: seq<Disk>)
    requires DistinctPaths(disks)
    ensures |Paths(disks)| == |disks|
  {
    if disks != [] {
      LastPath(disks);
      hide Paths, DistinctPaths;
      PathsCardinality(disks[..|disks| - 1]);
    }
  }

  /** The pigeonhole: as many stored paths as input paths, and one input path is not stored;
      then one stored path is not in the input. */
  lemma MissingBothWays(stored: seq<Disk>, input: seq<Disk>)
    requires DistinctPaths(stored) && DistinctPaths(input) && |stored| == |input|
    ensures Paths(stored) <= Paths(input) <==> Paths(input) <= Paths(stored)
    ensures |Paths(input) - Paths(stored)| == |Paths(stored) - Paths(input)|
  {
    PathsCardinality(stored);
    PathsCardinality(input);
    var s, i := Paths(stored), Paths(input);
    assert s == (s - i) + (s * i) && i == (i - s) + (s * i);
  }

  lemma OneMore(a: set<string>, b: set<string>, x: string)
    requires x !in a
    ensures a + {x} - b == if x in b then a - b else a - b + {x}
    ensures |a + {x} - b| == |a - b| + if x in b then 0 else 1
  {
  }

  lemma {:induction false} MissingCount(input: seq<Disk>, stored: seq<Disk>)
    requires DistinctPaths(input)
    ensures |Missing(input, stored)| == |Paths(input) - Paths(stored)|
  {
    if input != [] {
      LastPath(input);
      hide Paths, DistinctPaths;
      var rest, p := input[..|input| - 1], input[|input| - 1].config.extDev;
      MissingCount(rest, stored);
      OneMore(Paths(rest), Paths(stored), p);
    }
  }

  /** The decision is exact: with distinct paths on both sides the flag is raised exactly when the
      two lists do not give the same configuration to the same paths. */
  lemma ReconciliationIsExact(stored: seq<Disk>, input: seq<Disk>)
    requires DistinctPaths(stored) && DistinctPaths(input)
    ensures Raises(stored, input) <==> !SameDisks(stored, input)
  {
    PathsCardinality(stored);
    PathsCardinality(input);
    if |stored| == |input| && stored != [] {
      MissingBothWays(stored, input);
      if SameDisks(stored, input) {
        assert !exists i :: 0 <= i < |input| && Differs(input[i], stored);
      } else if Paths(stored) == Paths(input) {
        var i, j :| 0 <= i < |stored| && 0 <= j < |input| && stored[i].config.extDev == input[j].config.extDev
                    && stored[i].config != input[j].config;
        assert Differs(input[j], stored);
      }
    }
  }

  /** The new disks are created: as many calls as there are input paths that are not stored, which
      is also the number of stored paths that are gone. */
  lemma CreatedDisks(stored: seq<Disk>, input: seq<Disk>)
    requires DistinctPaths(stored) && DistinctPaths(input) && |stored| == |input|
    ensures |Missing(input, stored)| == |Paths(input) - Paths(stored)| == |Paths(stored) - Paths(input)|
    ensures Missing(input, stored) != [] ==> Raises(stored, input)
  {
    MissingCount(input, stored);
    MissingBothWays(stored, input);
    if Missing(input, stored) != [] {
      assert Paths(input) - Paths(stored) != {};
    }
  }

  // ---- When a difference can go unnoticed ----

  lemma {:induction false} PathsAtMost(disks: seq<Disk>)
    ensures |Paths(disks)| <= |disks|
  {
    if disks != [] {
      var rest, last := disks[..|disks| - 1], disks[|disks| - 1];
      assert disks == rest + [last];
      assert Paths(disks) == Paths(rest) + {last.config.extDev};
      hide Paths;
      PathsAtMost(rest);
    }
  }

  lemma {:induction false} NoneMissing(input: seq<Disk>, stored: seq<Disk>)
    ensures Missing(input, stored) == [] <==> Paths(input) <= Paths(stored)
  {
    if input != [] {
      var rest, last := input[..|input| - 1], input[|input| - 1];
      assert input == rest + [last];
      assert Paths(input) == Paths(rest) + {last.config.extDev};
      hide Paths;
      NoneMissing(rest, stored);
    }
  }

  lemma SubsetOfSameSize<T>(a: set<T>, b: set<T>)
    requires a <= b && |b| <= |a|
    ensures a == b
  {
    assert b == a + (b - a);
  }

  /** The disks to be created are the input's, in its order, without those whose path is stored. */
  lemma {:induction false} MissingInOrder(a: seq<Disk>, b: seq<Disk>, stored: seq<Disk>)
    ensures Missing(a + b, stored) == Missing(a, stored) + Missing(b, stored)
  {
    if b == [] {
      assert a + b == a;
    } else {
      var rest := b[..|b| - 1];
      assert (a + b)[..|a + b| - 1] == a + rest;
      MissingInOrder(a, rest, stored);
    }
  }

  lemma MissingOne(d: Disk, stored: seq<Disk>)
    ensures Missing([d], stored) == if d.config.extDev in Paths(stored) then [] else [d.config.extDev]
  {
    assert [d][..0] == [];
  }

  lemma {:induction false} MissingPaths(input: seq<Disk>, stored: seq<Disk>, p: string)
    ensures p in Missing(input, stored) <==> p in Paths(input) && p !in Paths(stored)
  {
    if input != [] {
      var rest, last := input[..|input| - 1], input[|input| - 1];
      assert input == rest + [last];
      assert Paths(input) == Paths(rest) + {last.config.extDev};
      hide Paths;
      MissingPaths(rest, stored, p);
    }
  }

  /** Distinct stored paths are enough for two lists of one length, whatever the input repeats. */
  lemma ExactForDistinct(stored: seq<Disk>, input: seq<Disk>)
    requires DistinctPaths(stored) && |input| == |stored|
    ensures Raises(stored, input) <==> !SameDisks(stored, input)
    ensures Missing(input, stored) != [] ==> Raises(stored, input)
  {
    PathsCardinality(stored);
    PathsAtMost(input);
    NoneMissing(input, stored);
    if stored != [] && Paths(stored) <= Paths(input) {
      SubsetOfSameSize(Paths(stored), Paths(input));
      if !SameDisks(stored, input) {
        var i, j :| 0 <= i < |stored| && 0 <= j < |input| && stored[i].config.extDev == input[j].config.extDev
                    && stored[i].config != input[j].config;
        assert Differs(input[j], stored);
      }
    }
  }

  /** Longer than every path. */
  function FreshPath(disks: seq<Disk>): (p: string)
    ensures forall d :: d in disks ==> |d.config.extDev| < |p|
  {
    if disks == [] then "x"
    else
      assert disks == [disks[0]] + disks[1..];
      FreshPath(disks[1..]) + disks[0].config.extDev
  }

  /** The first disk from i on of the same path as disks[k]. */
  function FirstFrom(disks: seq<Disk>, k: nat, i: nat): (f: nat)
    requires i <= k < |disks|
    ensures i <= f <= k && disks[f].config.extDev == disks[k].config.extDev
    ensures forall j :: i <= j < f ==> disks[j].config.extDev != disks[k].config.extDev
    decreases k - i
  {
    if disks[i].config.extDev == disks[k].config.extDev then i else FirstFrom(disks, k, i + 1)
  }

  /** A list that hides a new disk behind disks[j]: the new one in its place, and everywhere else
      the first disk of the path. */
  function Hiding(disks: seq<Disk>, j: nat): (input: seq<Disk>)
    requires j < |disks|
    ensures |input| == |disks|
  {
    var added := disks[j].(config := disks[j].config.(extDev := FreshPath(disks)));
    seq(|disks|, k requires 0 <= k < |disks| => if k == j then added else disks[FirstFrom(disks, k, 0)])
  }

  lemma HidingKeepsPaths(stored: seq<Disk>, i: nat, j: nat)
    requires i < j < |stored| && stored[i].config.extDev == stored[j].config.extDev
    ensures Paths(stored) <= Paths(Hiding(stored, j))
  {
    var input := Hiding(stored, j);
    forall p | p in Paths(stored) ensures p in Paths(input) {
      var k :| 0 <= k < |stored| && stored[k].config.extDev == p;
      var f := FirstFrom(stored, k, 0);
      assert FirstFrom(stored, f, 0) == f;
      assert f != j;
      assert input[f] == stored[f];
      assert input[f] in input;
    }
  }

  lemma HidingAdds(stored: seq<Disk>, j: nat)
    requires j < |stored|
    ensures var input := Hiding(stored, j);
            input[j].config.extDev in Paths(input) && input[j].config.extDev !in Paths(stored) && !Differs(input[j], stored)
  {
    var d := Hiding(stored, j)[j];
    assert d in Hiding(stored, j);
    assert d.config.extDev == FreshPath(stored);
    hide FreshPath, Hiding;
    assert forall n :: 0 <= n < |stored| ==> stored[n] in stored && stored[n].config.extDev != d.config.extDev;
  }

  lemma HidingKeepsConfigs(stored: seq<Disk>, j: nat, k: nat)
    requires j < |stored| && k < |stored| && k != j
    ensures !Differs(Hiding(stored, j)[k], stored)
  {
    var f := FirstFrom(stored, k, 0);
    assert Hiding(stored, j)[k] == stored[f];
    assert stored[f] in stored;
    hide Hiding, FirstFrom, Differs;
    FoundDiffers(stored[f], stored, f);
  }

  lemma HidingHides(stored: seq<Disk>, i: nat, j: nat)
    requires i < j < |stored| && stored[i].config.extDev == stored[j].config.extDev
    ensures var input := Hiding(stored, j);
            && Missing(input, stored) != [] && !Raises(stored, input) && !SameDisks(stored, input)
  {
    var input := Hiding(stored, j);
    HidingAdds(stored, j);
    HidingKeepsPaths(stored, i, j);
    NoneMissing(input, stored);
    forall k | 0 <= k < |input| ensures !Differs(input[k], stored) {
      if k != j {
        HidingKeepsConfigs(stored, j, k);
      }
    }
    hide Hiding, Paths, Differs, Missing;
  }

  /** The decision notices every disk that has to be created, and for lists of one length every
      difference, if and only if no path is stored twice. */
  lemma DistinctPathsDecide(stored: seq<Disk>)
    ensures DistinctPaths(stored) <==>
            forall input :: |input| == |stored| && Missing(input, stored) != [] ==> Raises(stored, input)
    ensures DistinctPaths(stored) <==>
            forall input :: |input| == |stored| ==> (Raises(stored, input) <==> !SameDisks(stored, input))
  {
    if DistinctPaths(stored) {
      forall input | |input| == |stored|
        ensures Raises(stored, input) <==> !SameDisks(stored, input)
        ensures Missing(input, stored) != [] ==> Raises(stored, input)
      {
        ExactForDistinct(stored, input);
      }
    } else {
      var i, j :| 0 <= i < j < |stored| && stored[i].config.extDev == stored[j].config.extDev;
      HidingHides(stored, i, j);
    }
  }

  /** The smallest case: with one path stored twice, a disk that has to be created does not raise
      the flag. */
  lemma DuplicatePathGoesUnnoticed(d: Disk, e: Disk)
    requires d.config.extDev != e.config.extDev
    ensures !Raises([d, d], [d, e]) && Missing([d, e], [d, d]) == [e.config.extDev] && !SameDisks([d, d], [d, e])
  {
    var stored, input := [d, d], [d, e];
    assert Paths(stored) == {d.config.extDev};
    assert input[0] in input && input[1] in input;
    assert Paths(input) == {d.config.extDev, e.config.extDev};
    assert input[..1] == [d] && [d][..0] == [];
    assert Missing([d], stored) == [];
    forall i | 0 <= i < 2 ensures !Differs(input[i], stored) {
      if i == 0 {
        assert stored[0].config == input[0].config;
      }
    }
  }
}

/** The outcome funnel (`evolucion_casos`): confirmed cases split by
    vaccination, each half by complications, each quarter down to deaths;
    the eleven counts label the Sankey nodes and, with a fixed topology,
    give the widths of its ten links. */
module Funnel {
  import opened Common
  import opened Records

  predicate Vaccinated(r: CaseRecord) { r.vaccination == 1 }
  predicate Unvaccinated(r: CaseRecord) { r.vaccination == 2 }
  predicate WithComplications(r: CaseRecord) { r.complications == 1 }
  predicate WithoutComplications(r: CaseRecord) { r.complications == 2 }
  predicate Died(r: CaseRecord) { r.death == 1 }

  /** The mask node `k` applies to its parent's selection (node 0 selects
      the confirmed cases from the whole line list). */
  function NodeMask(k: nat): CaseRecord -> bool
    requires k < 11
  {
    if k == 0 then IsConfirmed
    else if k == 1 then Vaccinated
    else if k == 2 then Unvaccinated
    else if k == 3 || k == 5 then WithComplications
    else if k == 4 || k == 6 then WithoutComplications
    else Died
  }

  /** The selection of node `k`: `df`, `vac_si`, `vac_no`, `vac_si_comp_si`,
      ..., `def_vac_no_comp_no`, each its parent's rows filtered by its mask. */
  function Frame(cases: seq<CaseRecord>, k: nat): seq<CaseRecord>
    requires k < 11
    decreases k
  {
    if k == 0 then ConfirmedCases(cases) else Filter(Frame(cases, Parent(k)), NodeMask(k))
  }

  /** The node labels: the size of each selection, never altered. */
  function NodeCounts(cases: seq<CaseRecord>): (n: seq<nat>)
    ensures |n| == 11
  {
    seq(11, k requires 0 <= k < 11 => |Frame(cases, k)|)
  }

  /** The links: link `i` flows from node `Sources[i]` to node `Targets[i]`. */
  const Sources: seq<nat> := [0, 0, 1, 1, 2, 2, 3, 4, 5, 6]
  const Targets: seq<nat> := [1, 2, 3, 4, 5, 6, 7, 8, 9, 10]

  /** Extra width for the four death links, so that they stay visible. */
  const Epsilon: nat := 30

  /** The link widths: the first six are the child counts, the last four the
      death counts plus `Epsilon`. */
  function LinkValues(n: seq<nat>): (v: seq<nat>)
    requires |n| == 11
    ensures |v| == |Targets| == |Sources|
    ensures forall i :: 0 <= i < 6 ==> v[i] == n[Targets[i]]
    ensures forall i :: 6 <= i < 10 ==> v[i] == n[Targets[i]] + Epsilon
  {
    [n[1], n[2], n[3], n[4], n[5], n[6],
     n[7] + Epsilon, n[8] + Epsilon, n[9] + Epsilon, n[10] + Epsilon]
  }

  /** The links form a tree rooted at node 0: every other node is the target
      of exactly one link, a link always points to a later node, and the
      death links are the ones leaving the complication nodes 3..6. */
  lemma Topology()
    ensures forall i :: 0 <= i < 10 ==> Targets[i] == i + 1 && Sources[i] < Targets[i]
    ensures forall i, j :: 0 <= i < j < 10 ==> Targets[i] != Targets[j]
    ensures forall i :: 0 <= i < 10 ==> (i >= 6 <==> 3 <= Sources[i] <= 6)
  {
  }

  /** The parent of node `k`: the root above the vaccination nodes, those
      above their complication nodes, and each of these above its death node. */
  function Parent(k: nat): (p: nat)
    requires 1 <= k < 11
    ensures p < k
  {
    if k <= 2 then 0 else if k <= 4 then 1 else if k <= 6 then 2 else k - 4
  }

  /** The parent of every node is the source of the link into it. */
  lemma ParentIsSource(k: nat)
    requires 1 <= k < 11
    ensures Targets[k - 1] == k && Sources[k - 1] == Parent(k)
  {
  }

  /** A row reaches node `k` when it meets the conditions of every node on
      the path from the root to `k`. */
  predicate OnPath(k: nat, r: CaseRecord)
    requires k < 11
    decreases k
  {
    NodeMask(k)(r) && (k == 0 || OnPath(Parent(k), r))
  }

  /** Rows of `s` that reach node `k`. */
  function CountOnPath(s: seq<CaseRecord>, k: nat): nat
    requires k < 11
  {
    if s == [] then 0
    else CountOnPath(s[..|s| - 1], k) + (if OnPath(k, s[|s| - 1]) then 1 else 0)
  }

  /** The row `r` as it joins the selection of node `k`. */
  function Joins(k: nat, r: CaseRecord): seq<CaseRecord>
    requires k < 11
  {
    if OnPath(k, r) then [r] else []
  }

  /** Appending one row adds it to exactly the selections of the nodes it reaches. */
  lemma {:induction false} FrameStep(s: seq<CaseRecord>, r: CaseRecord, k: nat)
    requires k < 11
    ensures Frame(s + [r], k) == Frame(s, k) + Joins(k, r)
    decreases k
  {
    if k == 0 {
      FilterSnoc(s, r, IsConfirmed);
    } else {
      var p := Parent(k);
      FrameStep(s, r, p);
      FilterConcat(Frame(s, p), Joins(p, r), NodeMask(k));
      if OnPath(p, r) {
        FilterSnoc([], r, NodeMask(k));
        assert [] + [r] == [r];
      }
    }
  }

  /** Each node counts exactly the rows that meet every condition on its path. */
  lemma {:induction false} NodeCountsOnPath(cases: seq<CaseRecord>)
    ensures forall k :: 0 <= k < 11 ==> NodeCounts(cases)[k] == CountOnPath(cases, k)
  {
    if cases != [] {
      var init, r := cases[..|cases| - 1], cases[|cases| - 1];
      assert cases == init + [r];
      NodeCountsOnPath(init);
      forall k | 0 <= k < 11 ensures NodeCounts(cases)[k] == CountOnPath(cases, k) {
        FrameStep(init, r, k);
      }
    } else {
      forall k | 0 <= k < 11 ensures Frame(cases, k) == [] {
        EmptyFrame(cases, k);
      }
    }
  }

  lemma {:induction false} EmptyFrame(cases: seq<CaseRecord>, k: nat)
    requires cases == [] && k < 11
    ensures Frame(cases, k) == []
    decreases k
  {
    if k > 0 {
      EmptyFrame(cases, Parent(k));
    }
  }

  /** Rows that are not confirmed never reach the funnel. */
  lemma OnlyConfirmedCount(cases: seq<CaseRecord>, r: CaseRecord)
    requires !IsConfirmed(r)
    ensures NodeCounts(cases + [r]) == NodeCounts(cases)
  {
    forall k | 0 <= k < 11 ensures Frame(cases + [r], k) == Frame(cases, k) {
      FrameStep(cases, r, k);
      if OnPath(k, r) {
        OnPathConfirmed(k, r);
      }
    }
  }

  lemma {:induction false} OnPathConfirmed(k: nat, r: CaseRecord)
    requires k < 11 && OnPath(k, r)
    ensures IsConfirmed(r)
    decreases k
  {
    if k > 0 {
      OnPathConfirmed(Parent(k), r);
    }
  }

  lemma FrameChild(cases: seq<CaseRecord>, k: nat)
    requires 1 <= k < 11
    ensures Frame(cases, k) == Filter(Frame(cases, Parent(k)), NodeMask(k))
  {
  }

  /** The code a split reads: vaccination below the root, complications below nodes 1 and 2. */
  function SplitCode(parent: nat, r: CaseRecord): int
  {
    if parent == 0 then r.vaccination else r.complications
  }

  /** Along every branch the counts shrink: the two children of nodes 0, 1 and
      2 never hold more than their parent, and hold all of it exactly when
      every row of the parent has code 1 or 2 (rows with any other code are
      dropped). */
  lemma SplitShrinks(cases: seq<CaseRecord>, parent: nat)
    requires parent <= 2
    ensures var f := Frame(cases, parent);
      var yes, no := |Frame(cases, 2 * parent + 1)|, |Frame(cases, 2 * parent + 2)|;
      && yes + no <= |f|
      && (yes + no == |f| <==> forall i :: 0 <= i < |f| ==> SplitCode(parent, f[i]) in {1, 2})
  {
    var f := Frame(cases, parent);
    if parent == 0 {
      SplitOf(f, Vaccinated, Unvaccinated, 0);
    } else {
      SplitOf(f, WithComplications, WithoutComplications, parent);
    }
  }

  lemma SplitOf(f: seq<CaseRecord>, yes: CaseRecord -> bool, no: CaseRecord -> bool, parent: nat)
    requires forall r :: yes(r) <==> SplitCode(parent, r) == 1
    requires forall r :: no(r) <==> SplitCode(parent, r) == 2
    ensures |Filter(f, yes)| + |Filter(f, no)| <= |f|
    ensures |Filter(f, yes)| + |Filter(f, no)| == |f| <==>
            forall i :: 0 <= i < |f| ==> SplitCode(parent, f[i]) in {1, 2}
  {
    FilterDisjoint(f, yes, no);
  }

  /** A death node never exceeds its complications node. */
  lemma DeathsBounded(cases: seq<CaseRecord>, k: nat)
    requires 7 <= k <= 10
    ensures |Frame(cases, k)| <= |Frame(cases, k - 4)|
  {
    assert Parent(k) == k - 4;
  }
}

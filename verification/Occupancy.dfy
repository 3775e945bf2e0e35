/** Reserved capacity never exceeds the largest limit a node has had. */
module Occupancy {
  import opened Facts
  import opened Ledger
  import opened Calls
  import opened Coupling
  import opened CouplingRuns
  import opened Evolution
  import opened EvolutionSteps
  import opened Lifecycle

  // The largest min(hard, desired) node n has shown to any transaction of the run.
  ghost function PeakLimit(h: History, n: Id): int
    decreases |h|
  {
    if h == [] then 0
    else
      var rest := PeakLimit(h[..|h|-1], n);
      var site := h[|h|-1].0;
      if n in site.nodes && Limit(site.nodes[n]) > rest then Limit(site.nodes[n]) else rest
  }

  lemma RoomToPlace(db: Db, site: Site, call: Call, d: Db, a: Id)
    requires a in d.allocations && NewAllocation(db, site, call, d, a)
    ensures d.allocations[a].node in site.nodes
    ensures |Occupied(db, d.allocations[a].node)| < Limit(site.nodes[d.allocations[a].node])
    ensures (call.CPlace? || call.CReserveRun?) && a == call.a
  {
    hide Proved, SoundScan, Quiet, Offered;
  }

  lemma StepOccupied(db: Db, site: Site, call: Call, d: Db, n: Id)
    requires AllocationsEvolve(db, site, call, d)
    ensures |Occupied(d, n)| <= |Occupied(db, n)|
            || (n in site.nodes && |Occupied(d, n)| <= Limit(site.nodes[n]))
  {
    hide NewAllocation, Reclaims;
    if !(Occupied(d, n) <= Occupied(db, n)) {
      var added :| added in Occupied(d, n) && added !in Occupied(db, n);
      assert added in db.allocations ==> AllocationStep(db, call, d, added);
      RoomToPlace(db, site, call, d, added);
      forall a | a in Occupied(d, n) && a != added
        ensures a in Occupied(db, n)
      {
        if a in db.allocations {
          assert AllocationStep(db, call, d, a);
        } else {
          RoomToPlace(db, site, call, d, a);
        }
      }
      SubsetSize(Occupied(d, n), Occupied(db, n) + {added});
    } else {
      SubsetSize(Occupied(d, n), Occupied(db, n));
    }
  }

  lemma {:induction false} SubsetSize<T>(s: set<T>, t: set<T>)
    requires s <= t
    ensures |s| <= |t|
    decreases |s|
  {
    if s != {} {
      var x :| x in s;
      SubsetSize(s - {x}, t - {x});
    }
  }

  // Players and validations together never hold more of a node than the largest limit it has had,
  // however the limits moved in between.
  lemma {:induction false} OccupancyBound(h: History, n: Id)
    ensures |Occupied(Exec(h), n)| <= PeakLimit(h, n)
    decreases |h|
  {
    if h != [] {
      var m := h[..|h|-1];
      OccupancyBound(m, n);
      RunKeepsInv(m);
      CallEvolves(Exec(m), h[|h|-1].0, h[|h|-1].1);
      hide AllocationsEvolve, Inv, Occupied, Apply;
      StepOccupied(Exec(m), h[|h|-1].0, h[|h|-1].1, Exec(h), n);
    } else {
      assert Occupied(Exec(h), n) == {};
    }
  }
}

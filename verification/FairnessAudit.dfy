/** The audit at the end of a simulation: every pair of clients that left the queue in the opposite order to the one
    they entered it in is an unfair event. Times are in nanoseconds. */
module FairnessAudit {
  import opened Counting
  import opened Redis
  import opened Clients

  datatype Visit = Visit(id: ClientId, lbl: string, entry: int, exit: int, reachedCheckout: bool)

  /** Client y came after x and left before it: x was cheated, y gained. */
  predicate Unfair(x: Visit, y: Visit) {
    x.entry < y.entry && y.exit < x.exit
  }

  function Gap(x: Visit, y: Visit): int {
    y.entry - x.entry
  }

  /** The unfair events up to row i, column j: positions of a cheated client and of one that gained. */
  ghost function EventsUpTo(vs: seq<Visit>, i: nat, j: nat): set<(nat, nat)> {
    set a: nat, b: nat | a < |vs| && b < |vs| && (a < i || (a == i && b < j)) && Unfair(vs[a], vs[b]) :: (a, b)
  }

  ghost function Events(vs: seq<Visit>): set<(nat, nat)> {
    EventsUpTo(vs, |vs|, 0)
  }

  ghost function CheatedIds(vs: seq<Visit>, events: set<(nat, nat)>): set<ClientId> {
    set e | e in events && e.0 < |vs| :: vs[e.0].id
  }

  ghost function GainingIds(vs: seq<Visit>, events: set<(nat, nat)>): set<ClientId> {
    set e | e in events && e.1 < |vs| :: vs[e.1].id
  }

  /** The gap of each event. */
  ghost function GapsUpTo(vs: seq<Visit>, i: nat, j: nat): map<(nat, nat), int> {
    map e | e in EventsUpTo(vs, i, j) && e.0 < |vs| && e.1 < |vs| :: Gap(vs[e.0], vs[e.1])
  }

  ghost function Gaps(vs: seq<Visit>): map<(nat, nat), int> {
    GapsUpTo(vs, |vs|, 0)
  }

  // ---- counts by label ----

  ghost function WithLabel(vs: seq<Visit>, ids: set<ClientId>, l: string): set<ClientId> {
    set k: nat | k < |vs| && vs[k].id in ids && vs[k].lbl == l :: vs[k].id
  }

  /** counts says how many of the ids bear each label, and adds up to all of them. */
  ghost predicate CountsLabels(vs: seq<Visit>, ids: set<ClientId>, counts: map<string, int>) {
    (forall l :: Lookup(counts, l).GetOr(0) == |WithLabel(vs, ids, l)|) && SumOf(counts) == |ids|
  }

  ghost predicate DistinctIds(vs: seq<Visit>) {
    forall i, j :: 0 <= i < j < |vs| ==> vs[i].id != vs[j].id
  }

  lemma CountOneMore(vs: seq<Visit>, ids: set<ClientId>, counts: map<string, int>, k: nat)
    requires DistinctIds(vs) && k < |vs| && vs[k].id !in ids && CountsLabels(vs, ids, counts)
    ensures CountsLabels(vs, ids + {vs[k].id}, Bump(counts, vs[k].lbl, 1))
  {
    hide WithLabel;
    SumOfBump(counts, vs[k].lbl, 1);
    forall l ensures Lookup(Bump(counts, vs[k].lbl, 1), l).GetOr(0) == |WithLabel(vs, ids + {vs[k].id}, l)| {
      assert Lookup(counts, l).GetOr(0) == |WithLabel(vs, ids, l)|;
      LabelOneMore(vs, ids, k, l);
    }
  }

  lemma LabelOneMore(vs: seq<Visit>, ids: set<ClientId>, k: nat, l: string)
    requires DistinctIds(vs) && k < |vs| && vs[k].id !in ids
    ensures |WithLabel(vs, ids + {vs[k].id}, l)| == |WithLabel(vs, ids, l)| + if vs[k].lbl == l then 1 else 0
  {
    var c := vs[k].id;
    var before, after := WithLabel(vs, ids, l), WithLabel(vs, ids + {c}, l);
    forall d | d in after && d != c ensures d in before {
      var m: nat :| m < |vs| && vs[m].id == d && vs[m].lbl == l;
    }
    if c in after {
      var m: nat :| m < |vs| && vs[m].id == c && vs[m].lbl == l;
      assert m == k;
    }
    assert after == before + if vs[k].lbl == l then {c} else {};
  }

  // ---- the running totals ----

  datatype Tally = Tally(
    numEvents: nat, summedGaps: int, cheated: set<ClientId>, gaining: set<ClientId>,
    cheatedByLabel: map<string, int>, gainingByLabel: map<string, int>)

  ghost predicate TallyOk(vs: seq<Visit>, i: nat, j: nat, t: Tally)
    requires i <= |vs| && j <= |vs| && (i == |vs| ==> j == 0)
  {
    && t.numEvents == |EventsUpTo(vs, i, j)|
    && t.summedGaps == SumOf(GapsUpTo(vs, i, j))
    && t.cheated == CheatedIds(vs, EventsUpTo(vs, i, j))
    && t.gaining == GainingIds(vs, EventsUpTo(vs, i, j))
    && CountsLabels(vs, t.cheated, t.cheatedByLabel)
    && CountsLabels(vs, t.gaining, t.gainingByLabel)
  }

  lemma NextColumn(vs: seq<Visit>, i: nat, j: nat)
    requires i < |vs| && j < |vs|
    ensures (i, j) !in EventsUpTo(vs, i, j)
    ensures EventsUpTo(vs, i, j + 1) == EventsUpTo(vs, i, j) + if Unfair(vs[i], vs[j]) then {(i, j)} else {}
  {
  }

  /** One more event adds its gap to the sum. */
  lemma NextGap(vs: seq<Visit>, i: nat, j: nat)
    requires i < |vs| && j < |vs|
    ensures SumOf(GapsUpTo(vs, i, j + 1))
         == SumOf(GapsUpTo(vs, i, j)) + if Unfair(vs[i], vs[j]) then Gap(vs[i], vs[j]) else 0
  {
    NextColumn(vs, i, j);
    var gaps, more := GapsUpTo(vs, i, j), GapsUpTo(vs, i, j + 1);
    hide EventsUpTo, Unfair, Gap;
    if Unfair(vs[i], vs[j]) {
      SumOfBump(gaps, (i, j), Gap(vs[i], vs[j]));
      assert more == Bump(gaps, (i, j), Gap(vs[i], vs[j]));
    } else {
      assert more == gaps;
    }
  }

  lemma MoreIds(vs: seq<Visit>, events: set<(nat, nat)>, i: nat, j: nat)
    requires i < |vs| && j < |vs|
    ensures CheatedIds(vs, events + {(i, j)}) == CheatedIds(vs, events) + {vs[i].id}
    ensures GainingIds(vs, events + {(i, j)}) == GainingIds(vs, events) + {vs[j].id}
  {
    forall c | c in CheatedIds(vs, events) ensures c in CheatedIds(vs, events + {(i, j)}) {
      var e :| e in events && e.0 < |vs| && vs[e.0].id == c;
      assert e in events + {(i, j)};
    }
    forall c | c in GainingIds(vs, events) ensures c in GainingIds(vs, events + {(i, j)}) {
      var e :| e in events && e.1 < |vs| && vs[e.1].id == c;
      assert e in events + {(i, j)};
    }
    assert (i, j) in events + {(i, j)};
  }

  lemma NextRow(vs: seq<Visit>, i: nat)
    requires i < |vs|
    ensures EventsUpTo(vs, i, |vs|) == EventsUpTo(vs, i + 1, 0)
  {
  }

  lemma NoEventsYet(vs: seq<Visit>)
    ensures TallyOk(vs, 0, 0, Tally(0, 0, {}, {}, map[], map[]))
  {
    assert EventsUpTo(vs, 0, 0) == {};
    forall l ensures WithLabel(vs, {}, l) == {} {
    }
  }

  /** Both counts of one event, first the label of a client not yet in the set, then the client itself. */
  method CountEvent(vs: seq<Visit>, i: nat, j: nat, t: Tally) returns (t': Tally)
    requires DistinctIds(vs) && i < |vs| && j < |vs| && TallyOk(vs, i, j, t)
    requires Unfair(vs[i], vs[j])
    ensures TallyOk(vs, i, j + 1, t')
  {
    hide EventsUpTo, CheatedIds, GainingIds, CountsLabels, GapsUpTo;
    NextColumn(vs, i, j);
    NextGap(vs, i, j);
    MoreIds(vs, EventsUpTo(vs, i, j), i, j);
    var cx, cy := vs[i], vs[j];
    t' := t.(numEvents := t.numEvents + 1);
    if cx.id !in t'.cheated {
      CountOneMore(vs, t.cheated, t.cheatedByLabel, i);
      t' := t'.(cheatedByLabel := Bump(t'.cheatedByLabel, cx.lbl, 1));
    } else {
      assert t.cheated + {cx.id} == t.cheated;
    }
    if cy.id !in t'.gaining {
      CountOneMore(vs, t.gaining, t.gainingByLabel, j);
      t' := t'.(gainingByLabel := Bump(t'.gainingByLabel, cy.lbl, 1));
    } else {
      assert t.gaining + {cy.id} == t.gaining;
    }
    t' := t'.(cheated := t'.cheated + {cx.id}, gaining := t'.gaining + {cy.id});
    t' := t'.(summedGaps := t'.summedGaps + Gap(cx, cy));
  }

  /** Row i is searched for the client that came longest after vs[i] and left before it. */
  ghost predicate LargestInRow(vs: seq<Visit>, i: nat, j: nat, gap: int, y: Visit)
    requires i < |vs| && j <= |vs|
  {
    && gap >= 0
    && (forall b :: 0 <= b < j && Unfair(vs[i], vs[b]) ==> Gap(vs[i], vs[b]) <= gap)
    && (gap > 0 ==> y in vs && Unfair(vs[i], y) && Gap(vs[i], y) == gap)
  }

  ghost predicate LargestBefore(vs: seq<Visit>, i: nat, gap: int, worst: Option<(Visit, Visit)>)
    requires i <= |vs|
  {
    && gap >= 0
    && (forall a, b :: 0 <= a < i && 0 <= b < |vs| && Unfair(vs[a], vs[b]) ==> Gap(vs[a], vs[b]) <= gap)
    && (gap > 0 <==> worst.Some?)
    && (gap > 0 ==>
          var (x, y) := worst.value; x in vs && y in vs && Unfair(x, y) && Gap(x, y) == gap)
  }

  method AuditRow(vs: seq<Visit>, i: nat, t: Tally) returns (t': Tally, localMax: int, maxCy: Visit)
    requires DistinctIds(vs) && i < |vs| && TallyOk(vs, i, 0, t)
    ensures TallyOk(vs, i + 1, 0, t')
    ensures LargestInRow(vs, i, |vs|, localMax, maxCy)
  {
    hide TallyOk;
    var cx := vs[i];
    t', localMax, maxCy := t, 0, cx;
    for j := 0 to |vs|
      invariant TallyOk(vs, i, j, t')
      invariant LargestInRow(vs, i, j, localMax, maxCy)
    {
      var cy := vs[j];
      if cy.entry > cx.entry && cy.exit < cx.exit {
        t' := CountEvent(vs, i, j, t');
        var gap := Gap(cx, cy);
        if gap > localMax {
          maxCy := cy;
          localMax := gap;
        }
      } else {
        FairColumn(vs, i, j, t');
      }
    }
    RowDone(vs, i, t');
  }

  lemma FairColumn(vs: seq<Visit>, i: nat, j: nat, t: Tally)
    requires i < |vs| && j < |vs| && TallyOk(vs, i, j, t) && !Unfair(vs[i], vs[j])
    ensures TallyOk(vs, i, j + 1, t)
  {
    hide EventsUpTo, CheatedIds, GainingIds, CountsLabels, GapsUpTo;
    NextColumn(vs, i, j);
    NextGap(vs, i, j);
    assert EventsUpTo(vs, i, j + 1) == EventsUpTo(vs, i, j);
  }

  lemma RowDone(vs: seq<Visit>, i: nat, t: Tally)
    requires i < |vs| && TallyOk(vs, i, |vs|, t)
    ensures TallyOk(vs, i + 1, 0, t)
  {
    hide EventsUpTo, CheatedIds, GainingIds, CountsLabels;
    NextRow(vs, i);
    assert GapsUpTo(vs, i, |vs|) == GapsUpTo(vs, i + 1, 0);
  }

  /** Those who reached checkout, in order. */
  function Reached(all: seq<Visit>, n: nat): seq<Visit>
    requires n <= |all|
  {
    if n == 0 then [] else
      Reached(all, n - 1) + if all[n - 1].reachedCheckout then [all[n - 1]] else []
  }

  /** Only clients that reached checkout are audited. The number of events is that of all pairs in inverse order; the
      sum and the maximum are those of the gaps of exactly these pairs; the worst pair attains the maximum, and there
      is one exactly if there is an event; each count by label is the number of distinct clients of that label, and
      together they make up all distinct clients. */
  method AggregateFairnessResults(all: seq<Visit>)
      returns (t: Tally, globalMax: int, worst: Option<(Visit, Visit)>, vs: seq<Visit>)
    requires DistinctIds(all)
    ensures vs == Reached(all, |all|)
    ensures t.numEvents == |Events(vs)| && t.summedGaps == SumOf(Gaps(vs))
    ensures t.cheated == CheatedIds(vs, Events(vs)) && CountsLabels(vs, t.cheated, t.cheatedByLabel)
    ensures t.gaining == GainingIds(vs, Events(vs)) && CountsLabels(vs, t.gaining, t.gainingByLabel)
    ensures LargestBefore(vs, |vs|, globalMax, worst)
    ensures worst.None? <==> Events(vs) == {}
  {
    hide DistinctIds, TallyOk, LargestInRow, LargestBefore, CountsLabels, CheatedIds, GainingIds, EventsUpTo, GapsUpTo;
    vs := [];
    for k := 0 to |all|
      invariant vs == Reached(all, k)
    {
      if all[k].reachedCheckout {
        vs := vs + [all[k]];
      }
    }
    ReachedDistinct(all, |all|);
    t, globalMax, worst := Tally(0, 0, {}, {}, map[], map[]), 0, None;
    NoEventsYet(vs);
    hide Reached;
    NoneBefore(vs);
    for i := 0 to |vs|
      invariant TallyOk(vs, i, 0, t)
      invariant LargestBefore(vs, i, globalMax, worst)
    {
      var cx := vs[i];
      var localMax, maxCy;
      t, localMax, maxCy := AuditRow(vs, i, t);
      RowJoins(vs, i, globalMax, worst, localMax, maxCy);
      if localMax > globalMax {
        globalMax := localMax;
        worst := Some((cx, maxCy));
      }
    }
    TallyAtEnd(vs, t);
    WorstIffEvents(vs, globalMax, worst);
  }

  lemma NoneBefore(vs: seq<Visit>)
    ensures LargestBefore(vs, 0, 0, None)
  {
  }

  /** The larger of the maximum so far and that of the next row. */
  lemma RowJoins(vs: seq<Visit>, i: nat, gap: int, worst: Option<(Visit, Visit)>, localMax: int, y: Visit)
    requires i < |vs| && LargestBefore(vs, i, gap, worst) && LargestInRow(vs, i, |vs|, localMax, y)
    ensures if localMax > gap then LargestBefore(vs, i + 1, localMax, Some((vs[i], y)))
            else LargestBefore(vs, i + 1, gap, worst)
  {
    hide Gap, Unfair;
  }

  lemma TallyAtEnd(vs: seq<Visit>, t: Tally)
    requires TallyOk(vs, |vs|, 0, t)
    ensures t.numEvents == |Events(vs)| && t.summedGaps == SumOf(Gaps(vs))
    ensures t.cheated == CheatedIds(vs, Events(vs)) && CountsLabels(vs, t.cheated, t.cheatedByLabel)
    ensures t.gaining == GainingIds(vs, Events(vs)) && CountsLabels(vs, t.gaining, t.gainingByLabel)
  {
    hide EventsUpTo, CheatedIds, GainingIds, CountsLabels;
  }

  lemma WorstIffEvents(vs: seq<Visit>, gap: int, worst: Option<(Visit, Visit)>)
    requires LargestBefore(vs, |vs|, gap, worst)
    ensures worst.None? <==> Events(vs) == {}
  {
    if worst.Some? {
      var (x, y) := worst.value;
      var a: nat :| a < |vs| && vs[a] == x;
      var b: nat :| b < |vs| && vs[b] == y;
      assert (a, b) in Events(vs);
    }
    forall e | e in Events(vs) ensures gap > 0 {
      assert Gap(vs[e.0], vs[e.1]) <= gap;
    }
  }

  lemma {:induction false} ReachedDistinct(all: seq<Visit>, n: nat)
    requires DistinctIds(all) && n <= |all|
    ensures DistinctIds(Reached(all, n))
    ensures forall v :: v in Reached(all, n) ==> v in all[..n]
  {
    if n > 0 {
      ReachedDistinct(all, n - 1);
      assert all[..n] == all[..n - 1] + [all[n - 1]];
      forall v | v in Reached(all, n - 1) ensures v.id != all[n - 1].id {
        var k :| 0 <= k < n - 1 && all[k] == v;
      }
    }
  }

  // ---- the results in entry and exit times ----

  /** An event is a pair of clients that left in the opposite order to that in which they came; its gap is the time
      between their arrivals. */
  lemma EventsExact(vs: seq<Visit>, a: nat, b: nat)
    ensures (a, b) in Events(vs)
      <==> a < |vs| && b < |vs| && vs[a].entry < vs[b].entry && vs[b].exit < vs[a].exit
    ensures Gaps(vs).Keys == Events(vs)
    ensures (a, b) in Events(vs) ==> Gaps(vs)[(a, b)] == vs[b].entry - vs[a].entry
  {
  }

  /** The cheated are those that came first in some event, the gaining those that came later. */
  lemma IdsExact(vs: seq<Visit>, id: ClientId)
    ensures id in CheatedIds(vs, Events(vs)) <==> exists a: nat, b: nat :: (a, b) in Events(vs) && vs[a].id == id
    ensures id in GainingIds(vs, Events(vs)) <==> exists a: nat, b: nat :: (a, b) in Events(vs) && vs[b].id == id
  {
    if id in CheatedIds(vs, Events(vs)) {
      var e :| e in Events(vs) && e.0 < |vs| && vs[e.0].id == id;
      assert (e.0, e.1) in Events(vs);
    }
    if id in GainingIds(vs, Events(vs)) {
      var e :| e in Events(vs) && e.1 < |vs| && vs[e.1].id == id;
      assert (e.0, e.1) in Events(vs);
    }
  }

  /** A label's count is the number of the given clients that bear it, and all counts add up to all of them. */
  lemma LabelsExact(vs: seq<Visit>, ids: set<ClientId>, counts: map<string, int>, l: string)
    requires CountsLabels(vs, ids, counts)
    ensures Lookup(counts, l).GetOr(0) == |set k: nat | k < |vs| && vs[k].lbl == l && vs[k].id in ids :: vs[k].id|
    ensures SumOf(counts) == |ids|
  {
    assert WithLabel(vs, ids, l) == set k: nat | k < |vs| && vs[k].lbl == l && vs[k].id in ids :: vs[k].id;
  }

  /** The maximum bounds the gap of every event, and the worst pair, if there is one, attains it. */
  lemma WorstExact(vs: seq<Visit>, gap: int, worst: Option<(Visit, Visit)>, a: nat, b: nat)
    requires LargestBefore(vs, |vs|, gap, worst)
    ensures (a, b) in Events(vs) ==> vs[b].entry - vs[a].entry <= gap
    ensures worst.None? ==> gap == 0
    ensures worst.Some? ==>
      var (x, y) := worst.value;
      && x in vs && y in vs && x.entry < y.entry && y.exit < x.exit && y.entry - x.entry == gap
  {
    EventsExact(vs, a, b);
    if (a, b) in Events(vs) {
      assert Gap(vs[a], vs[b]) <= gap;
    }
  }

  /** Exactly the clients that reached checkout are audited. */
  lemma {:induction false} ReachedExact(all: seq<Visit>, n: nat, v: Visit)
    requires n <= |all|
    ensures v in Reached(all, n) <==> v in all[..n] && v.reachedCheckout
  {
    if n > 0 {
      ReachedExact(all, n - 1, v);
      assert all[..n] == all[..n - 1] + [all[n - 1]];
    }
  }
}

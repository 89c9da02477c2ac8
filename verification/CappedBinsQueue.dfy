/** The in-memory queue of equally filled bins: arrivals fill one bin after the other, and the tracker's feedback
    decides how many bins may proceed. */
module CappedBins {
  import opened Arithmetic
  import opened Counting
  import opened Redis
  import opened Clients
  import opened Admission
  import opened WindowTracker

  // ---- bins by arithmetic ----

  /** The bin of the arrival with number k, counting arrivals from 0 and bins from 1. */
  function BinOf(binSize: int, k: nat): int
    requires binSize >= 1
  {
    k / binSize + 1
  }

  /** Being stamped up to bin w is being among the first w * binSize arrivals. */
  lemma AdmittedPrefix(binSize: int, k: nat, w: int)
    requires binSize >= 1
    ensures BinOf(binSize, k) <= w <==> k < w * binSize
  {
    QuotientAtLeast(k, binSize, w);
  }

  /** So of n arrivals, bins 1, …, w admit exactly the first w * binSize, or all of them if there are fewer. */
  lemma AdmittedCount(binSize: int, n: nat, w: nat)
    requires binSize >= 1
    ensures |set k: nat | k < n && BinOf(binSize, k) <= w| == Min(n, w * binSize)
  {
    hide BinOf;
    assert w * binSize >= 0;
    var admitted := set k: nat | k < n && BinOf(binSize, k) <= w;
    var prefix := Below(Min(n, w * binSize));
    forall k: nat | k < n ensures k in admitted <==> k in prefix {
      AdmittedPrefix(binSize, k, w);
    }
    assert admitted == prefix;
  }

  /** One more arrival either fits the last bin or opens the next. */
  lemma BinStep(binSize: int, k: nat, bin: int)
    requires binSize >= 1 && (bin - 1) * binSize <= k <= bin * binSize
    ensures BinOf(binSize, k) == if k == bin * binSize then bin + 1 else bin
  {
    hide BinOf;
    AdmittedPrefix(binSize, k, bin);
    AdmittedPrefix(binSize, k, bin - 1);
    AdmittedPrefix(binSize, k, bin + 1);
    assert (bin + 1) * binSize == bin * binSize + binSize;
  }

  /** The bin of the last of n arrivals. */
  lemma LastBin(binSize: int, n: nat)
    requires binSize >= 1
    ensures BinOf(binSize, 0) == 1
    ensures n > 0 ==>
      1 <= BinOf(binSize, n - 1) && (BinOf(binSize, n - 1) - 1) * binSize < n <= BinOf(binSize, n - 1) * binSize
  {
    AdmittedPrefix(binSize, 0, 1);
    AdmittedPrefix(binSize, 0, 0);
    if n > 0 {
      AdmittedPrefix(binSize, n - 1, 0);
      AdmittedPrefix(binSize, n - 1, BinOf(binSize, n - 1));
      AdmittedPrefix(binSize, n - 1, BinOf(binSize, n - 1) - 1);
    }
  }

  /** The clients whose place in the log puts them in bin b. */
  ghost function InBin(log: seq<ClientId>, binSize: int, b: int): set<ClientId>
    requires binSize >= 1
  {
    set k | 0 <= k < |log| && BinOf(binSize, k) == b :: log[k]
  }

  lemma InBinMore(log: seq<ClientId>, c: ClientId, binSize: int, b: int)
    requires binSize >= 1 && c !in log
    ensures InBin(log + [c], binSize, b) == InBin(log, binSize, b) + if BinOf(binSize, |log|) == b then {c} else {}
    ensures c !in InBin(log, binSize, b)
  {
    hide BinOf;
    var more := log + [c];
    forall d | d in InBin(log, binSize, b) ensures d in InBin(more, binSize, b) {
      var k :| 0 <= k < |log| && BinOf(binSize, k) == b && log[k] == d;
      assert more[k] == d;
    }
    if BinOf(binSize, |log|) == b {
      assert more[|log|] == c;
    }
    forall d | d in InBin(more, binSize, b) && d != c ensures d in InBin(log, binSize, b) {
      var k :| 0 <= k < |more| && BinOf(binSize, k) == b && more[k] == d;
      assert log[k] == d;
    }
  }

  // ---- how feedback moves the working bin ----

  /** Few checkouts more than double the admitted bins; many add one only if the working bin was drained by half. */
  function NextWorkingBin(workingBin: int, checkoutUtil: real, drained: bool): int {
    if checkoutUtil <= 0.2 then workingBin + (workingBin + 2)
    else if checkoutUtil <= 0.9 || drained then workingBin + 1
    else workingBin
  }

  function Pow2(n: nat): nat {
    if n == 0 then 1 else 2 * Pow2(n - 1)
  }

  /** One feedback received: whether it said to be ignored, the checkout utilization, and whether the working bin was
      drained by half by then. */
  datatype Heard = Heard(ignored: bool, checkout: real, drained: bool)

  /** The working bin after the first n feedbacks since the last Clear. */
  function WorkingBinAfter(hs: seq<Heard>, n: nat): int
    requires n <= |hs|
  {
    if n == 0 then 1 else
      var before := WorkingBinAfter(hs, n - 1);
      if hs[n - 1].ignored then before else NextWorkingBin(before, hs[n - 1].checkout, hs[n - 1].drained)
  }

  function HeededBefore(hs: seq<Heard>, n: nat): nat
    requires n <= |hs|
  {
    if n == 0 then 0 else HeededBefore(hs, n - 1) + if hs[n - 1].ignored then 0 else 1
  }

  lemma {:induction false} HeardPrefix(hs: seq<Heard>, h: Heard, n: nat)
    requires n <= |hs|
    ensures WorkingBinAfter(hs + [h], n) == WorkingBinAfter(hs, n)
  {
    if n > 0 {
      HeardPrefix(hs, h, n - 1);
    }
  }

  /** The working bin never falls, and n heeded feedbacks take it to 3 * 2^n - 2 at most. */
  lemma {:induction false} GrowthBound(hs: seq<Heard>, m: nat, n: nat)
    requires m <= n <= |hs|
    ensures 1 <= WorkingBinAfter(hs, m) <= WorkingBinAfter(hs, n)
    ensures WorkingBinAfter(hs, n) <= 3 * Pow2(HeededBefore(hs, n)) - 2
    decreases n
  {
    if m < n {
      GrowthBound(hs, m, n - 1);
    } else if n > 0 {
      GrowthBound(hs, m - 1, n - 1);
    }
  }

  /** The bound is exact: with checkouts at most 20% of the rate every heeded feedback attains it. */
  lemma {:induction false} GrowthAttained(hs: seq<Heard>, n: nat)
    requires n <= |hs| && forall i :: 0 <= i < n ==> hs[i].checkout <= 0.2
    ensures WorkingBinAfter(hs, n) == 3 * Pow2(HeededBefore(hs, n)) - 2
  {
    if n > 0 {
      GrowthAttained(hs, n - 1);
    }
  }

  lemma HeededMoves(hs: seq<Heard>, start: nat, k: nat, n: nat)
    requires start <= k < n <= |hs| && hs[k].checkout <= 0.9 && !hs[k].ignored
    ensures WorkingBinAfter(hs, n) >= WorkingBinAfter(hs, start) + 1
  {
    GrowthBound(hs, start, k);
    GrowthBound(hs, k + 1, n);
  }

  // ---- the queue as a state machine ----

  /** What decides the queue's behaviour: the clients added since the last Clear, in order, the removals counted for
      each working bin, the working bin, the size, and the feedbacks received since the last Clear. */
  datatype CappedState = CappedState(
    log: seq<ClientId>, dequeues: map<int, int>, workingBin: int, total: int, heard: seq<Heard>)

  datatype CappedOp = Arrive(c: ClientId) | Depart | Hear(f: Feedback) | Reset

  const NEW_QUEUE := CappedState([], map[], 1, 0, [])

  function HeardOf(binSize: int, s: CappedState, f: Feedback): Heard {
    Heard(f.shouldIgnorePollUtil, f.checkoutUtil, 2 * Lookup(s.dequeues, s.workingBin).GetOr(0) > binSize)
  }

  function StepCapped(binSize: int, s: CappedState, op: CappedOp): CappedState {
    match op
    case Arrive(c) => s.(log := s.log + [c], total := s.total + 1)
    case Depart => s.(dequeues := Bump(s.dequeues, s.workingBin, 1), total := s.total - 1)
    case Hear(f) =>
      var h := HeardOf(binSize, s, f);
      s.(workingBin := if h.ignored then s.workingBin else NextWorkingBin(s.workingBin, h.checkout, h.drained),
         heard := s.heard + [h])
    case Reset => NEW_QUEUE
  }

  /** The working bin is what the feedbacks since the last Clear made of it. */
  predicate CappedInv(s: CappedState) {
    s.workingBin == WorkingBinAfter(s.heard, |s.heard|)
  }

  lemma StepKeeps(binSize: int, s: CappedState, op: CappedOp)
    requires CappedInv(s)
    ensures CappedInv(StepCapped(binSize, s, op))
  {
    if op.Hear? {
      HeardPrefix(s.heard, HeardOf(binSize, s, op.f), |s.heard|);
    }
  }

  /** The bin is announced to move by at most one per window. It never moves back, and does as announced exactly if
      the feedback is to be ignored or more than 20% of the rate was used. */
  lemma AtMostOneIff(binSize: int, s: CappedState, f: Feedback)
    requires CappedInv(s)
    ensures s.workingBin <= StepCapped(binSize, s, Hear(f)).workingBin
    ensures StepCapped(binSize, s, Hear(f)).workingBin <= s.workingBin + 1
      <==> f.shouldIgnorePollUtil || f.checkoutUtil > 0.2
  {
    GrowthBound(s.heard, |s.heard|, |s.heard|);
  }

  ghost function LineOf(binSize: int, s: CappedState): (l: Line)
    requires binSize >= 1
    ensures |l.stamps| == |s.log| && l.working == s.workingBin
    ensures forall k :: 0 <= k < |s.log| ==> l.stamps[k] == BinOf(binSize, k)
  {
    Line(seq(|s.log|, k requires 0 <= k => BinOf(binSize, k)), s.workingBin)
  }

  lemma LineOrderly(binSize: int, s: CappedState)
    requires binSize >= 1
    ensures Orderly(LineOf(binSize, s))
  {
    hide BinOf;
    var l := LineOf(binSize, s);
    forall i, j | 0 <= i <= j < |l.stamps| ensures l.stamps[i] <= l.stamps[j] {
      AdmittedPrefix(binSize, i, BinOf(binSize, j));
      AdmittedPrefix(binSize, j, BinOf(binSize, j));
    }
  }

  lemma StepMovesOn(binSize: int, s: CappedState, op: CappedOp)
    requires binSize >= 1 && CappedInv(s) && !op.Reset?
    ensures MovesOn(LineOf(binSize, s), LineOf(binSize, StepCapped(binSize, s, op)))
  {
    hide BinOf;
    GrowthBound(s.heard, |s.heard|, |s.heard|);
  }

  ghost predicate IsCappedRun(binSize: int, ss: seq<CappedState>, ops: seq<CappedOp>) {
    && |ss| == |ops| + 1 && ss[0] == NEW_QUEUE
    && forall i, j :: 0 <= i < |ops| && j == i + 1 ==> ss[j] == StepCapped(binSize, ss[i], ops[i])
  }

  lemma {:induction false} EveryCappedState(binSize: int, ss: seq<CappedState>, ops: seq<CappedOp>, n: nat)
    requires IsCappedRun(binSize, ss, ops) && n < |ss|
    ensures CappedInv(ss[n])
  {
    hide StepCapped, CappedInv;
    if n == 0 {
      assert CappedInv(ss[0]) by { NewQueueInv(); }
    } else {
      EveryCappedState(binSize, ss, ops, n - 1);
      StepKeeps(binSize, ss[n - 1], ops[n - 1]);
    }
  }

  lemma NewQueueInv()
    ensures CappedInv(NEW_QUEUE)
  {
  }

  lemma {:induction false} RunMovesOn(binSize: int, ss: seq<CappedState>, ops: seq<CappedOp>, m: nat, n: nat)
    requires binSize >= 1 && IsCappedRun(binSize, ss, ops)
    requires m <= n < |ss| && forall k :: m <= k < n ==> !ops[k].Reset?
    ensures MovesOn(LineOf(binSize, ss[m]), LineOf(binSize, ss[n]))
    decreases n
  {
    hide StepCapped, CappedInv, BinOf, LineOf;
    if m < n {
      RunMovesOn(binSize, ss, ops, m, n - 1);
      EveryCappedState(binSize, ss, ops, n - 1);
      StepMovesOn(binSize, ss[n - 1], ops[n - 1]);
      MovesOnTwice(LineOf(binSize, ss[m]), LineOf(binSize, ss[n - 1]), LineOf(binSize, ss[n]));
    }
  }

  /** No overtaking: between two Clears, once arrival number j may proceed, so may, from then on, every arrival
      number i <= j. */
  lemma NoOvertaking(binSize: int, ss: seq<CappedState>, ops: seq<CappedOp>, m: nat, n: nat, i: nat, j: nat)
    requires binSize >= 1 && IsCappedRun(binSize, ss, ops)
    requires m <= n < |ss| && forall k :: m <= k < n ==> !ops[k].Reset?
    requires i <= j < |ss[m].log| && BinOf(binSize, j) <= ss[m].workingBin
    ensures i < |ss[n].log| && BinOf(binSize, i) <= ss[n].workingBin
  {
    hide BinOf, StepCapped;
    RunMovesOn(binSize, ss, ops, m, n);
    LineOrderly(binSize, ss[m]);
    AdmittedStay(LineOf(binSize, ss[m]), LineOf(binSize, ss[n]), i, j);
  }

  /** In every run: the working bin is at least 1, at most 3 * 2^n - 2 after n feedbacks heeded since the last Clear,
      and exactly that while checkouts were at most 20% of the rate. */
  lemma GrowthInRuns(binSize: int, ss: seq<CappedState>, ops: seq<CappedOp>, n: nat)
    requires IsCappedRun(binSize, ss, ops) && n < |ss|
    ensures var heeded := HeededBefore(ss[n].heard, |ss[n].heard|);
      && 1 <= ss[n].workingBin <= 3 * Pow2(heeded) - 2
      && ((forall h :: h in ss[n].heard ==> h.checkout <= 0.2) ==> ss[n].workingBin == 3 * Pow2(heeded) - 2)
  {
    EveryCappedState(binSize, ss, ops, n);
    var hs := ss[n].heard;
    GrowthBound(hs, |hs|, |hs|);
    if forall h :: h in hs ==> h.checkout <= 0.2 {
      forall i | 0 <= i < |hs| ensures hs[i].checkout <= 0.2 {
        assert hs[i] in hs;
      }
      GrowthAttained(hs, |hs|);
    }
  }

  // ---- what the operations add up to ----

  /** The removals since the last Clear while bin b was the working bin. */
  function DepartsAt(ss: seq<CappedState>, ops: seq<CappedOp>, n: nat, b: int): nat
    requires n <= |ops| <= |ss|
  {
    if n == 0 || ops[n - 1].Reset? then 0 else
      DepartsAt(ss, ops, n - 1, b) + if ops[n - 1].Depart? && ss[n - 1].workingBin == b then 1 else 0
  }

  /** The clients added since the last Clear, in order. */
  function Arrivals(ops: seq<CappedOp>, n: nat): seq<ClientId>
    requires n <= |ops|
  {
    if n == 0 || ops[n - 1].Reset? then [] else
      Arrivals(ops, n - 1) + if ops[n - 1].Arrive? then [ops[n - 1].c] else []
  }

  /** The clients added since the last Clear, less all removals since. */
  function NetArrivals(ops: seq<CappedOp>, n: nat): int
    requires n <= |ops|
  {
    if n == 0 || ops[n - 1].Reset? then 0 else
      NetArrivals(ops, n - 1) + if ops[n - 1].Arrive? then 1 else if ops[n - 1].Depart? then -1 else 0
  }

  lemma StepTallies(binSize: int, s: CappedState, op: CappedOp, b: int)
    ensures var s' := StepCapped(binSize, s, op);
      && s'.log == (if op.Reset? then [] else if op.Arrive? then s.log + [op.c] else s.log)
      && s'.total == (if op.Reset? then 0 else if op.Arrive? then s.total + 1
                      else if op.Depart? then s.total - 1 else s.total)
      && Lookup(s'.dequeues, b).GetOr(0)
         == (if op.Reset? then 0
             else if op.Depart? && s.workingBin == b then Lookup(s.dequeues, b).GetOr(0) + 1
             else Lookup(s.dequeues, b).GetOr(0))
  {
  }

  lemma {:induction false} TalliesInRuns(
      binSize: int, ss: seq<CappedState>, ops: seq<CappedOp>, n: nat, b: int)
    requires IsCappedRun(binSize, ss, ops) && n < |ss|
    ensures ss[n].log == Arrivals(ops, n) && ss[n].total == NetArrivals(ops, n)
    ensures Lookup(ss[n].dequeues, b).GetOr(0) == DepartsAt(ss, ops, n, b)
  {
    hide StepCapped;
    if n > 0 {
      TalliesInRuns(binSize, ss, ops, n - 1, b);
      StepTallies(binSize, ss[n - 1], ops[n - 1], b);
    }
  }

  /** In every run feedback moves the working bin exactly as follows: not at all if it is to be ignored; by its double
      and two with at most 20% of the rate used; by one with at most 90%; and above that by one if more than half as
      many clients as a bin holds were removed, since the last Clear, while this was the working bin, and else not at
      all. */
  lemma FeedbackMoves(binSize: int, ss: seq<CappedState>, ops: seq<CappedOp>, n: nat)
    requires IsCappedRun(binSize, ss, ops) && n < |ops| && ops[n].Hear?
    ensures var (f, b) := (ops[n].f, ss[n].workingBin);
      ss[n + 1].workingBin - b ==
        if f.shouldIgnorePollUtil then 0
        else if f.checkoutUtil <= 0.2 then b + 2
        else if f.checkoutUtil <= 0.9 then 1
        else if 2 * DepartsAt(ss, ops, n, b) > binSize then 1
        else 0
  {
    hide DepartsAt;
    TalliesInRuns(binSize, ss, ops, n, ss[n].workingBin);
    assert ss[n + 1] == StepCapped(binSize, ss[n], ops[n]);
  }

  /** Nothing but feedback and Clear touches the working bin, and Clear sets it back to 1. */
  lemma OnlyFeedbackMoves(binSize: int, ss: seq<CappedState>, ops: seq<CappedOp>, n: nat)
    requires IsCappedRun(binSize, ss, ops) && n < |ops| && !ops[n].Hear?
    ensures ss[n + 1].workingBin == if ops[n].Reset? then 1 else ss[n].workingBin
  {
    assert ss[n + 1] == StepCapped(binSize, ss[n], ops[n]);
  }

  // ---- the queue ----

  class CappedBinsQueue {
    const binSize: int
    var bins: map<int, set<ClientId>>
    var curWindowDequeues: map<int, int>
    var queueBin: int
    var workingBin: int
    var totalQueuedClients: int
    /** Since the last Clear: the clients added, in order, and the feedbacks received. */
    ghost var log: seq<ClientId>
    ghost var heard: seq<Heard>

    ghost function View(): CappedState
      reads this
    {
      CappedState(log, curWindowDequeues, workingBin, totalQueuedClients, heard)
    }

    /** The bins hold the arrivals that arithmetic assigns to them; those before the last are full. */
    ghost predicate Packed()
      reads this
    {
      && binSize >= 1
      && queueBin == (if log == [] then 1 else BinOf(binSize, |log| - 1))
      && (forall b :: b in bins <==> 1 <= b <= queueBin && log != [])
      && (forall b :: b in bins ==>
            bins[b] == InBin(log, binSize, b) && |bins[b]| == FillOf(b))
    }

    ghost predicate Valid()
      reads this
    {
      Packed() && CappedInv(View())
    }

    ghost function FillOf(b: int): int
      reads this
    {
      if b < queueBin then binSize else |log| - (queueBin - 1) * binSize
    }

    constructor (windowSize: int)
      requires windowSize >= 1
      ensures binSize == (3 * windowSize + 1) / 2 && Valid() && View() == NEW_QUEUE
    {
      binSize := (3 * windowSize + 1) / 2;
      bins, curWindowDequeues, queueBin, workingBin, totalQueuedClients := map[], map[], 1, 1, 0;
      log, heard := [], [];
    }

    /** A bin with room for the next arrival is there. */
    ghost predicate Open(n: nat)
      reads this
    {
      && |log| == n && binSize >= 1 && 1 <= queueBin == BinOf(binSize, n)
      && (forall b :: b in bins <==> 1 <= b <= queueBin)
      && (forall b :: b in bins ==> bins[b] == InBin(log, binSize, b))
      && (forall b :: b in bins ==> |bins[b]| == FillOf(b))
    }

    method OpenBin()
      requires Packed()
      modifies this`bins, this`queueBin
      ensures Open(|log|)
    {
      hide BinOf, InBin;
      LastBin(binSize, |log|);
      BinStep(binSize, |log|, queueBin);
      if queueBin !in bins {
        bins := bins[queueBin := {}];
        EmptyLog(binSize);
      }
      if |bins[queueBin]| >= binSize {
        NotYetOpen(log, binSize, queueBin + 1);
        queueBin := queueBin + 1;
        bins := bins[queueBin := {}];
      }
    }

    method Place(id: ClientId)
      requires Open(|log|) && id !in log
      modifies this`bins, this`log
      ensures Packed() && log == old(log) + [id]
    {
      hide BinOf, InBin;
      ghost var was := log;
      bins := bins[queueBin := bins[queueBin] + {id}];
      log := log + [id];
      LastBin(binSize, |log|);
      forall b | b in bins ensures bins[b] == InBin(log, binSize, b) && |bins[b]| == FillOf(b) {
        InBinMore(was, id, binSize, b);
      }
    }

    /** The arrival with number |log| is stamped with the bin arithmetic gives it. */
    method Add(c: BaseClient)
      requires Valid() && c.id !in log && c.isLocked
      modifies this`bins, this`queueBin, this`totalQueuedClients, this`log, c`throttleCookie
      ensures Valid() && View() == StepCapped(binSize, old(View()), Arrive(c.id))
      ensures c.throttleCookie == old(c.throttleCookie)[UserBinKey := Number(BinOf(binSize, |old(log)|))]
    {
      hide BinOf, InBin, WorkingBinAfter;
      OpenBin();
      Place(c.id);
      totalQueuedClients := totalQueuedClients + 1;
      var ok := c.SetThrottleCookieVal(UserBinKey, Number(queueBin));
    }

    method Remove(c: BaseClient)
      requires Valid()
      modifies this`totalQueuedClients, this`curWindowDequeues
      ensures Valid() && View() == StepCapped(binSize, old(View()), Depart)
    {
      hide BinOf, InBin;
      totalQueuedClients := totalQueuedClients - 1;
      curWindowDequeues := Bump(curWindowDequeues, workingBin, 1);
    }

    /** The stamp, or 0 without one. The flag never reports success, because the source's inner `ok` shadows it. */
    method GetUserBin(c: BaseClient) returns (bin: int, ok: bool)
      ensures !ok
      ensures bin == if c.isLocked && UserBinKey in c.throttleCookie && c.throttleCookie[UserBinKey].Number?
                     then c.throttleCookie[UserBinKey].n else 0
    {
      var number, found := c.GetThrottleCookieNumber(UserBinKey);
      bin, ok := if found then number else 0, false;
    }

    /** Among the clients added, exactly the first workingBin * binSize may proceed; so may any without a stamp, which
        counts as bin 0. */
    method IsCandidateToProceed(c: BaseClient) returns (candidate: bool)
      requires Valid() && c.isLocked
      ensures forall k: nat :: c.throttleCookie == c.throttleCookie[UserBinKey := Number(BinOf(binSize, k))] ==>
        (candidate <==> k < workingBin * binSize)
      ensures UserBinKey !in c.throttleCookie ==> candidate
    {
      hide BinOf, InBin;
      GrowthBound(heard, |heard|, |heard|);
      var bin, ok := GetUserBin(c);
      candidate := !ok && bin <= workingBin;
      forall k: nat | c.throttleCookie == c.throttleCookie[UserBinKey := Number(BinOf(binSize, k))]
        ensures candidate <==> k < workingBin * binSize
      {
        assert c.throttleCookie[UserBinKey] == Number(BinOf(binSize, k));
        AdmittedPrefix(binSize, k, workingBin);
      }
    }

    method ReceiveTrackerFeedback(f: Feedback)
      requires Valid()
      modifies this`workingBin, this`heard
      ensures Valid() && View() == StepCapped(binSize, old(View()), Hear(f))
    {
      hide BinOf, InBin, CappedInv;
      StepKeeps(binSize, View(), Hear(f));
      heard := heard + [HeardOf(binSize, View(), f)];
      if f.shouldIgnorePollUtil {
        return;
      }
      var drainUtil := Lookup(curWindowDequeues, workingBin).GetOr(0) as real / binSize as real;
      MoreThanHalf(Lookup(curWindowDequeues, workingBin).GetOr(0), binSize);
      if f.checkoutUtil <= 0.2 {
        workingBin := workingBin + (workingBin + 2);
      } else if f.checkoutUtil > 0.2 && f.checkoutUtil <= 0.9 {
        workingBin := workingBin + 1;
      } else {
        if drainUtil > 0.5 {
          workingBin := workingBin + 1;
        }
      }
    }

    method Clear()
      requires Valid()
      modifies this
      ensures Valid() && View() == StepCapped(binSize, old(View()), Reset)
    {
      bins, curWindowDequeues := map[], map[];
      workingBin, queueBin, totalQueuedClients := 1, 1, 0;
      log, heard := [], [];
    }
  }

  lemma HalfOf(c: real, s: real)
    requires s > 0.0
    ensures c / s > 0.5 <==> 2.0 * c > s
  {
    var r := c / s;
    assert (r - 0.5) * s == c - 0.5 * s;
    SignOfProduct(r - 0.5, s);
  }

  lemma SignOfProduct(x: real, s: real)
    requires s > 0.0
    ensures x > 0.0 <==> x * s > 0.0
  {
  }

  lemma MoreThanHalf(count: int, size: int)
    requires size >= 1
    ensures count as real / size as real > 0.5 <==> 2 * count > size
  {
    HalfOf(count as real, size as real);
    assert (2 * count) as real == 2.0 * count as real;
  }

  lemma EmptyLog(binSize: int)
    requires binSize >= 1
    ensures InBin([], binSize, 1) == {}
  {
  }

  lemma NotYetOpen(log: seq<ClientId>, binSize: int, b: int)
    requires binSize >= 1 && |log| <= (b - 1) * binSize
    ensures InBin(log, binSize, b) == {}
  {
    forall k | 0 <= k < |log| ensures BinOf(binSize, k) != b {
      AdmittedPrefix(binSize, k, b - 1);
    }
  }
}

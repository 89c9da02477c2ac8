/** The in-memory interval queue: arrivals are stamped with the latest bin, which a timer opens, while a pacing
    routine lets one more bin proceed once the current one had time to drain. Times are in nanoseconds. */
module IntervalBins {
  import opened Admission
  import opened Counting
  import opened Redis
  import opened Clients
  import opened FairnessInterval
  import opened FairnessRuns

  const NS_PER_MS := 1_000_000

  /** How long the bin that may proceed is kept, given how many clients it holds. */
  function HoldNs(c: Config, count: int): int {
    HoldMs(c, count) * NS_PER_MS
  }

  /** Draining count clients at the full rate takes at least ms milliseconds. */
  predicate TakesMs(c: Config, count: int, ms: int) {
    ms * c.maxPerWindow <= count * c.windowMs
  }

  /** The fairness interval is over, and so is every whole millisecond it takes to drain the clients. */
  ghost predicate Drained(c: Config, count: int, elapsedNs: int) {
    && elapsedNs >= c.maxUnfairMs * NS_PER_MS
    && forall ms :: TakesMs(c, count, ms) ==> elapsedNs >= ms * NS_PER_MS
  }

  lemma HoldIffDrained(c: Config, count: int, elapsedNs: int)
    ensures elapsedNs >= HoldNs(c, count) <==> Drained(c, count, elapsedNs)
  {
    hide HoldMs, TakesMs;
    HoldMsAtLeast(c, count);
    HoldTakes(c, count, HoldMs(c, count));
    forall ms | TakesMs(c, count, ms) ensures ms <= HoldMs(c, count) {
      HoldTakes(c, count, ms);
    }
  }

  lemma HoldTakes(c: Config, count: int, ms: int)
    ensures ms <= HoldMs(c, count) <==> ms <= c.maxUnfairMs || TakesMs(c, count, ms)
  {
    HoldMsExact(c, count, ms);
  }

  /** Bin i + 1 was let proceed at moves[i].at, when bin i held moves[i].backlog clients. */
  datatype Move = Move(at: int, backlog: int)

  function MoveTime(base: int, moves: seq<Move>, i: nat): int
    requires i <= |moves|
  {
    if i == 0 then base else moves[i - 1].at
  }

  /** Every move waited out the hold of the bin before it. */
  ghost predicate Spaced(c: Config, base: int, moves: seq<Move>) {
    forall i :: 0 <= i < |moves| ==> moves[i].at >= MoveTime(base, moves, i) + HoldNs(c, moves[i].backlog)
  }

  /** Hence between any two moves passed at least one fairness interval per bin, and the time to drain those bins. */
  function HeldNs(c: Config, moves: seq<Move>, i: nat, j: nat): int
    requires i <= j <= |moves|
  {
    if i == j then 0 else HeldNs(c, moves, i, j - 1) + HoldNs(c, moves[j - 1].backlog)
  }

  lemma {:induction false} MovesPaced(c: Config, base: int, moves: seq<Move>, i: nat, j: nat)
    requires Spaced(c, base, moves) && i <= j <= |moves|
    ensures MoveTime(base, moves, j) - MoveTime(base, moves, i) >= HeldNs(c, moves, i, j)
    ensures HeldNs(c, moves, i, j) >= (j - i) * (c.maxUnfairMs * NS_PER_MS)
    decreases j
  {
    hide HoldMs;
    if i < j {
      var last := moves[j - 1];
      HoldMsAtLeast(c, last.backlog);
      assert last.at >= MoveTime(base, moves, j - 1) + HoldNs(c, last.backlog);
      MovesPaced(c, base, moves, i, j - 1);
      var unit := c.maxUnfairMs * NS_PER_MS;
      assert (j - i) * unit == (j - 1 - i) * unit + unit;
    }
  }

  lemma SpacedMore(c: Config, base: int, moves: seq<Move>, m: Move)
    requires Spaced(c, base, moves) && m.at >= MoveTime(base, moves, |moves|) + HoldNs(c, m.backlog)
    ensures Spaced(c, base, moves + [m])
  {
    hide HoldNs;
    forall i | 0 <= i < |moves + [m]|
      ensures (moves + [m])[i].at >= MoveTime(base, moves + [m], i) + HoldNs(c, (moves + [m])[i].backlog)
    {
      assert MoveTime(base, moves + [m], i) == MoveTime(base, moves, i);
      if i < |moves| {
        assert moves[i].at >= MoveTime(base, moves, i) + HoldNs(c, moves[i].backlog);
      }
    }
  }

  // ---- the queue as a state machine ----

  /** The queue's fields; since the last Clear, the stamps in order of arrival and the moves of the considered bin;
      and the time the first of these moves is measured from. */
  datatype IntervalState = IntervalState(
    counts: map<int, int>, latest: int, considered: int, lastUpdated: int, nextDue: int, total: int,
    stamps: seq<Stamp>, moves: seq<Move>, base: int)

  /** `Depart` names the stamp read from the client, and `TryMove` one round of the pacing routine, which reads the
      clock twice. */
  datatype IntervalOp =
    | Arrive(at: int)
    | Depart(stamp: Option<int>)
    | OpenBin
    | TryMove(now: int, later: int)
    | Reset

  function NewQueue(now: int): IntervalState {
    IntervalState(map[], 0, 0, now, 0, 0, [], [], now)
  }

  function StepInterval(c: Config, s: IntervalState, op: IntervalOp): IntervalState {
    match op
    case Arrive(at) =>
      s.(counts := Bump(s.counts, s.latest, 1), total := s.total + 1, stamps := s.stamps + [Stamp(s.latest, at)])
    case Depart(None) => s
    case Depart(Some(bin)) => s.(counts := Bump(s.counts, bin, -1), total := s.total - 1)
    case OpenBin => s.(latest := s.latest + 1)
    case TryMove(now, later) =>
      var count := Lookup(s.counts, s.considered).GetOr(0);
      var due := s.lastUpdated + HoldNs(c, count);
      if s.considered >= s.latest then s
      else if now < due then s.(nextDue := due)
      else s.(nextDue := due, considered := s.considered + 1, lastUpdated := later,
              moves := s.moves + [Move(later, count)])
    case Reset =>
      s.(counts := map[], latest := 0, considered := 0, total := 0, stamps := [], moves := [], base := s.lastUpdated)
  }

  predicate IntervalCan(op: IntervalOp) {
    op.TryMove? ==> op.now <= op.later
  }

  /** Stamps never decrease; the total is the sum of the counts; and the considered bin has been moved once per bin,
      each time on schedule. */
  ghost predicate IntervalInv(c: Config, s: IntervalState) {
    && 0 <= s.considered <= s.latest
    && (forall i :: 0 <= i < |s.stamps| ==> 0 <= s.stamps[i].bin <= s.latest)
    && (forall i, j :: 0 <= i <= j < |s.stamps| ==> s.stamps[i].bin <= s.stamps[j].bin)
    && s.total == SumOf(s.counts)
    && |s.moves| == s.considered
    && s.lastUpdated == MoveTime(s.base, s.moves, |s.moves|)
    && Spaced(c, s.base, s.moves)
  }

  lemma StepKeeps(c: Config, s: IntervalState, op: IntervalOp)
    requires IntervalInv(c, s) && IntervalCan(op)
    ensures IntervalInv(c, StepInterval(c, s, op))
  {
    hide Spaced, HoldNs;
    match op
    case Arrive(_) => SumOfBump(s.counts, s.latest, 1);
    case Depart(stamp) =>
      if stamp.Some? {
        SumOfBump(s.counts, stamp.value, -1);
      }
    case TryMove(now, later) =>
      var count := Lookup(s.counts, s.considered).GetOr(0);
      if s.considered < s.latest && now >= s.lastUpdated + HoldNs(c, count) {
        SpacedMore(c, s.base, s.moves, Move(later, count));
      }
    case Reset => NoMoves(c, s.lastUpdated);
    case OpenBin =>
  }

  lemma NoMoves(c: Config, base: int)
    ensures Spaced(c, base, [])
  {
  }

  ghost function LineOf(s: IntervalState): (l: Line)
    ensures |l.stamps| == |s.stamps| && l.working == s.considered
    ensures forall i :: 0 <= i < |s.stamps| ==> l.stamps[i] == s.stamps[i].bin
  {
    Line(seq(|s.stamps|, i requires 0 <= i < |s.stamps| => s.stamps[i].bin), s.considered)
  }

  lemma StepMovesOn(c: Config, s: IntervalState, op: IntervalOp)
    requires !op.Reset?
    ensures MovesOn(LineOf(s), LineOf(StepInterval(c, s, op)))
  {
    hide HoldNs;
  }

  predicate IntervalSteps(c: Config, s: IntervalState, op: IntervalOp, s': IntervalState) {
    IntervalCan(op) && s' == StepInterval(c, s, op)
  }

  ghost predicate IsIntervalRun(c: Config, ss: seq<IntervalState>, ops: seq<IntervalOp>) {
    && |ss| == |ops| + 1 && ss[0] == NewQueue(ss[0].base)
    && forall i, j :: 0 <= i < |ops| && j == i + 1 ==> IntervalSteps(c, ss[i], ops[i], ss[j])
  }

  lemma NewQueueInv(c: Config, now: int)
    ensures IntervalInv(c, NewQueue(now))
  {
  }

  lemma {:induction false} EveryIntervalState(c: Config, ss: seq<IntervalState>, ops: seq<IntervalOp>, n: nat)
    requires IsIntervalRun(c, ss, ops) && n < |ss|
    ensures IntervalInv(c, ss[n])
  {
    hide StepInterval, IntervalInv;
    if n == 0 {
      NewQueueInv(c, ss[0].base);
    } else {
      EveryIntervalState(c, ss, ops, n - 1);
      assert IntervalSteps(c, ss[n - 1], ops[n - 1], ss[n]);
      StepKeeps(c, ss[n - 1], ops[n - 1]);
    }
  }

  lemma {:induction false} RunMovesOn(c: Config, ss: seq<IntervalState>, ops: seq<IntervalOp>, m: nat, n: nat)
    requires IsIntervalRun(c, ss, ops) && m <= n < |ss| && forall k :: m <= k < n ==> !ops[k].Reset?
    ensures MovesOn(LineOf(ss[m]), LineOf(ss[n]))
    decreases n
  {
    hide StepInterval, LineOf;
    if m < n {
      RunMovesOn(c, ss, ops, m, n - 1);
      assert IntervalSteps(c, ss[n - 1], ops[n - 1], ss[n]);
      StepMovesOn(c, ss[n - 1], ops[n - 1]);
      MovesOnTwice(LineOf(ss[m]), LineOf(ss[n - 1]), LineOf(ss[n]));
    }
  }

  /** No overtaking: between two Clears, once arrival number j may proceed, so may, from then on, every arrival
      number i <= j. */
  lemma NoOvertaking(c: Config, ss: seq<IntervalState>, ops: seq<IntervalOp>, m: nat, n: nat, i: nat, j: nat)
    requires IsIntervalRun(c, ss, ops) && m <= n < |ss| && forall k :: m <= k < n ==> !ops[k].Reset?
    requires i <= j < |ss[m].stamps| && ss[m].stamps[j].bin <= ss[m].considered
    ensures i < |ss[n].stamps| && ss[n].stamps[i].bin <= ss[n].considered
  {
    hide StepInterval, Spaced;
    EveryIntervalState(c, ss, ops, m);
    RunMovesOn(c, ss, ops, m, n);
    AdmittedStay(LineOf(ss[m]), LineOf(ss[n]), i, j);
  }

  /** In every run, between any two moves since the last Clear passed at least the time to drain the bins in between,
      so the considered bin never gets ahead of one bin per fairness interval, nor of the bins opened; and the total
      is always the sum of all counts. */
  lemma PaceInRuns(c: Config, ss: seq<IntervalState>, ops: seq<IntervalOp>, n: nat, i: nat, j: nat)
    requires IsIntervalRun(c, ss, ops) && n < |ss|
    ensures var s := ss[n];
      && (i <= j <= |s.moves| ==>
            MoveTime(s.base, s.moves, j) - MoveTime(s.base, s.moves, i) >= HeldNs(c, s.moves, i, j))
      && s.considered * (c.maxUnfairMs * NS_PER_MS) <= s.lastUpdated - s.base
      && s.considered <= s.latest
      && s.total == SumOf(s.counts)
  {
    EveryIntervalState(c, ss, ops, n);
    PaceOf(c, ss[n]);
    hide Spaced, IsIntervalRun, HoldNs, HeldNs;
    if i <= j <= |ss[n].moves| {
      MovesPaced(c, ss[n].base, ss[n].moves, i, j);
    }
  }

  lemma PaceOf(c: Config, s: IntervalState)
    requires IntervalInv(c, s)
    ensures s.considered * (c.maxUnfairMs * NS_PER_MS) <= s.lastUpdated - s.base
  {
    hide Spaced, HoldNs, HeldNs;
    MovesPaced(c, s.base, s.moves, 0, |s.moves|);
    assert |s.moves| - 0 == s.considered;
  }

  // ---- what the operations add up to ----

  /** The number of bins opened since the last Clear. */
  function BinsOpened(ops: seq<IntervalOp>, n: nat): nat
    requires n <= |ops|
  {
    if n == 0 || ops[n - 1].Reset? then 0 else BinsOpened(ops, n - 1) + if ops[n - 1].OpenBin? then 1 else 0
  }

  /** The arrivals since the last Clear while bin b was the last one opened, less the departures from it. */
  function NetArrivals(ops: seq<IntervalOp>, n: nat, b: int): int
    requires n <= |ops|
  {
    if n == 0 || ops[n - 1].Reset? then 0 else
      NetArrivals(ops, n - 1, b)
      + if ops[n - 1].Arrive? && BinsOpened(ops, n - 1) == b then 1
        else if ops[n - 1] == Depart(Some(b)) then -1 else 0
  }

  /** In every run: the latest bin is the number of bins opened since the last Clear, each count is that of the arrivals
      to its bin less the departures from it, and an arrival is stamped with the bin last opened. */
  lemma {:induction false} CountsInRuns(c: Config, ss: seq<IntervalState>, ops: seq<IntervalOp>, n: nat, b: int)
    requires IsIntervalRun(c, ss, ops) && n < |ss|
    ensures ss[n].latest == BinsOpened(ops, n)
    ensures Lookup(ss[n].counts, b).GetOr(0) == NetArrivals(ops, n, b)
    ensures n < |ops| && ops[n].Arrive? ==>
      ss[n + 1].stamps == ss[n].stamps + [Stamp(BinsOpened(ops, n), ops[n].at)]
  {
    hide StepInterval;
    if n > 0 {
      CountsInRuns(c, ss, ops, n - 1, b);
      assert IntervalSteps(c, ss[n - 1], ops[n - 1], ss[n]);
      StepCounts(c, ss[n - 1], ops[n - 1], b);
    }
    if n < |ops| {
      assert IntervalSteps(c, ss[n], ops[n], ss[n + 1]);
      StepCounts(c, ss[n], ops[n], b);
    }
  }

  lemma StepCounts(c: Config, s: IntervalState, op: IntervalOp, b: int)
    ensures var s' := StepInterval(c, s, op);
      && s'.latest == (if op.Reset? then 0 else if op.OpenBin? then s.latest + 1 else s.latest)
      && Lookup(s'.counts, b).GetOr(0)
         == (if op.Reset? then 0
             else if op.Arrive? && s.latest == b then Lookup(s.counts, b).GetOr(0) + 1
             else if op == Depart(Some(b)) then Lookup(s.counts, b).GetOr(0) - 1
             else Lookup(s.counts, b).GetOr(0))
      && (op.Arrive? ==> s'.stamps == s.stamps + [Stamp(s.latest, op.at)])
  {
    hide HoldNs;
  }

  /** One round of the pacing routine with a later bin open: it moves exactly if the clients counted in the considered
      bin had the time to drain and the fairness interval is over, and otherwise plans the move for the first
      nanosecond at which that is so. */
  lemma RoundExact(c: Config, s: IntervalState, now: int, later: int)
    requires s.considered < s.latest
    ensures var s' := StepInterval(c, s, TryMove(now, later)); var count := Lookup(s.counts, s.considered).GetOr(0);
      && Drained(c, count, s'.nextDue - s.lastUpdated) && !Drained(c, count, s'.nextDue - s.lastUpdated - 1)
      && (if Drained(c, count, now - s.lastUpdated) then
            s'.considered == s.considered + 1 && s'.lastUpdated == later && s'.moves == s.moves + [Move(later, count)]
          else s' == s.(nextDue := s'.nextDue))
  {
    hide HoldNs, Drained;
    var count := Lookup(s.counts, s.considered).GetOr(0);
    HoldIffDrained(c, count, now - s.lastUpdated);
    HoldIffDrained(c, count, HoldNs(c, count));
    HoldIffDrained(c, count, HoldNs(c, count) - 1);
  }

  // ---- the queue ----

  class IntervalBinsQueue {
    const config: Config
    var binCounts: map<int, int>
    var latestBinIdx: int
    var maxConsideredBinIdx: int
    var consideredBinLastUpdated: int
    var nextScheduledBinUpdate: int
    var totalQueuedClients: int

    /** Since the last Clear: the stamps in order of arrival, and the moves of the considered bin. */
    ghost var stamps: seq<Stamp>
    ghost var moves: seq<Move>
    ghost var base: int

    ghost function View(): IntervalState
      reads this
    {
      IntervalState(binCounts, latestBinIdx, maxConsideredBinIdx, consideredBinLastUpdated, nextScheduledBinUpdate,
                    totalQueuedClients, stamps, moves, base)
    }

    ghost predicate Valid()
      reads this
    {
      IntervalInv(config, View())
    }

    constructor (config: Config, now: int)
      ensures this.config == config && Valid() && View() == NewQueue(now)
    {
      this.config := config;
      binCounts, latestBinIdx, maxConsideredBinIdx, totalQueuedClients := map[], 0, 0, 0;
      consideredBinLastUpdated, nextScheduledBinUpdate := now, 0;
      stamps, moves, base := [], [], now;
    }

    /** The bin a client was stamped with, if its cookie can be read and has one. */
    static ghost function StampOf(c: BaseClient): Option<int>
      reads c
    {
      if c.isLocked && UserBinKey in c.throttleCookie && c.throttleCookie[UserBinKey].Number?
      then Some(c.throttleCookie[UserBinKey].n) else None
    }

    method Add(c: BaseClient, now: int)
      requires Valid() && c.isLocked
      modifies this`binCounts, this`totalQueuedClients, this`stamps, c`throttleCookie, c`advisedPollAfter
      ensures Valid() && View() == StepInterval(config, old(View()), Arrive(now))
      ensures StampOf(c) == Some(latestBinIdx)
      ensures c.throttleCookie == old(c.throttleCookie)[UserBinKey := Number(latestBinIdx)]
                                                      [UserQueuePosKey := Number(totalQueuedClients)]
      ensures c.advisedPollAfter
           == now + Truncate(totalQueuedClients * config.windowMs, config.maxPerWindow) * NS_PER_MS
    {
      hide IntervalInv;
      ghost var before := View();
      StepKeeps(config, before, Arrive(now));
      if latestBinIdx !in binCounts {
        binCounts := binCounts[latestBinIdx := 0];
      }
      binCounts := binCounts[latestBinIdx := binCounts[latestBinIdx] + 1];
      totalQueuedClients := totalQueuedClients + 1;
      var ok := c.SetThrottleCookieVal(UserBinKey, Number(latestBinIdx));
      ok := c.SetThrottleCookieVal(UserQueuePosKey, Number(totalQueuedClients));
      var delayMs := Truncate(totalQueuedClients * config.windowMs, config.maxPerWindow);
      ok := c.AdvisePollAfter(now + delayMs * NS_PER_MS);
      stamps := stamps + [Stamp(latestBinIdx, now)];
      assert binCounts == Bump(before.counts, before.latest, 1);
    }

    /** A client without a readable stamp is not counted off. */
    method Remove(c: BaseClient)
      requires Valid()
      modifies this`binCounts, this`totalQueuedClients
      ensures Valid() && View() == StepInterval(config, old(View()), Depart(StampOf(c)))
    {
      hide IntervalInv;
      StepKeeps(config, View(), Depart(StampOf(c)));
      var bin, ok := c.GetThrottleCookieNumber(UserBinKey);
      if ok {
        totalQueuedClients := totalQueuedClients - 1;
        binCounts := Bump(binCounts, bin, -1);
      }
    }

    /** Exactly the clients stamped up to the considered bin may proceed; the bin just behind it is told when the next
        move is due. */
    method IsCandidateToProceed(c: BaseClient) returns (candidate: bool)
      requires Valid()
      modifies c`advisedPollAfter
      ensures candidate <==> StampOf(c).Some? && StampOf(c).value <= maxConsideredBinIdx
      ensures c.advisedPollAfter == if StampOf(c) == Some(maxConsideredBinIdx - 1) then nextScheduledBinUpdate
                                    else old(c.advisedPollAfter)
    {
      candidate := false;
      var bin, ok := c.GetThrottleCookieNumber(UserBinKey);
      if ok {
        candidate := bin <= maxConsideredBinIdx;
        if bin + 1 == maxConsideredBinIdx {
          var _ := c.AdvisePollAfter(nextScheduledBinUpdate);
        }
      }
    }

    /** The bin timer fires. */
    method OpenNextBin()
      requires Valid()
      modifies this`latestBinIdx
      ensures Valid() && View() == StepInterval(config, old(View()), OpenBin)
    {
      hide IntervalInv;
      StepKeeps(config, View(), OpenBin);
      latestBinIdx := latestBinIdx + 1;
    }

    /** One round of the pacing routine, which reads the clock twice; it sleeps for the time returned. */
    method TryAdvance(now: int, later: int) returns (sleepNs: int)
      requires Valid() && now <= later
      modifies this`maxConsideredBinIdx, this`consideredBinLastUpdated, this`nextScheduledBinUpdate, this`moves
      ensures Valid() && View() == StepInterval(config, old(View()), TryMove(now, later))
      ensures sleepNs == if old(maxConsideredBinIdx) >= latestBinIdx then config.maxUnfairMs * NS_PER_MS
                         else Max(0, nextScheduledBinUpdate - now)
    {
      hide IntervalInv, HoldMs;
      StepKeeps(config, View(), TryMove(now, later));
      if maxConsideredBinIdx >= latestBinIdx {
        return config.maxUnfairMs * NS_PER_MS;
      }
      var count := Lookup(binCounts, maxConsideredBinIdx).GetOr(0);
      var allowedInactiveMs := HoldMs(config, count);
      nextScheduledBinUpdate := consideredBinLastUpdated + allowedInactiveMs * NS_PER_MS;
      var remaining := nextScheduledBinUpdate - now;
      if remaining <= 0 {
        maxConsideredBinIdx := maxConsideredBinIdx + 1;
        consideredBinLastUpdated := later;
        moves := moves + [Move(later, count)];
        sleepNs := 0;
      } else {
        sleepNs := remaining;
      }
    }

    /** Everything starts over, except the time of the last move. */
    method Clear()
      requires Valid()
      modifies this`binCounts, this`latestBinIdx, this`maxConsideredBinIdx, this`totalQueuedClients,
        this`stamps, this`moves, this`base
      ensures Valid() && View() == StepInterval(config, old(View()), Reset)
    {
      hide IntervalInv;
      StepKeeps(config, View(), Reset);
      binCounts, latestBinIdx, maxConsideredBinIdx, totalQueuedClients := map[], 0, 0, 0;
      stamps, moves, base := [], [], consideredBinLastUpdated;
    }
  }
}

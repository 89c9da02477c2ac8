/** The in-memory queue whose bins are filled by a counter and admitted while few clients poll. */
module PollDrivenBins {
  import opened Arithmetic
  import opened Counting
  import opened Redis
  import opened Clients
  import opened Admission

  // ---- bins by arithmetic ----

  /** The bin of the client that is number k to be added, counting from 1. */
  function BinAfter(binSize: int, k: nat): int
    requires binSize >= 0
  {
    k / (binSize + 1)
  }

  lemma AdmittedPrefix(binSize: int, k: nat, w: int)
    requires binSize >= 0
    ensures BinAfter(binSize, k) <= w <==> k < (w + 1) * (binSize + 1)
  {
    QuotientAtLeast(k, binSize + 1, w + 1);
  }

  /** Bin 0 has room for one client fewer than every later bin. */
  lemma BinRange(binSize: int, k: nat, b: int)
    requires binSize >= 0
    ensures BinAfter(binSize, k) == b <==> b * (binSize + 1) <= k <= b * (binSize + 1) + binSize
  {
    AdmittedPrefix(binSize, k, b);
    AdmittedPrefix(binSize, k, b - 1);
    assert (b + 1) * (binSize + 1) == b * (binSize + 1) + binSize + 1;
  }

  /** Of n clients, numbered 1, …, n, those in bin b: as many as the bin takes, bin 0 one fewer. */
  lemma BinFill(binSize: nat, n: nat, b: nat)
    requires (b + 1) * (binSize + 1) <= n + 1
    ensures |set k: nat | 1 <= k <= n && BinAfter(binSize, k) == b| == if b == 0 then binSize else binSize + 1
  {
    hide BinAfter;
    var low := b * (binSize + 1);
    assert (b + 1) * (binSize + 1) == low + binSize + 1;
    assert b > 0 ==> low >= 1;
    forall k: nat ensures BinAfter(binSize, k) == b <==> low <= k <= low + binSize {
      BinRange(binSize, k, b);
    }
    RangeFill(binSize, n, b, low);
  }

  lemma RangeFill(binSize: nat, n: nat, b: nat, low: nat)
    requires low + binSize <= n && (b == 0 <==> low == 0)
    requires forall k: nat :: BinAfter(binSize, k) == b <==> low <= k <= low + binSize
    ensures |set k: nat | 1 <= k <= n && BinAfter(binSize, k) == b| == if b == 0 then binSize else binSize + 1
  {
    hide BinAfter;
    var below := Below(if low == 0 then 1 else low);
    var upTo := Below(low + binSize + 1);
    assert (set k: nat | 1 <= k <= n && BinAfter(binSize, k) == b) == upTo - below;
    assert upTo * below == below;
  }

  // ---- polls per second ----

  /** How many of the first n events, at the end, fall into the same second. */
  function RunLength(log: seq<int>, n: nat): (r: nat)
    requires n <= |log|
    ensures r <= n && (n > 0 ==> r > 0)
  {
    if n == 0 then 0 else if n > 1 && log[n - 2] == log[n - 1] then RunLength(log, n - 1) + 1 else 1
  }

  /** When seconds never go back these are all the events of that second. */
  lemma {:induction false} RunIsSecond(log: seq<int>, n: nat)
    requires 0 < n <= |log| && forall i, j :: 0 <= i <= j < |log| ==> log[i] <= log[j]
    ensures forall i :: 0 <= i < n ==> (log[i] == log[n - 1] <==> n - RunLength(log, n) <= i)
  {
    if n > 1 {
      RunIsSecond(log, n - 1);
      assert forall i :: 0 <= i < n - 1 ==> log[i] <= log[n - 2] <= log[n - 1];
    }
  }

  lemma {:induction false} RunPrefix(log: seq<int>, s: int, n: nat)
    requires n <= |log|
    ensures RunLength(log + [s], n) == RunLength(log, n)
  {
    if n > 0 {
      RunPrefix(log, s, n - 1);
    }
  }

  class PollsPerSecondTracker {
    var curSecondCount: int
    var prevSecondCount: int
    var prevUnixTimeSecond: int
    /** The seconds of the events counted so far. */
    ghost var log: seq<int>

    ghost predicate Valid()
      reads this
    {
      && curSecondCount == RunLength(log, |log|)
      && prevSecondCount == RunLength(log, |log| - RunLength(log, |log|))
      && (log != [] ==> prevUnixTimeSecond == log[|log| - 1])
      && (forall i, j :: 0 <= i <= j < |log| ==> log[i] <= log[j])
    }

    constructor ()
      ensures Valid() && log == []
    {
      curSecondCount, prevSecondCount, prevUnixTimeSecond, log := 0, 0, 0, [];
    }

    /** How many events fell into the last second but one that had any. */
    method LastCount() returns (count: int)
      requires Valid()
      ensures count == RunLength(log, |log| - RunLength(log, |log|))
    {
      count := prevSecondCount;
    }

    /** Reads the clock twice, and it does not go back; an event in a new second is booked on the second reading. */
    method CountPollingEvent(now: int, later: int)
      requires Valid() && prevUnixTimeSecond <= now <= later
      modifies this
      ensures Valid()
      ensures log == old(log) + [if now == old(prevUnixTimeSecond) then now else later]
    {
      ghost var n, run := |log|, RunLength(log, |log|);
      ghost var s := if now == prevUnixTimeSecond then now else later;
      RunPrefix(log, s, n);
      RunPrefix(log, s, n - run);
      if now == prevUnixTimeSecond {
        curSecondCount := curSecondCount + 1;
      } else {
        prevSecondCount := curSecondCount;
        curSecondCount := 1;
        prevUnixTimeSecond := later;
      }
      log := log + [s];
    }
  }

  // ---- the queue as a state machine ----

  datatype Settings = Settings(
    binSize: int, checkoutsPerSecond: int, maxTargetPollingUtil: real, updateInterval: int, latestWeight: real)

  /** The working bin moved: when the clock was read for it, and the time noted after it. */
  datatype Move = Move(seen: int, noted: int)

  datatype PollState = PollState(
    queueBin: int, queueBinPos: int, workingBin: int, workingBinUpdated: int, pollingUtil: real,
    totalClients: int, added: nat, moves: seq<Move>)

  /** What happens to the queue; `lastCount` is the tracker's count, and the two times are one clock's readings. */
  datatype PollOp =
    | Arrive
    | Depart
    | UpdateUtil(lastCount: int, now: int, later: int)
    | Reset

  /** The smoothed polling rate. */
  function Weighted(latest: real, previous: real, weight: real): real {
    if previous == 0.0 then latest else latest * weight + (1.0 - weight) * previous
  }

  function StepPoll(c: Settings, s: PollState, op: PollOp): PollState
    requires c.checkoutsPerSecond >= 1
  {
    match op
    case Arrive =>
      var fits := s.queueBinPos < c.binSize;
      s.(queueBin := if fits then s.queueBin else s.queueBin + 1, queueBinPos := if fits then s.queueBinPos + 1 else 0,
         totalClients := s.totalClients + 1, added := s.added + 1)
    case Depart => s.(totalClients := s.totalClients - 1)
    case UpdateUtil(lastCount, now, later) =>
      var util := Weighted(lastCount as real / c.checkoutsPerSecond as real, s.pollingUtil, c.latestWeight);
      if now - s.workingBinUpdated >= c.updateInterval && util <= c.maxTargetPollingUtil then
        s.(pollingUtil := util, workingBin := s.workingBin + 1, workingBinUpdated := later,
           moves := s.moves + [Move(now, later)])
      else s.(pollingUtil := util)
    case Reset => s.(queueBin := 0, queueBinPos := 0, workingBin := 0, added := 0)
  }

  const NEW_QUEUE := PollState(0, 0, 0, 0, 0.0, 0, 0, [])

  /** The counter is division with remainder, and every move waited out the interval since the one before. */
  ghost predicate PollInv(c: Settings, s: PollState) {
    && c.binSize >= 0
    && s.queueBin * (c.binSize + 1) + s.queueBinPos == s.added && 0 <= s.queueBinPos <= c.binSize
    && s.workingBin >= 0
    && (s.moves != [] ==> s.moves[|s.moves| - 1].noted == s.workingBinUpdated)
    && (forall m :: m in s.moves ==> m.seen <= m.noted)
    && (forall i, j :: 0 <= i < |s.moves| && j == i + 1 < |s.moves| ==>
          s.moves[j].seen - s.moves[i].noted >= c.updateInterval)
  }

  predicate PollCan(op: PollOp) {
    op.UpdateUtil? ==> op.now <= op.later
  }

  lemma CounterStep(size: int, bin: int, pos: int)
    requires 0 <= pos <= size
    ensures pos < size ==> bin * (size + 1) + (pos + 1) == bin * (size + 1) + pos + 1
    ensures pos == size ==> (bin + 1) * (size + 1) == bin * (size + 1) + pos + 1
  {
  }

  lemma StepKeeps(c: Settings, s: PollState, op: PollOp)
    requires c.checkoutsPerSecond >= 1 && PollInv(c, s) && PollCan(op)
    ensures PollInv(c, StepPoll(c, s, op))
  {
    hide Weighted;
    CounterStep(c.binSize, s.queueBin, s.queueBinPos);
    if op.UpdateUtil? {
      MovesMore(c, s, Move(op.now, op.later));
    }
  }

  lemma MovesMore(c: Settings, s: PollState, m: Move)
    requires PollInv(c, s) && m.seen <= m.noted
    ensures m.seen - s.workingBinUpdated >= c.updateInterval ==>
      forall i, j :: 0 <= i < |s.moves + [m]| && j == i + 1 < |s.moves + [m]| ==>
        (s.moves + [m])[j].seen - (s.moves + [m])[i].noted >= c.updateInterval
  {
  }

  /** The bins as given out to the clients numbered 1, …, added. */
  ghost function LineOf(c: Settings, s: PollState): (l: Line)
    requires c.binSize >= 0
    ensures |l.stamps| == s.added && l.working == s.workingBin
    ensures forall k :: 0 <= k < s.added ==> l.stamps[k] == BinAfter(c.binSize, k + 1)
  {
    Line(seq(s.added, k requires 0 <= k => BinAfter(c.binSize, k + 1)), s.workingBin)
  }

  lemma LineOrderly(c: Settings, s: PollState)
    requires c.binSize >= 0
    ensures Orderly(LineOf(c, s))
  {
    hide BinAfter;
    var l := LineOf(c, s);
    forall i, j | 0 <= i <= j < |l.stamps| ensures l.stamps[i] <= l.stamps[j] {
      AdmittedPrefix(c.binSize, i + 1, BinAfter(c.binSize, j + 1));
      AdmittedPrefix(c.binSize, j + 1, BinAfter(c.binSize, j + 1));
    }
  }

  lemma StepMovesOn(c: Settings, s: PollState, op: PollOp)
    requires c.checkoutsPerSecond >= 1 && PollInv(c, s) && !op.Reset?
    ensures MovesOn(LineOf(c, s), LineOf(c, StepPoll(c, s, op)))
  {
    hide Weighted, BinAfter, PollInv;
  }

  predicate PollSteps(c: Settings, s: PollState, op: PollOp, s': PollState)
    requires c.checkoutsPerSecond >= 1
  {
    PollCan(op) && s' == StepPoll(c, s, op)
  }

  ghost predicate IsPollRun(c: Settings, ss: seq<PollState>, ops: seq<PollOp>) {
    && c.binSize >= 0 && c.checkoutsPerSecond >= 1
    && |ss| == |ops| + 1 && ss[0] == NEW_QUEUE
    && forall i, j :: 0 <= i < |ops| && j == i + 1 ==> PollSteps(c, ss[i], ops[i], ss[j])
  }

  lemma {:induction false} EveryPollState(c: Settings, ss: seq<PollState>, ops: seq<PollOp>, n: nat)
    requires IsPollRun(c, ss, ops) && n < |ss|
    ensures PollInv(c, ss[n])
  {
    hide StepPoll, PollInv;
    if n == 0 {
      assert PollInv(c, ss[0]) by { NewQueueInv(c); }
    } else {
      EveryPollState(c, ss, ops, n - 1);
      assert PollSteps(c, ss[n - 1], ops[n - 1], ss[n]);
      StepKeeps(c, ss[n - 1], ops[n - 1]);
    }
  }

  lemma NewQueueInv(c: Settings)
    requires c.binSize >= 0
    ensures PollInv(c, NEW_QUEUE)
  {
  }

  lemma {:induction false} RunMovesOn(c: Settings, ss: seq<PollState>, ops: seq<PollOp>, m: nat, n: nat)
    requires IsPollRun(c, ss, ops) && m <= n < |ss| && forall k :: m <= k < n ==> !ops[k].Reset?
    ensures MovesOn(LineOf(c, ss[m]), LineOf(c, ss[n]))
    decreases n
  {
    hide StepPoll, PollInv, BinAfter, LineOf;
    if m < n {
      RunMovesOn(c, ss, ops, m, n - 1);
      EveryPollState(c, ss, ops, n - 1);
      assert PollSteps(c, ss[n - 1], ops[n - 1], ss[n]);
      StepMovesOn(c, ss[n - 1], ops[n - 1]);
      MovesOnTwice(LineOf(c, ss[m]), LineOf(c, ss[n - 1]), LineOf(c, ss[n]));
    }
  }

  /** No overtaking: between two Clears, once the client numbered l may proceed, so may, from then on, every client
      numbered k <= l. */
  lemma {:induction false} NoOvertaking(
      c: Settings, ss: seq<PollState>, ops: seq<PollOp>, m: nat, n: nat, k: nat, l: nat)
    requires IsPollRun(c, ss, ops) && m <= n < |ss| && (forall i :: m <= i < n ==> !ops[i].Reset?)
    requires 1 <= k <= l <= ss[m].added && BinAfter(c.binSize, l) <= ss[m].workingBin
    ensures k <= ss[n].added && BinAfter(c.binSize, k) <= ss[n].workingBin
  {
    hide BinAfter, StepPoll;
    RunMovesOn(c, ss, ops, m, n);
    LineOrderly(c, ss[m]);
    AdmittedStay(LineOf(c, ss[m]), LineOf(c, ss[n]), k - 1, l - 1);
  }

  lemma {:induction false} MovesApart(c: Settings, s: PollState, i: nat, j: nat)
    requires PollInv(c, s) && i < j < |s.moves|
    ensures s.moves[j].seen - s.moves[i].noted >= (j - i) * c.updateInterval
    decreases j
  {
    assert s.moves[j].seen - s.moves[j - 1].noted >= c.updateInterval;
    if i < j - 1 {
      MovesApart(c, s, i, j - 1);
      assert s.moves[j - 1] in s.moves;
      OneMoreInterval(j - 1 - i, c.updateInterval);
    }
  }

  lemma OneMoreInterval(n: int, f: int)
    ensures (n + 1) * f == n * f + f
  {
  }

  lemma CounterIsBin(c: Settings, s: PollState)
    requires PollInv(c, s)
    ensures s.queueBin == BinAfter(c.binSize, s.added) && s.queueBinPos == s.added % (c.binSize + 1)
  {
    BinRange(c.binSize, s.added, s.queueBin);
  }

  /** In every run, across Clears too, the working bin's moves are at least one interval each apart; the counter is
      division with remainder; and the working bin is not negative. */
  lemma PollDrivenRuns(c: Settings, ss: seq<PollState>, ops: seq<PollOp>, n: nat, i: nat, j: nat)
    requires IsPollRun(c, ss, ops) && n < |ss|
    ensures i < j < |ss[n].moves| ==> ss[n].moves[j].seen - ss[n].moves[i].noted >= (j - i) * c.updateInterval
    ensures ss[n].queueBin == BinAfter(c.binSize, ss[n].added) && ss[n].queueBinPos == ss[n].added % (c.binSize + 1)
    ensures 0 <= ss[n].workingBin
  {
    EveryPollState(c, ss, ops, n);
    CounterIsBin(c, ss[n]);
    if i < j < |ss[n].moves| {
      MovesApart(c, ss[n], i, j);
    }
  }

  // ---- what the operations add up to ----

  /** The adds, and the moves of the working bin, since the last Clear; and the adds less the removals ever. */
  function Adds(ops: seq<PollOp>, n: nat): nat
    requires n <= |ops|
  {
    if n == 0 || ops[n - 1].Reset? then 0 else Adds(ops, n - 1) + if ops[n - 1].Arrive? then 1 else 0
  }

  function NetAdds(ops: seq<PollOp>, n: nat): int
    requires n <= |ops|
  {
    if n == 0 then 0 else
      NetAdds(ops, n - 1) + if ops[n - 1].Arrive? then 1 else if ops[n - 1].Depart? then -1 else 0
  }

  lemma {:induction false} AddsInRuns(c: Settings, ss: seq<PollState>, ops: seq<PollOp>, n: nat)
    requires IsPollRun(c, ss, ops) && n < |ss|
    ensures ss[n].added == Adds(ops, n) && ss[n].totalClients == NetAdds(ops, n)
  {
    hide Weighted;
    if n > 0 {
      AddsInRuns(c, ss, ops, n - 1);
      assert PollSteps(c, ss[n - 1], ops[n - 1], ss[n]);
    }
  }

  /** In every run a round of the monitor takes the latest rate itself if the smoothed rate was 0, and else moves the
      smoothed rate by the weight's share of the way to the latest; then the working bin moves by one, and the move is
      noted, exactly if the interval since the last move is over and the smoothed rate is at or below its target. */
  lemma RoundExact(c: Settings, ss: seq<PollState>, ops: seq<PollOp>, n: nat)
    requires IsPollRun(c, ss, ops) && n < |ops| && ops[n].UpdateUtil?
    ensures var (s, s', op) := (ss[n], ss[n + 1], ops[n]);
      var latest := op.lastCount as real / c.checkoutsPerSecond as real;
      && (s.pollingUtil == 0.0 ==> s'.pollingUtil == latest)
      && (s.pollingUtil != 0.0 ==> s'.pollingUtil - s.pollingUtil == c.latestWeight * (latest - s.pollingUtil))
      && (if op.now - s.workingBinUpdated >= c.updateInterval && s'.pollingUtil <= c.maxTargetPollingUtil then
            && s'.workingBin == s.workingBin + 1 && s'.workingBinUpdated == op.later
            && s'.moves == s.moves + [Move(op.now, op.later)]
          else s'.workingBin == s.workingBin && s'.workingBinUpdated == s.workingBinUpdated && s'.moves == s.moves)
  {
    assert PollSteps(c, ss[n], ops[n], ss[n + 1]);
    SmoothedBy(ops[n].lastCount as real / c.checkoutsPerSecond as real, ss[n].pollingUtil, c.latestWeight);
    hide Weighted, IsPollRun;
  }

  lemma SmoothedBy(latest: real, previous: real, weight: real)
    ensures previous == 0.0 ==> Weighted(latest, previous, weight) == latest
    ensures previous != 0.0 ==> Weighted(latest, previous, weight) - previous == weight * (latest - previous)
  {
  }

  /** Nothing but such a round touches rate and moves; Clear only sets the working bin back to 0. */
  lemma OnlyRoundsMove(c: Settings, ss: seq<PollState>, ops: seq<PollOp>, n: nat)
    requires IsPollRun(c, ss, ops) && n < |ops| && !ops[n].UpdateUtil?
    ensures ss[n + 1].workingBin == if ops[n].Reset? then 0 else ss[n].workingBin
    ensures ss[n + 1].workingBinUpdated == ss[n].workingBinUpdated && ss[n + 1].moves == ss[n].moves
    ensures ss[n + 1].pollingUtil == ss[n].pollingUtil
  {
    assert PollSteps(c, ss[n], ops[n], ss[n + 1]);
  }

  // ---- the queue ----

  class PollDrivenCappedBinsQueue {
    const settings: Settings
    const pollsPerSecTracker: PollsPerSecondTracker
    var queueBin: int
    var queueBinPos: int
    var workingBin: int
    var workingBinUpdated: int
    var pollingUtil: real
    var totalPollsCount: int
    var totalClients: int
    /** How many clients were added since the last Clear, and every move of the working bin. */
    ghost var added: nat
    ghost var moves: seq<Move>

    ghost function View(): PollState
      reads this
    {
      PollState(queueBin, queueBinPos, workingBin, workingBinUpdated, pollingUtil, totalClients, added, moves)
    }

    ghost predicate Valid()
      reads this, pollsPerSecTracker
    {
      settings.checkoutsPerSecond >= 1 && PollInv(settings, View()) && pollsPerSecTracker.Valid()
    }

    constructor (checkoutsPerSecond: int, maxTargetPollingUtil: real, workingBinUpdateInterval: int, weight: real)
      requires checkoutsPerSecond >= 1
      ensures Valid() && View() == NEW_QUEUE && settings.binSize == checkoutsPerSecond
      ensures fresh(pollsPerSecTracker)
    {
      settings := Settings(
        checkoutsPerSecond, checkoutsPerSecond, maxTargetPollingUtil, workingBinUpdateInterval, weight);
      pollsPerSecTracker := new PollsPerSecondTracker();
      queueBin, queueBinPos, workingBin, workingBinUpdated := 0, 0, 0, 0;
      pollingUtil, totalPollsCount, totalClients, added, moves := 0.0, 0, 0, 0, [];
    }

    /** The client that is number k to be added since the last Clear gets bin k / (binSize + 1). */
    method Add(c: BaseClient, now: int)
      requires Valid() && c.isLocked
      modifies this`queueBin, this`queueBinPos, this`totalClients, this`added, c`throttleCookie, c`advisedPollAfter
      ensures Valid() && View() == StepPoll(settings, old(View()), Arrive)
      ensures c.throttleCookie == old(c.throttleCookie)[UserBinKey := Number(BinAfter(settings.binSize, added))]
                                                      [UserQueuePosKey := Number(totalClients)]
      ensures c.advisedPollAfter == now + Truncate(totalClients * 1000, settings.checkoutsPerSecond)
    {
      hide BinAfter, Weighted, PollInv, RunLength;
      StepKeeps(settings, View(), Arrive);
      ghost var s := StepPoll(settings, View(), Arrive);
      if queueBinPos < settings.binSize {
        queueBinPos := queueBinPos + 1;
      } else {
        queueBinPos := 0;
        queueBin := queueBin + 1;
      }
      totalClients := totalClients + 1;
      added := added + 1;
      assert View() == s;
      CounterIsBin(settings, s);
      var ok := c.SetThrottleCookieVal(UserBinKey, Number(queueBin));
      ok := c.SetThrottleCookieVal(UserQueuePosKey, Number(totalClients));
      ok := c.AdvisePollAfter(now + Truncate(totalClients * 1000, settings.checkoutsPerSecond));
    }

    method Remove(c: BaseClient)
      requires Valid()
      modifies this`totalClients
      ensures Valid() && View() == StepPoll(settings, old(View()), Depart)
    {
      StepKeeps(settings, View(), Depart);
      totalClients := totalClients - 1;
    }

    /** Among the clients added, exactly those numbered below (workingBin + 1) * (binSize + 1) may proceed, and a
        client without a stamp counts as bin 0 and may; a poll that is let through is counted in its second. */
    method IsCandidateToProceed(c: BaseClient, now: int, later: int) returns (candidate: bool)
      requires Valid() && c.isLocked && pollsPerSecTracker.prevUnixTimeSecond <= now <= later
      modifies this`totalPollsCount, pollsPerSecTracker
      ensures Valid() && totalPollsCount == old(totalPollsCount) + 1
      ensures forall k: nat ::
        c.throttleCookie == c.throttleCookie[UserBinKey := Number(BinAfter(settings.binSize, k))] ==>
          (candidate <==> k < (workingBin + 1) * (settings.binSize + 1))
      ensures UserBinKey !in c.throttleCookie ==> candidate
      ensures if candidate then |pollsPerSecTracker.log| == old(|pollsPerSecTracker.log|) + 1
              else pollsPerSecTracker.log == old(pollsPerSecTracker.log)
    {
      hide BinAfter, RunLength;
      var bin, ok := c.GetThrottleCookieNumber(UserBinKey);
      totalPollsCount := totalPollsCount + 1;
      candidate := (if ok then bin else 0) <= workingBin;
      forall k: nat | c.throttleCookie == c.throttleCookie[UserBinKey := Number(BinAfter(settings.binSize, k))]
        ensures candidate <==> k < (workingBin + 1) * (settings.binSize + 1)
      {
        assert c.throttleCookie[UserBinKey] == Number(BinAfter(settings.binSize, k));
        AdmittedPrefix(settings.binSize, k, workingBin);
      }
      if candidate {
        pollsPerSecTracker.CountPollingEvent(now, later);
      }
    }

    /** One round of the polling monitor, which reads the clock twice: the working bin moves at most once per
        interval, and only while the smoothed polling rate is at or below its target. */
    method UpdatePollingUtil(now: int, later: int)
      requires Valid() && now <= later
      modifies this`pollingUtil, this`workingBin, this`workingBinUpdated, this`moves
      ensures Valid()
      ensures var log := pollsPerSecTracker.log;
        View() == StepPoll(settings, old(View()), UpdateUtil(RunLength(log, |log| - RunLength(log, |log|)), now, later))
    {
      hide RunLength, PollInv;
      var lastCount := pollsPerSecTracker.LastCount();
      StepKeeps(settings, View(), UpdateUtil(lastCount, now, later));
      var latest := lastCount as real / settings.checkoutsPerSecond as real;
      if pollingUtil == 0.0 {
        pollingUtil := latest;
      } else {
        var prevPollingUtil := (1.0 - settings.latestWeight) * pollingUtil;
        pollingUtil := latest * settings.latestWeight + prevPollingUtil;
      }
      if now - workingBinUpdated >= settings.updateInterval {
        if pollingUtil <= settings.maxTargetPollingUtil {
          workingBin := workingBin + 1;
          workingBinUpdated := later;
          moves := moves + [Move(now, later)];
        }
      }
      assert View() == StepPoll(settings, old(View()), UpdateUtil(lastCount, now, later));
    }

    /** Clear leaves the number of clients and the time of the last move as they are. */
    method Clear()
      requires Valid()
      modifies this`queueBin, this`queueBinPos, this`workingBin, this`added
      ensures Valid() && View() == StepPoll(settings, old(View()), Reset)
    {
      StepKeeps(settings, View(), Reset);
      queueBin, queueBinPos, workingBin, added := 0, 0, 0, 0;
    }
  }
}

/** How long the two timers of the fairness-interval queue run, hence exactly who shares a bin, how fast the working bin
    moves and which polls pass, in clients and milliseconds. */
module FairnessExact {
  import opened Arithmetic
  import opened Redis
  import opened FairnessInterval
  import opened OptFairnessInterval
  import opened Lockstep
  import opened FairnessRuns

  // ---- the working bin's timer ----

  /** Clients waiting in the working bin while a later one is open; only they make the timer run longer. */
  function Backlog(h: History): nat {
    if 0 < Working(h) < Latest(h) then |Waiting(h.log, h.gone, Working(h))| else 0
  }

  lemma AskArms(c: Config, h: History, at: int, k: nat, ms: int)
    requires Can(h, Ask(at, k)) && WellFormed(h.keys) && h.keys.latest.Some? && Tallied(h)
    ensures var h' := Do(c, h, Ask(at, k));
      if Expired(h, Ask(at, k)) then
        && h'.keys.pollTimer.Some?
        && (ms <= h'.keys.pollTimer.value - at <==>
              ms <= c.maxUnfairMs || ms * c.maxPerWindow <= Backlog(h) * c.windowMs)
      else h'.keys.pollTimer == h.keys.pollTimer
  {
    AskTimer(c, h, at, k);
    hide HoldMs, Do, Tallied, WellFormed, Backlog;
    HoldMsExact(c, Backlog(h), ms);
  }

  lemma AskTimer(c: Config, h: History, at: int, k: nat)
    requires Can(h, Ask(at, k)) && WellFormed(h.keys) && h.keys.latest.Some? && Tallied(h)
    ensures Do(c, h, Ask(at, k)).keys.pollTimer
         == if Expired(h, Ask(at, k)) then Some(at + HoldMs(c, Backlog(h))) else h.keys.pollTimer
  {
    hide HoldMs, AddStep, RemoveStep, Waiting;
    HoldMsAtLeast(c, 0);
    assert Lookup(h.keys.counts, Working(h)).GetOr(0) == |Waiting(h.log, h.gone, Working(h))|;
  }

  /** In every run a poll that finds the timer over arms it for exactly the longer of the fairness interval and the
      whole milliseconds it takes to drain the clients waiting in the working bin at the full rate; no other act
      touches it. */
  lemma TimerRuns(c: Config, hs: seq<History>, acts: seq<Act>, n: nat, ms: int)
    requires IsRun(c, hs, acts) && n < |acts|
    ensures if Expired(hs[n], acts[n]) then
        && hs[n + 1].keys.pollTimer.Some?
        && (ms <= hs[n + 1].keys.pollTimer.value - acts[n].at <==>
              ms <= c.maxUnfairMs || ms * c.maxPerWindow <= Backlog(hs[n]) * c.windowMs)
      else hs[n + 1].keys.pollTimer == hs[n].keys.pollTimer
  {
    EveryState(c, hs, acts, n);
    assert StepsTo(c, hs[n], acts[n], hs[n + 1]);
    hide IsRun, Paced, HoldMs, Backlog;
    match acts[n]
    case Join(at) => JoinStamped(c, hs[n], at); JoinTimer(c, hs[n], at);
    case Leave(at, k) => LeaveStamped(c, hs[n], at, k);
    case Ask(at, k) => AskArms(c, hs[n], at, k, ms);
  }

  lemma JoinTimer(c: Config, h: History, at: int)
    requires Can(h, Join(at))
    ensures Do(c, h, Join(at)).keys.pollTimer == h.keys.pollTimer
  {
    hide Waiting;
  }

  /** The clients that waited in the old working bins as the moves i, …, j-1 were made. */
  function BacklogSum(advances: seq<Advance>, i: nat, j: nat): nat
    requires i <= j <= |advances|
  {
    if i == j then 0 else BacklogSum(advances, i, j - 1) + advances[j - 1].backlog
  }

  lemma {:induction false} MovesDrain(c: Config, h: History, i: nat, j: nat)
    requires Paced(c, h) && i < j < |h.advances|
    ensures (h.advances[j].at - h.advances[i].at) * c.maxPerWindow > BacklogSum(h.advances, i, j) * c.windowMs
    decreases j
  {
    hide HoldMs;
    var last, next := h.advances[j - 1], h.advances[j];
    HoldMsExact(c, last.backlog, last.ttl + 1);
    assert last.at + last.ttl < next.at;
    TimesMonotone(last.ttl + 1, next.at - last.at, c.maxPerWindow);
    if i + 1 == j {
      assert BacklogSum(h.advances, i, i) == 0;
    } else {
      MovesDrain(c, h, i, j - 1);
      var before := BacklogSum(h.advances, i, j - 1);
      SumTimes(last.at - h.advances[i].at, next.at - last.at, c.maxPerWindow);
      SumTimes(before, last.backlog, c.windowMs);
    }
  }

  lemma SumTimes(a: int, b: int, f: int)
    ensures (a + b) * f == a * f + b * f
  {
  }

  /** Between any two moves of the working bin passed more than the time it takes to drain, at the full rate, all the
      clients that waited in the bins left in between. */
  lemma DrainPacing(c: Config, hs: seq<History>, acts: seq<Act>, n: nat, i: nat, j: nat)
    requires IsRun(c, hs, acts) && n < |hs| && i < j < |hs[n].advances|
    ensures (hs[n].advances[j].at - hs[n].advances[i].at) * c.maxPerWindow
          > BacklogSum(hs[n].advances, i, j) * c.windowMs
  {
    EveryState(c, hs, acts, n);
    MovesDrain(c, hs[n], i, j);
  }

  /** Every move is recorded as it happens: at its time, with the number of clients then waiting in the old bin. */
  lemma MoveRecorded(c: Config, hs: seq<History>, acts: seq<Act>, n: nat)
    requires IsRun(c, hs, acts) && n < |acts|
    ensures hs[n].advances <= hs[n + 1].advances
    ensures |hs[n + 1].advances|
         == |hs[n].advances| + if Expired(hs[n], acts[n]) && Working(hs[n]) < Latest(hs[n]) then 1 else 0
    ensures |hs[n + 1].advances| > |hs[n].advances| ==>
      var move := hs[n + 1].advances[|hs[n].advances|]; var left := |hs[n].advances|;
      && move.at == acts[n].at
      && move.backlog == if left == 0 then 0 else |Waiting(hs[n].log, hs[n].gone, left)|
  {
    EveryState(c, hs, acts, n);
    assert StepsTo(c, hs[n], acts[n], hs[n + 1]);
    hide IsRun, HoldMs, Waiting, Tallied;
    match acts[n]
    case Join(at) => JoinStamped(c, hs[n], at);
    case Leave(at, k) => LeaveStamped(c, hs[n], at, k);
    case Ask(at, k) => AskRecords(c, hs[n], at, k);
  }

  lemma AskRecords(c: Config, h: History, at: int, k: nat)
    requires Can(h, Ask(at, k)) && WellFormed(h.keys) && h.keys.latest.Some? && |h.advances| == Working(h)
    ensures var h' := Do(c, h, Ask(at, k));
      && h.advances <= h'.advances
      && |h'.advances| == |h.advances| + (if Expired(h, Ask(at, k)) && Working(h) < Latest(h) then 1 else 0)
      && (|h'.advances| > |h.advances| ==>
            var move := h'.advances[|h.advances|];
            && move.at == at
            && move.backlog == if Working(h) == 0 then 0 else |Waiting(h.log, h.gone, Working(h))|)
  {
    hide HoldMs, AddStep, RemoveStep, Waiting;
  }

  // ---- which polls pass ----

  /** In every run a client's poll passes exactly if, with this poll, the working bin has moved at least as often as
      the client's bin says. */
  lemma PassesIff(c: Config, hs: seq<History>, acts: seq<Act>, n: nat)
    requires IsRun(c, hs, acts) && n < |acts| && acts[n].Ask? && acts[n].client < |hs[n].log|
    ensures Readable(hs[n].keys, c, PollEvent(acts[n].at, hs[n].log[acts[n].client].bin)).1
         == if hs[n].log[acts[n].client].bin <= |hs[n + 1].advances| then Passed else Rejected
  {
    EveryState(c, hs, acts, n);
    EveryState(c, hs, acts, n + 1);
    assert StepsTo(c, hs[n], acts[n], hs[n + 1]);
    hide IsRun, Tallied, HoldMs;
    AskStamped(c, hs[n], acts[n].at, acts[n].client);
  }

  // ---- the bin a client joins ----

  /** The bin of the client before client i; the bin before the first is 0. */
  function BinBefore(log: seq<Stamp>, i: nat): int
    requires i <= |log|
  {
    if i == 0 then 0 else log[i - 1].bin
  }

  /** Client i was the first of its bin. */
  predicate Opens(log: seq<Stamp>, i: nat)
    requires i < |log|
  {
    BinBefore(log, i) != log[i].bin
  }

  ghost predicate Numbered(log: seq<Stamp>) {
    forall i: nat {:trigger Opens(log, i)} :: i < |log| && Opens(log, i) ==> log[i].bin == BinBefore(log, i) + 1
  }

  /** The add timer runs for one fairness interval from the first client of the last bin on. */
  ghost predicate TimerFromFirst(c: Config, log: seq<Stamp>, timer: Timer) {
    forall i: nat {:trigger Opens(log, i)} :: i < |log| && Opens(log, i) && log[i].bin == BinBefore(log, |log|) ==>
      timer == Some(log[i].at + c.maxUnfairMs)
  }

  /** Whoever has a later bin than the first client of a bin joined after that client's interval. */
  ghost predicate Apart(c: Config, log: seq<Stamp>) {
    forall i: nat, j: nat {:trigger Opens(log, i), log[j]} ::
      i < j < |log| && Opens(log, i) && log[i].bin < log[j].bin ==> log[j].at > log[i].at + c.maxUnfairMs
  }

  /** Bins are opened one after the other, each for one fairness interval from its first client on. */
  ghost predicate BinsOk(c: Config, h: History) {
    Numbered(h.log) && TimerFromFirst(c, h.log, h.keys.addTimer) && Apart(c, h.log)
  }

  lemma JoinTakes(c: Config, h: History, at: int)
    requires Can(h, Join(at)) && WellFormed(h.keys) && Stamped(c, h)
    ensures var h' := Do(c, h, Join(at));
      && |h'.log| == |h.log| + 1 && h'.log[..|h.log|] == h.log && h'.log[|h.log|].at == at
      && h'.log[|h.log|].bin == (if h.log == [] then 1 else
           h.log[|h.log| - 1].bin + if at <= h.keys.addTimer.GetOr(at) then 0 else 1)
      && (if h.log != [] && at <= h.keys.addTimer.GetOr(at) then h'.keys.addTimer == h.keys.addTimer
          else h'.keys.addTimer == Some(at + c.maxUnfairMs))
  {
    hide HoldMs, PollStep, RemoveStep, Waiting;
    JoinStamped(c, h, at);
  }

  lemma JoinBins(c: Config, h: History, h': History, at: int)
    requires BinsOk(c, h) && Stamped(c, h) && h.clock <= at
    requires |h'.log| == |h.log| + 1 && h'.log[..|h.log|] == h.log && h'.log[|h.log|].at == at
    requires h'.log[|h.log|].bin == if h.log == [] then 1 else
      h.log[|h.log| - 1].bin + if at <= h.keys.addTimer.GetOr(at) then 0 else 1
    requires if h.log != [] && at <= h.keys.addTimer.GetOr(at) then h'.keys.addTimer == h.keys.addTimer
             else h'.keys.addTimer == Some(at + c.maxUnfairMs)
    ensures BinsOk(c, h')
  {
    var n := |h.log|;
    LastBins(h.log, h'.log);
    var before, timer := BinBefore(h.log, n), h.keys.addTimer;
    if n > 0 {
      Bounds(c, h);
    }
    hide Stamped, BinBefore, Opens;
    forall i: nat {:trigger Opens(h'.log, i)} | i < n + 1 && Opens(h'.log, i)
      ensures h'.log[i].bin == BinBefore(h'.log, i) + 1
      ensures h'.log[i].bin == h'.log[n].bin ==> h'.keys.addTimer == Some(h'.log[i].at + c.maxUnfairMs)
      ensures i < n && h'.log[i].bin < h'.log[n].bin ==> at > h'.log[i].at + c.maxUnfairMs
    {
      OpensPrefix(h.log, h'.log, i);
      if i < n {
        FirstOfBin(c, h, i);
      }
    }
    ApartMore(c, h.log, h'.log);
  }

  lemma ApartMore(c: Config, log: seq<Stamp>, more: seq<Stamp>)
    requires Apart(c, log) && |more| == |log| + 1 && more[..|log|] == log
    requires forall i: nat {:trigger Opens(more, i)} :: i < |log| && Opens(more, i) && more[i].bin < more[|log|].bin ==>
      more[|log|].at > more[i].at + c.maxUnfairMs
    ensures Apart(c, more)
  {
    hide Opens, BinBefore;
    forall i: nat, j: nat {:trigger Opens(more, i), more[j]} |
        i < j < |more| && Opens(more, i) && more[i].bin < more[j].bin
      ensures more[j].at > more[i].at + c.maxUnfairMs
    {
      if j < |log| {
        OpensPrefix(log, more, i);
        assert more[j] == log[j];
      }
    }
  }

  lemma LastBins(log: seq<Stamp>, more: seq<Stamp>)
    requires |more| == |log| + 1 && more[..|log|] == log
    ensures BinBefore(more, |log|) == BinBefore(log, |log|) && BinBefore(more, |more|) == more[|log|].bin
    ensures BinBefore(log, |log|) == if log == [] then 0 else log[|log| - 1].bin
    ensures Opens(more, |log|) <==> BinBefore(log, |log|) != more[|log|].bin
  {
  }

  lemma OpensPrefix(log: seq<Stamp>, more: seq<Stamp>, i: nat)
    requires |more| == |log| + 1 && more[..|log|] == log && i < |more|
    ensures i < |log| ==>
      more[i] == log[i] && BinBefore(more, i) == BinBefore(log, i) && Opens(more, i) == Opens(log, i)
  {
  }

  lemma Bounds(c: Config, h: History)
    requires Stamped(c, h) && h.log != []
    ensures h.keys.addTimer.Some? && BinBefore(h.log, |h.log|) >= 1 && h.log[|h.log| - 1].at <= h.clock
  {
  }

  /** While clients still join the bin last opened, the first of an earlier bin is past its interval. */
  lemma FirstOfBin(c: Config, h: History, i: nat)
    requires Apart(c, h.log) && TimerFromFirst(c, h.log, h.keys.addTimer) && Stamped(c, h)
    requires i < |h.log| && Opens(h.log, i)
    ensures h.log[i].bin <= BinBefore(h.log, |h.log|)
    ensures if h.log[i].bin < BinBefore(h.log, |h.log|) then h.clock > h.log[i].at + c.maxUnfairMs
            else h.keys.addTimer == Some(h.log[i].at + c.maxUnfairMs)
  {
    hide Opens;
    var last: nat := |h.log| - 1;
    assert h.log[i].bin <= h.log[last].bin && h.log[last].at <= h.clock;
    if h.log[i].bin < h.log[last].bin {
      assert i < last;
    }
  }

  lemma SameBins(c: Config, h: History, h': History)
    requires BinsOk(c, h) && h'.log == h.log && h'.keys.addTimer == h.keys.addTimer
    ensures BinsOk(c, h')
  {
    hide Opens, BinBefore;
  }

  lemma {:induction false} EveryBinsOk(c: Config, hs: seq<History>, acts: seq<Act>, n: nat)
    requires IsRun(c, hs, acts) && n < |hs|
    ensures BinsOk(c, hs[n])
  {
    hide BinsOk, Do, Stamped, Paced, Tallied, WellFormed;
    if n == 0 {
      assert BinsOk(c, hs[0]) by { NoBins(c, hs[0]); }
    } else {
      EveryBinsOk(c, hs, acts, n - 1);
      EveryState(c, hs, acts, n - 1);
      assert StepsTo(c, hs[n - 1], acts[n - 1], hs[n]);
      DoBins(c, hs[n - 1], acts[n - 1]);
    }
  }

  lemma NoBins(c: Config, h: History)
    requires h.log == []
    ensures BinsOk(c, h)
  {
  }

  lemma DoBins(c: Config, h: History, a: Act)
    requires Can(h, a) && Inv(c, h) && BinsOk(c, h)
    ensures BinsOk(c, Do(c, h, a))
  {
    hide Stamped, BinsOk, Paced, Tallied, WellFormed, Do;
    match a
    case Join(at) => JoinTakes(c, h, at); JoinBins(c, h, Do(c, h, a), at);
    case Leave(at, k) => LeaveStamped(c, h, at, k); SameBins(c, h, Do(c, h, a));
    case Ask(at, k) => AskStamped(c, h, at, k); SameBins(c, h, Do(c, h, a));
  }

  /** In every run bins are numbered 1, 2, … as they are opened, and the clients sharing a bin with the first of it
      are exactly those that joined within one fairness interval after it. */
  lemma BinsExact(c: Config, hs: seq<History>, acts: seq<Act>, n: nat, i: nat, j: nat)
    requires IsRun(c, hs, acts) && n < |hs| && i <= j < |hs[n].log| && Opens(hs[n].log, i)
    ensures var log := hs[n].log;
      && log[i].bin == BinBefore(log, i) + 1
      && (log[j].bin == log[i].bin <==> log[j].at - log[i].at <= c.maxUnfairMs)
  {
    EveryBinsOk(c, hs, acts, n);
    hide Opens, BinBefore;
    if i < j {
      FairnessWidth(c, hs, acts, n, i, j);
    }
  }

  /** A client that joins is answered its bin and the number of clients then in the queue, itself included. */
  lemma JoinIsAnswered(c: Config, hs: seq<History>, acts: seq<Act>, n: nat)
    requires IsRun(c, hs, acts) && n < |acts| && acts[n].Join?
    ensures |hs[n + 1].log| == |hs[n].log| + 1 && hs[n + 1].log[|hs[n].log|].at == acts[n].at
    ensures Readable(hs[n].keys, c, AddEvent(acts[n].at)).1
         == Added(hs[n + 1].log[|hs[n].log|].bin, |hs[n + 1].log| - |hs[n + 1].gone|)
  {
    EveryState(c, hs, acts, n);
    EveryState(c, hs, acts, n + 1);
    assert StepsTo(c, hs[n], acts[n], hs[n + 1]);
    hide IsRun, Paced, HoldMs, Waiting;
    JoinStamped(c, hs[n], acts[n].at);
  }
}

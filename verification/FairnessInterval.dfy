/** The readable Redis-Lua version of the fairness-interval queue: six separate keys.
    Redis runs one script at a time, so one method call is one step of the system. */
module FairnessInterval {
  import opened Arithmetic
  import opened Redis

  datatype Limits = Limits(maxUnfairMs: int, windowMs: int, maxPerWindow: int)

  /** `PX` refuses an expiry below 1 ms, and the rate tracker refuses an empty window. */
  type Config = c: Limits | c.maxUnfairMs >= 1 && c.windowMs >= 1 && c.maxPerWindow >= 1
    witness Limits(2000, 2000, 200)

  /** What a script answers. `Failed` is a Lua error: the script stops and keeps the writes it has made. */
  datatype Reply = Added(bin: int, position: int) | Removed | Passed | Rejected | Failed

  datatype Keys = Keys(
    total: Option<int>, latest: Option<int>, working: Option<int>,
    counts: map<int, int>, addTimer: Timer, pollTimer: Timer)

  const NO_KEYS := Keys(None, None, None, map[], None, None)

  /** How long the working bin is held: long enough to drain `count` clients, and at least the fairness interval. */
  function HoldMs(c: Config, count: int): int {
    Max(c.maxUnfairMs, count * c.windowMs / c.maxPerWindow)
  }

  /** The hold reaches ms exactly if the fairness interval does, or draining count clients at the full rate takes as
      long. */
  lemma HoldMsExact(c: Config, count: int, ms: int)
    ensures ms <= HoldMs(c, count) <==> ms <= c.maxUnfairMs || ms * c.maxPerWindow <= count * c.windowMs
  {
    QuotientAtLeast(count * c.windowMs, c.maxPerWindow, ms);
  }

  function Verdict(bin: int, working: int): Reply {
    if bin > working then Rejected else Passed
  }

  function AddStep(k: Keys, c: Config, now: int): (Keys, Reply) {
    var opens := !Live(k.addTimer, now);
    var latest := if opens then Some(k.latest.GetOr(0) + 1) else k.latest;
    if latest.None? then
      (k, Failed)
    else
      var total := k.total.GetOr(0) + 1;
      (Keys(Some(total), latest, k.working, Bump(k.counts, latest.value, 1),
            if opens then Some(now + c.maxUnfairMs) else k.addTimer, k.pollTimer),
       Added(latest.value, total))
  }

  function RemoveStep(k: Keys, bin: int): (Keys, Reply) {
    (k.(total := Some(k.total.GetOr(0) - 1), counts := Bump(k.counts, bin, -1)), Removed)
  }

  /** The poll script compares or divides by a missing value. */
  predicate ReadsNil(k: Keys) {
    k.working.Some? && (k.latest.None? || (k.working.value < k.latest.value && k.working.value !in k.counts))
  }

  function PollTtl(k: Keys, c: Config): int
    requires !ReadsNil(k)
  {
    if k.working.Some? && k.working.value < k.latest.value then HoldMs(c, k.counts[k.working.value]) else c.maxUnfairMs
  }

  function PollStep(k: Keys, c: Config, now: int, bin: int): (Keys, Reply) {
    if ReadsNil(k) then
      (k, Failed)
    else if Live(k.pollTimer, now) then
      (k, Verdict(bin, k.working.GetOr(-1)))
    else
      var armed := k.(pollTimer := Some(now + PollTtl(k, c)));
      if k.latest.None? then
        (armed, Failed)
      else if k.working.GetOr(-1) < k.latest.value then
        var w := k.working.GetOr(0) + 1;
        (armed.(working := Some(w)), Verdict(bin, w))
      else
        (armed, Verdict(bin, k.working.GetOr(-1)))
  }

  class ReadableStore {
    var totalClients: Option<int>
    var latestQueueBin: Option<int>
    var latestQueueBinTimer: Timer
    var binCountsDict: map<int, int>
    var workingBinIdx: Option<int>
    var workingBinUpdateTimer: Timer

    ghost function View(): Keys
      reads this
    {
      Keys(totalClients, latestQueueBin, workingBinIdx, binCountsDict, latestQueueBinTimer, workingBinUpdateTimer)
    }

    constructor ()
      ensures View() == NO_KEYS
    {
      totalClients, latestQueueBin, workingBinIdx := None, None, None;
      latestQueueBinTimer, workingBinUpdateTimer := None, None;
      binCountsDict := map[];
    }

    method Clear()
      modifies this
      ensures View() == NO_KEYS
    {
      totalClients, latestQueueBin, workingBinIdx := None, None, None;
      latestQueueBinTimer, workingBinUpdateTimer := None, None;
      binCountsDict := map[];
    }

    method Add(c: Config, now: int) returns (reply: Reply, pollAfterMs: int)
      modifies this
      ensures (View(), reply) == AddStep(old(View()), c, now)
      ensures reply.Added? ==> pollAfterMs == Truncate(reply.position * c.windowMs, c.maxPerWindow)
    {
      pollAfterMs := 0;
      var latest := latestQueueBin;
      if !Live(latestQueueBinTimer, now) {
        latestQueueBinTimer := Some(now + c.maxUnfairMs);
        latestQueueBin := Some(latestQueueBin.GetOr(0) + 1);
        latest := latestQueueBin;
      }
      if latest.None? {
        return Failed, 0;
      }
      binCountsDict := Bump(binCountsDict, latest.value, 1);
      totalClients := Some(totalClients.GetOr(0) + 1);
      pollAfterMs := Truncate(totalClients.value * c.windowMs, c.maxPerWindow);
      reply := Added(latest.value, totalClients.value);
    }

    method Remove(bin: int) returns (reply: Reply)
      modifies this
      ensures (View(), reply) == RemoveStep(old(View()), bin)
    {
      binCountsDict := Bump(binCountsDict, bin, -1);
      totalClients := Some(totalClients.GetOr(0) - 1);
      reply := Removed;
    }

    /** Without a bin the comparison at the end fails, after the writes were made. */
    method Poll(c: Config, now: int, bin: Option<int>) returns (reply: Reply)
      modifies this
      ensures View() == PollStep(old(View()), c, now, bin.GetOr(0)).0
      ensures reply == if bin.Some? then PollStep(old(View()), c, now, bin.value).1 else Failed
    {
      var considered, ttl := -1, c.maxUnfairMs;
      if workingBinIdx.Some? {
        considered := workingBinIdx.value;
        if latestQueueBin.None? {
          return Failed;
        }
        if considered < latestQueueBin.value {
          if considered !in binCountsDict {
            return Failed;
          }
          ttl := Max(c.maxUnfairMs, binCountsDict[considered] * c.windowMs / c.maxPerWindow);
        }
      }
      if !Live(workingBinUpdateTimer, now) {
        workingBinUpdateTimer := Some(now + ttl);
        if latestQueueBin.None? {
          return Failed;
        }
        if considered < latestQueueBin.value {
          workingBinIdx := Some(workingBinIdx.GetOr(0) + 1);
          considered := workingBinIdx.value;
        }
      }
      if bin.None? {
        return Failed;
      }
      reply := if bin.value > considered then Rejected else Passed;
    }
  }
}

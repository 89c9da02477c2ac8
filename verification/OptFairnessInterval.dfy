/** The minified Redis-Lua version: one hash, one count dictionary, and two timers whose keys are parameters. */
module OptFairnessInterval {
  import opened Redis
  import opened FairnessInterval

  datatype HashField = LatestQueueBin | Size | WorkingBinIdx

  datatype Packed = Packed(hash: map<HashField, int>, counts: map<int, int>, timers: map<string, int>)

  const NO_FIELDS := Packed(map[], map[], map[])

  function Field(p: Packed, f: HashField, default: int): int {
    Lookup(p.hash, f).GetOr(default)
  }

  function PackedAddStep(p: Packed, c: Config, timer: string, now: int): (Packed, Reply) {
    var size := Field(p, Size, 0) + 1;
    var latest := Field(p, LatestQueueBin, 0);
    if Live(Lookup(p.timers, timer), now) then
      (Packed(p.hash[Size := size], Bump(p.counts, latest, 1), p.timers), Added(latest, size))
    else
      (Packed(p.hash[LatestQueueBin := latest + 1][Size := size], Bump(p.counts, latest + 1, 1),
              p.timers[timer := now + c.maxUnfairMs]),
       Added(latest + 1, size))
  }

  function PackedRemoveStep(p: Packed, bin: int): (Packed, Reply) {
    (p.(hash := Bump(p.hash, Size, -1), counts := Bump(p.counts, bin, -1)), Removed)
  }

  function PackedPollStep(p: Packed, c: Config, timer: string, now: int, bin: int): (Packed, Reply) {
    var latest := Field(p, LatestQueueBin, 0);
    var working := Field(p, WorkingBinIdx, -1);
    var behind := 0 <= working < latest;
    if behind && working !in p.counts then
      (p, Failed)
    else if Live(Lookup(p.timers, timer), now) then
      (p, Verdict(bin, working))
    else
      var ttl := if behind then HoldMs(c, p.counts[working]) else c.maxUnfairMs;
      var armed := p.(timers := p.timers[timer := now + ttl]);
      if working < latest then
        (armed.(hash := Bump(p.hash, WorkingBinIdx, 1)), Verdict(bin, Field(p, WorkingBinIdx, 0) + 1))
      else
        (armed, Verdict(bin, working))
  }

  class MinifiedStore {
    var throttleHash: map<HashField, int>
    var binCounts: map<int, int>
    var timers: map<string, int>

    ghost function View(): Packed
      reads this
    {
      Packed(throttleHash, binCounts, timers)
    }

    constructor ()
      ensures View() == NO_FIELDS
    {
      throttleHash, binCounts, timers := map[], map[], map[];
    }

    method Add(c: Config, timerKey: string, now: int) returns (reply: Reply)
      modifies this
      ensures (View(), reply) == PackedAddStep(old(View()), c, timerKey, now)
    {
      var latest := Lookup(throttleHash, LatestQueueBin).GetOr(0);
      var size := Lookup(throttleHash, Size).GetOr(0);
      var updatedBin := false;
      size := size + 1;
      if !Live(Lookup(timers, timerKey), now) {
        timers := timers[timerKey := now + c.maxUnfairMs];
        latest := latest + 1;
        updatedBin := true;
      }
      binCounts := Bump(binCounts, latest, 1);
      if updatedBin {
        throttleHash := throttleHash[LatestQueueBin := latest][Size := size];
      } else {
        throttleHash := throttleHash[Size := size];
      }
      reply := Added(latest, size);
    }

    method Remove(bin: int) returns (reply: Reply)
      modifies this
      ensures (View(), reply) == PackedRemoveStep(old(View()), bin)
    {
      throttleHash := Bump(throttleHash, Size, -1);
      binCounts := Bump(binCounts, bin, -1);
      reply := Removed;
    }

    method Poll(c: Config, timerKey: string, now: int, bin: int) returns (reply: Reply)
      modifies this
      ensures (View(), reply) == PackedPollStep(old(View()), c, timerKey, now, bin)
    {
      var latest := Lookup(throttleHash, LatestQueueBin).GetOr(0);
      var working := Lookup(throttleHash, WorkingBinIdx).GetOr(-1);
      var ttl := c.maxUnfairMs;
      if working >= 0 && working < latest {
        if working !in binCounts {
          return Failed;
        }
        ttl := Max(ttl, binCounts[working] * c.windowMs / c.maxPerWindow);
      }
      if !Live(Lookup(timers, timerKey), now) {
        timers := timers[timerKey := now + ttl];
        if working < latest {
          throttleHash := Bump(throttleHash, WorkingBinIdx, 1);
          working := throttleHash[WorkingBinIdx];
        }
      }
      reply := if bin > working then Rejected else Passed;
    }
  }
}

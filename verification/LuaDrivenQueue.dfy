/** The Go side of the Redis-backed queue: every call reads the inventory counter under its lock before it runs a
    script, and keeps the script's answer in the client's cookie. */
module LuaQueue {
  import opened Redis
  import opened Clients
  import opened AtomicCounters
  import opened FairnessInterval

  class LuaDrivenQueue {
    const config: Config
    const counter: AtomicCounter
    const store: ReadableStore
    var totalPollsCount: int

    constructor (config: Config, counter: AtomicCounter, store: ReadableStore)
      ensures this.config == config && this.counter == counter && this.store == store && totalPollsCount == 0
    {
      this.config, this.counter, this.store, totalPollsCount := config, counter, store, 0;
    }

    /** Skipped, with no reply, once no stock is left. Otherwise the client's cookie holds its bin and position. */
    method Add(c: BaseClient, now: int) returns (reply: Option<Reply>)
      requires !counter.isLocked && c.isLocked
      modifies counter`isLocked, store, c`throttleCookie, c`advisedPollAfter
      ensures !counter.isLocked
      ensures counter.count <= 0 ==> reply == None && store.View() == old(store.View()) && c.View() == old(c.View())
      ensures counter.count > 0 ==>
        && (store.View(), reply) == (AddStep(old(store.View()), config, now).0,
                                     Some(AddStep(old(store.View()), config, now).1))
      ensures reply.Some? && reply.value.Added? ==>
        && c.throttleCookie == old(c.throttleCookie)[UserBinKey := Number(reply.value.bin)]
                                                    [UserQueuePosKey := Number(reply.value.position)]
        && c.advisedPollAfter == now + Truncate(reply.value.position * config.windowMs, config.maxPerWindow)
    {
      counter.Lock();
      var remaining, _ := counter.AtomicRead();
      if remaining <= 0 {
        counter.Unlock();
        return None;
      }
      var r, pollAfterMs := store.Add(config, now);
      if r.Added? {
        var _ := c.SetThrottleCookieVal(UserBinKey, Number(r.bin));
        var _ := c.SetThrottleCookieVal(UserQueuePosKey, Number(r.position));
        var _ := c.AdvisePollAfter(now + pollAfterMs);
      }
      counter.Unlock();
      reply := Some(r);
    }

    /** Skipped once more stock is taken than there was. A client without a bin in its cookie fails the script. */
    method Remove(c: BaseClient) returns (reply: Option<Reply>)
      requires !counter.isLocked && c.isLocked
      modifies counter`isLocked, store
      ensures !counter.isLocked
      ensures counter.count <= -1 ==> reply == None && store.View() == old(store.View())
      ensures counter.count >= 0 ==>
        if UserBinKey in c.throttleCookie && c.throttleCookie[UserBinKey].Number? then
          reply == Some(Removed) && store.View() == RemoveStep(old(store.View()), c.throttleCookie[UserBinKey].n).0
        else reply == Some(Failed) && store.View() == old(store.View())
    {
      counter.Lock();
      var remaining, _ := counter.AtomicRead();
      if remaining <= -1 {
        counter.Unlock();
        return None;
      }
      var bin, ok := c.GetThrottleCookieNumber(UserBinKey);
      var r := Failed;
      if ok {
        r := store.Remove(bin);
      }
      counter.Unlock();
      reply := Some(r);
    }

    /** Refused without asking once no stock is left; otherwise the poll script decides, and fails without a bin. */
    method IsCandidateToProceed(c: BaseClient, now: int) returns (candidate: bool, failed: bool)
      requires !counter.isLocked && c.isLocked
      modifies counter`isLocked, store, this`totalPollsCount
      ensures !counter.isLocked && totalPollsCount == old(totalPollsCount) + 1
      ensures counter.count <= 0 ==> !candidate && !failed && store.View() == old(store.View())
      ensures counter.count > 0 ==>
        var bin := if UserBinKey in c.throttleCookie && c.throttleCookie[UserBinKey].Number?
                   then Some(c.throttleCookie[UserBinKey].n) else None;
        var (keys, r) := PollStep(old(store.View()), config, now, bin.GetOr(0));
        && store.View() == keys
        && candidate == (bin.Some? && r == Passed) && failed == (bin.None? || r == Failed)
    {
      totalPollsCount := totalPollsCount + 1;
      counter.Lock();
      var remaining, _ := counter.AtomicRead();
      if remaining <= 0 {
        counter.Unlock();
        return false, false;
      }
      var bin, ok := c.GetThrottleCookieNumber(UserBinKey);
      var r := store.Poll(config, now, if ok then Some(bin) else None);
      counter.Unlock();
      candidate, failed := r == Passed, r == Failed;
    }

    method Clear()
      requires !counter.isLocked
      modifies counter`isLocked, store, this`totalPollsCount
      ensures !counter.isLocked && totalPollsCount == 0 && store.View() == NO_KEYS
    {
      counter.Lock();
      totalPollsCount := 0;
      store.Clear();
      counter.Unlock();
    }
  }

  /** What the minified version keeps of an add, computing the delay itself from the whole rate per second. */
  class MinimalistPostprocessor {
    const maxCps: int

    constructor (maxCps: int)
      ensures this.maxCps == maxCps
    {
      this.maxCps := maxCps;
    }

    method PostprocessAdd(c: BaseClient, bin: int, totalClients: int, now: int)
      requires maxCps >= 1
      modifies c`throttleCookie, c`advisedPollAfter
      ensures !c.isLocked ==> c.View() == old(c.View())
      ensures c.isLocked ==>
        && c.throttleCookie == old(c.throttleCookie)[UserBinKey := Number(bin)][UserQueuePosKey := Number(totalClients)]
        && c.advisedPollAfter == now + Truncate(totalClients * 1000, maxCps)
    {
      var delayMs := Truncate(totalClients * 1000, maxCps);
      var ok := c.SetThrottleCookieVal(UserBinKey, Number(bin));
      ok := c.SetThrottleCookieVal(UserQueuePosKey, Number(totalClients));
      ok := c.AdvisePollAfter(now + delayMs);
    }
  }
}

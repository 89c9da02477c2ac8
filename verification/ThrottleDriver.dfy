/** The throttle driver as one uninterrupted call on real objects, proved to take only steps of the protocol:
    the ghost system y is stepped along with the code, so whatever holds of every run of it covers this code. */
module ThrottleDriver {
  import opened Redis
  import opened Clients
  import opened AtomicCounters
  import opened WindowTracker
  import opened FairnessInterval
  import opened FairnessRuns
  import opened DriverProtocol
  import opened LuaSystem
  import opened LuaQueue

  /** Where the given steps lead from y, if each of them can be taken. */
  ghost function PathEnd(c: Config, p: Params, y: System, steps: seq<SystemAction>): Option<System>
    decreases |steps|
  {
    if steps == [] then Some(y) else
      var last := |steps| - 1;
      var before := PathEnd(c, p, y, steps[..last]);
      if before.Some? && SystemEnabled(before.value, steps[last])
      then Some(SystemNext(c, p, before.value, steps[last])) else None
  }

  lemma PathStep(c: Config, p: Params, y: System, steps: seq<SystemAction>, z: System, s: SystemAction)
    requires PathEnd(c, p, y, steps) == Some(z) && SystemEnabled(z, s)
    ensures PathEnd(c, p, y, steps + [s]) == Some(SystemNext(c, p, z, s))
  {
    hide SystemNext, SystemEnabled;
    assert (steps + [s])[..|steps|] == steps;
  }

  lemma {:induction false} PathJoin(
      c: Config, p: Params, y: System, first: seq<SystemAction>, mid: System, second: seq<SystemAction>, z: System)
    requires PathEnd(c, p, y, first) == Some(mid) && PathEnd(c, p, mid, second) == Some(z)
    ensures PathEnd(c, p, y, first + second) == Some(z)
    decreases |second|
  {
    hide SystemNext, SystemEnabled;
    if second == [] {
      assert first + second == first;
    } else {
      var last := |second| - 1;
      var before := PathEnd(c, p, mid, second[..last]).value;
      PathJoin(c, p, y, first, mid, second[..last], before);
      PathStep(c, p, y, first + second[..last], before, second[last]);
      assert first + second == first + second[..last] + [second[last]];
    }
  }

  /** A path from the last state of a run is the rest of a longer run. */
  lemma {:induction false} PathExtendsRun(
      c: Config, p: Params, ys: seq<System>, acts: seq<SystemAction>, steps: seq<SystemAction>, z: System)
      returns (zs: seq<System>)
    requires IsSystemRun(c, p, ys, acts) && PathEnd(c, p, ys[|acts|], steps) == Some(z)
    ensures IsSystemRun(c, p, zs, acts + steps) && ys <= zs && zs[|acts + steps|] == z
    decreases |steps|
  {
    hide SystemNext, SystemEnabled;
    if steps == [] {
      zs := ys;
      assert acts + steps == acts;
    } else {
      var last := |steps| - 1;
      var before := PathEnd(c, p, ys[|acts|], steps[..last]).value;
      zs := PathExtendsRun(c, p, ys, acts, steps[..last], before);
      var done := acts + steps[..last];
      forall i, j | 0 <= i < |acts + steps| && j == i + 1
        ensures SystemSteps(c, p, (zs + [z])[i], (acts + steps)[i], (zs + [z])[j])
      {
        if i < |done| {
          assert SystemSteps(c, p, zs[i], done[i], zs[j]);
          assert (acts + steps)[i] == done[i];
        }
      }
      zs := zs + [z];
    }
  }

  lemma EmptyPath(c: Config, p: Params, y: System)
    ensures PathEnd(c, p, y, []) == Some(y)
  {
  }

  // ---- one step of a worker, as the code sees it ----

  function Step(w: WorkerId, at: int): SystemAction {
    SystemAction(Work(w, false), at)
  }

  lemma MoveQuiet(c: Config, p: Params, y: System, w: WorkerId, at: int)
    requires SystemEnabled(y, Step(w, at)) && !CallsQueue(y.d.workers[w])
    ensures SystemNext(c, p, y, Step(w, at)) == y.(d := WorkStep(p, y.d, w, false))
  {
    hide WorkStep, Observe;
  }

  lemma MoveEnqueue(c: Config, p: Params, y: System, w: WorkerId, at: int)
    requires SystemEnabled(y, Step(w, at)) && y.d.workers[w].Enqueue? && !SystemNext(c, p, y, Step(w, at)).failed
    ensures var y' := SystemNext(c, p, y, Step(w, at)); var (keys, reply) := AddStep(y.h.keys, c, at);
      && y'.d == WorkStep(p, y.d, w, false)
      && y'.h.clock <= at && !y'.failed
      && (y.d.stock <= 0 ==> y'.h.keys == y.h.keys && y'.tickets == y.tickets)
      && (y.d.stock > 0 ==>
            reply.Added? && y'.h.keys == keys
            && y'.tickets == y.tickets[y.d.workers[w].c := Ticket(reply.bin, |y.h.log|)])
  {
    hide WorkStep, AddStep;
  }

  lemma MoveAsk(c: Config, p: Params, y: System, w: WorkerId, at: int)
    requires SystemEnabled(y, Step(w, at)) && y.d.workers[w].AskQueue? && !SystemNext(c, p, y, Step(w, at)).failed
    ensures var y' := SystemNext(c, p, y, Step(w, at)); var k := y.d.workers[w].c;
      && y'.tickets == y.tickets && y'.h.clock <= at && !y'.failed
      && (y.d.stock <= 0 ==> y'.d == WorkStep(p, y.d, w, false) && y'.h.keys == y.h.keys)
      && (y.d.stock > 0 ==>
            && k in y.tickets
            && var (keys, reply) := PollStep(y.h.keys, c, at, y.tickets[k].bin);
               && reply != Failed && y'.h.keys == keys && y'.d == WorkStep(p, y.d, w, reply == Passed))
  {
    hide WorkStep, PollStep;
  }

  lemma MoveDequeue(c: Config, p: Params, y: System, w: WorkerId, at: int)
    requires SystemEnabled(y, Step(w, at)) && y.d.workers[w].Dequeue? && !SystemNext(c, p, y, Step(w, at)).failed
    ensures var y' := SystemNext(c, p, y, Step(w, at)); var k := y.d.workers[w].c;
      && y'.d == WorkStep(p, y.d, w, false) && y'.tickets == y.tickets && y'.h.clock <= at && !y'.failed
      && (y.d.stock <= -1 ==> y'.h.keys == y.h.keys)
      && (y.d.stock >= 0 ==> k in y.tickets && y'.h.keys == RemoveStep(y.h.keys, y.tickets[k].bin).0)
  {
    hide WorkStep, RemoveStep;
  }

  lemma MoveClear(c: Config, p: Params, y: System, w: WorkerId, at: int)
    requires SystemEnabled(y, Step(w, at)) && y.d.workers[w].ClearQueue?
    ensures var y' := SystemNext(c, p, y, Step(w, at));
      && y'.d == WorkStep(p, y.d, w, false) && y'.tickets == y.tickets && y'.h.keys == NO_KEYS && y'.h.clock <= at
  {
    hide WorkStep;
  }

  class CheckoutThrottleDriver {
    const config: Config
    const queue: LuaDrivenQueue
    const tracker: FixedWindowTracker
    const counter: AtomicCounter
    var cancelled: bool

    constructor (queue: LuaDrivenQueue, tracker: FixedWindowTracker)
      ensures this.queue == queue && this.tracker == tracker && this.counter == queue.counter
      ensures config == queue.config && !cancelled
    {
      this.queue, this.tracker, this.counter, this.config := queue, tracker, queue.counter, queue.config;
      cancelled := false;
    }

    /** The objects hold what the protocol's state says of them … */
    ghost predicate Shared(p: Params, y: System)
      reads this, tracker, counter, queue, queue.store
    {
      && queue.counter == counter && queue.config == config && tracker.maxCheckoutsPerWindow == p.maxPerWindow
      && counter.count == y.d.stock && (counter.isLocked <==> y.d.stockOwner.Some?)
      && queue.store.View() == y.h.keys
      && tracker.View() == y.d.windows
      && cancelled == y.d.cancelled
    }

    /** … and of client c, which is locked. */
    ghost predicate Mirrors(p: Params, y: System, c: BaseClient)
      reads this, tracker, counter, queue, queue.store, c
    {
      Shared(p, y) && c.isLocked && c.id in y.d.clients && ClientMirrors(y.d.clients, y.d.reached, y.tickets, c)
    }

    /** Past the initial state the client's cookie names its state, besides its bin. */
    static ghost predicate ClientMirrors(
        clients: map<ClientId, ThrottleState>, reached: set<ClientId>, tickets: map<ClientId, Ticket>, c: BaseClient)
      reads c
    {
      && c.id in clients && clients[c.id] == c.state
      && (c.hitCheckoutStep <==> c.id in reached)
      && (UserBinKey in c.throttleCookie <==> c.id in tickets)
      && (c.id in tickets ==> c.throttleCookie[UserBinKey] == Number(tickets[c.id].bin))
      && CookieMirrors(c.View())
    }

    /** Worker w's next step. */
    static lemma Advance(config: Config, p: Params, y0: System, steps: seq<SystemAction>, y: System,
                         w: WorkerId, now: int)
        returns (steps': seq<SystemAction>, y': System)
      requires PathEnd(config, p, y0, steps) == Some(y) && SystemInv(config, p, y)
      requires SystemEnabled(y, Step(w, now))
      ensures steps' == steps + [Step(w, now)]
      ensures PathEnd(config, p, y0, steps') == Some(y') && SystemInv(config, p, y') && !y'.failed
      ensures y' == SystemNext(config, p, y, Step(w, now))
    {
      hide SystemNext, SystemEnabled;
      var s := Step(w, now);
      steps', y' := steps + [s], SystemNext(config, p, y, s);
      PathStep(config, p, y0, steps, y, s);
      SystemKeeps(config, p, y, s);
    }

    /** What every piece of a call keeps: worker w goes on for client c with the inventory unlocked. */
    ghost predicate At(p: Params, y: System, c: BaseClient, w: WorkerId, pc: Pc, now: int, low: real)
      reads this, tracker, counter, queue, queue.store, c
    {
      && Mirrors(p, y, c) && SystemInv(config, p, y) && tracker.Valid(low)
      && w in y.d.workers && y.d.workers[w] == pc && y.d.stockOwner.None? && y.h.clock <= now
    }

    static ghost predicate OnlyWork(steps: seq<SystemAction>, w: WorkerId, now: int) {
      forall i :: 0 <= i < |steps| ==> steps[i] == Step(w, now)
    }

    static lemma OnlyWorkJoin(first: seq<SystemAction>, second: seq<SystemAction>, w: WorkerId, now: int)
      requires OnlyWork(first, w, now) && OnlyWork(second, w, now)
      ensures OnlyWork(first + second, w, now)
    {
    }

    /** A step that does not call the queue. */
    lemma Quietly(p: Params, y0: System, steps: seq<SystemAction>, y: System, w: WorkerId, now: int)
        returns (steps': seq<SystemAction>, y': System)
      requires PathEnd(config, p, y0, steps) == Some(y) && SystemInv(config, p, y)
      requires SystemEnabled(y, Step(w, now)) && !CallsQueue(y.d.workers[w])
      requires OnlyWork(steps, w, now)
      ensures OnlyWork(steps', w, now)
      ensures PathEnd(config, p, y0, steps') == Some(y') && SystemInv(config, p, y')
      ensures var (s, pc) := WorkEffect(p, y.d, w, false); y' == y.(d := s.(workers := s.workers[w := pc]))
    {
      hide SystemNext, SystemEnabled, SystemInv, PathEnd, WorkEffect;
      steps', y' := Advance(config, p, y0, steps, y, w, now);
      MoveQuiet(config, p, y, w, now);
    }

    /** A marked client is counted off the stock and the lock released. */
    method CountOff(c: BaseClient, now: int, ghost low: real, ghost p: Params, ghost y: System, ghost w: WorkerId)
        returns (remaining: int, ghost y': System, ghost steps: seq<SystemAction>)
      requires Mirrors(p, y, c) && SystemInv(config, p, y) && tracker.Valid(low) && y.h.clock <= now
      requires w in y.d.workers && y.d.workers[w] == TakeStock(c.id) && counter.isLocked
      modifies counter
      ensures At(p, y', c, w, Dequeue(c.id, remaining), now, low)
      ensures PathEnd(config, p, y, steps) == Some(y') && OnlyWork(steps, w, now)
    {
      hide SystemInv, Wrap32, PathEnd, Observe, ClientMirrors;
      EmptyPath(config, p, y);
      var ok;
      remaining, ok := counter.AtomicAdd(-1);
      steps, y' := Quietly(p, y, [], y, w, now);
      counter.Unlock();
      steps, y' := Quietly(p, y, steps, y', w, now);
    }

    /** With stock in hand the client enters checkout. */
    method MarkAndCount(c: BaseClient, now: int, ghost low: real, ghost p: Params,
                        ghost y0: System, ghost before: seq<SystemAction>, ghost y: System, ghost w: WorkerId)
        returns (remaining: int, ghost y': System, ghost steps: seq<SystemAction>)
      requires Mirrors(p, y, c) && SystemInv(config, p, y) && tracker.Valid(low) && y.h.clock <= now
      requires w in y.d.workers && y.d.workers[w] == MarkCheckout(c.id) && counter.isLocked
      requires PathEnd(config, p, y0, before) == Some(y) && OnlyWork(before, w, now)
      modifies counter, c`state, c`throttleCookie, c`hitCheckoutStep, c`queueExitTime
      ensures At(p, y', c, w, Dequeue(c.id, remaining), now, low) && c.state == InCheckout
      ensures PathEnd(config, p, y0, steps) == Some(y') && OnlyWork(steps, w, now)
    {
      hide SystemInv, PathEnd, Observe, Wrap32, AddStep, PollStep, RemoveStep, OnlyWork;
      var ok := c.MarkInCheckout(now);
      ghost var first, mid := Quietly(p, y0, before, y, w, now);
      ghost var rest;
      remaining, y', rest := CountOff(c, now, low, p, mid, w);
      PathJoin(config, p, y0, first, mid, rest, y');
      steps := first + rest;
      OnlyWorkJoin(first, rest, w, now);
    }

    /** The inventory section: with none left below zero the call gives up. */
    method TakeInventory(c: BaseClient, now: int, ghost low: real, ghost p: Params, ghost y: System, ghost w: WorkerId)
        returns (remaining: int, taken: bool, ghost y': System, ghost steps: seq<SystemAction>)
      requires At(p, y, c, w, AwaitStock(c.id), now, low) && c.state == Queued
      modifies counter, c`state, c`throttleCookie, c`hitCheckoutStep, c`queueExitTime
      ensures At(p, y', c, w, if taken then Dequeue(c.id, remaining) else Respond(c.id), now, low)
      ensures PathEnd(config, p, y, steps) == Some(y') && OnlyWork(steps, w, now)
      ensures c.state == if taken then InCheckout else Queued
    {
      hide SystemInv, Wrap32, PathEnd, Observe;
      EmptyPath(config, p, y);
      hide ClientMirrors;
      taken, y', steps := false, y, [];
      counter.Lock();
      steps, y' := Quietly(p, y, steps, y', w, now);
      var ok;
      remaining, ok := counter.AtomicRead();
      steps, y' := Quietly(p, y, steps, y', w, now);
      if remaining < 0 {
        counter.Unlock();
        steps, y' := Quietly(p, y, steps, y', w, now);
        return;
      }
      taken := true;
      remaining, y', steps := MarkAndCount(c, now, low, p, y, steps, y', w);
    }

    /** The client leaves the queue; once no stock is left the queue is cleared and the run cancelled. */
    method LeaveQueue(c: BaseClient, remaining: int, now: int, ghost low: real, ghost p: Params,
                      ghost y: System, ghost w: WorkerId)
        returns (ghost y': System, ghost steps: seq<SystemAction>)
      requires At(p, y, c, w, Dequeue(c.id, remaining), now, low)
      modifies this`cancelled, counter`isLocked, queue`totalPollsCount, queue.store
      ensures At(p, y', c, w, Respond(c.id), now, low)
      ensures PathEnd(config, p, y, steps) == Some(y') && OnlyWork(steps, w, now)
    {
      hide SystemInv, SystemNext, PathEnd, QueueStep, RemoveStep, Observe;
      EmptyPath(config, p, y);
      steps, y' := Advance(config, p, y, [], y, w, now);
      MoveDequeue(config, p, y, w, now);
      var reply := queue.Remove(c);
      assert reply != Some(Failed);
      if remaining <= 0 {
        MoveClear(config, p, y', w, now);
        queue.Clear();
        cancelled := true;
        steps, y' := Advance(config, p, y, steps, y', w, now);
      }
    }

    /** The queue's answer comes first; the tracker is asked only if the queue lets the client pass. */
    method AskBoth(c: BaseClient, now: int, ghost low: real, ghost p: Params, ghost y: System, ghost w: WorkerId)
        returns (admitted: bool, ghost y': System, ghost steps: seq<SystemAction>)
      requires At(p, y, c, w, AskQueue(c.id), now, low)
      modifies tracker, counter`isLocked, queue`totalPollsCount, queue.store
      ensures At(p, y', c, w, if admitted then AwaitStock(c.id) else Respond(c.id), now, low)
      ensures PathEnd(config, p, y, steps) == Some(y') && OnlyWork(steps, w, now)
    {
      hide SystemInv, SystemNext, PathEnd, QueueStep, PollStep, Observe;
      EmptyPath(config, p, y);
      steps, y' := Advance(config, p, y, [], y, w, now);
      MoveAsk(config, p, y, w, now);
      var candidate, failed := queue.IsCandidateToProceed(c, now);
      assert !failed && Mirrors(p, y', c);
      if !candidate {
        return false, y', steps;
      }
      hide ClientMirrors;
      admitted := tracker.ShouldProceed(c.id, low);
      steps, y' := Quietly(p, y, steps, y', w, now);
    }

    method TryQueued(c: BaseClient, now: int, ghost low: real, ghost p: Params, ghost y: System, ghost w: WorkerId)
        returns (changed: bool, ghost y': System, ghost steps: seq<SystemAction>)
      requires At(p, y, c, w, AskQueue(c.id), now, low) && c.state == Queued
      modifies this`cancelled, tracker, counter, queue`totalPollsCount, queue.store,
        c`state, c`throttleCookie, c`hitCheckoutStep, c`queueExitTime
      ensures At(p, y', c, w, Respond(c.id), now, low)
      ensures PathEnd(config, p, y, steps) == Some(y') && OnlyWork(steps, w, now)
      ensures c.state == if changed then InCheckout else Queued
    {
      hide At, PathEnd;
      var admitted;
      admitted, y', steps := AskBoth(c, now, low, p, y, w);
      if !admitted {
        return false, y', steps;
      }
      ghost var first, mid, more := steps, y', [];
      var remaining;
      remaining, changed, y', more := TakeInventory(c, now, low, p, mid, w);
      PathJoin(config, p, y, first, mid, more, y');
      first, mid := first + more, y';
      if changed {
        y', more := LeaveQueue(c, remaining, now, low, p, mid, w);
        PathJoin(config, p, y, first, mid, more, y');
        first := first + more;
      }
      steps := first;
    }

    /** A client seen for the first time is marked as queued. */
    method Marked(c: BaseClient, now: int, ghost low: real, ghost p: Params, ghost y: System, ghost w: WorkerId)
        returns (ghost y': System, ghost steps: seq<SystemAction>)
      requires At(p, y, c, w, Dispatch(c.id), now, low) && c.state == Initial
      modifies c`state, c`throttleCookie, c`queueEntryTime
      ensures At(p, y', c, w, Enqueue(c.id), now, low) && c.state == Queued
      ensures PathEnd(config, p, y, steps) == Some(y') && OnlyWork(steps, w, now)
    {
      hide SystemInv, PathEnd, Observe;
      EmptyPath(config, p, y);
      var ok := c.MarkQueued(now);
      steps, y' := Quietly(p, y, [], y, w, now);
    }

    /** The queue is handed a client marked as queued. */
    method Enqueued(c: BaseClient, now: int, ghost low: real, ghost p: Params, ghost y: System, ghost w: WorkerId)
        returns (ghost y': System, ghost steps: seq<SystemAction>)
      requires At(p, y, c, w, Enqueue(c.id), now, low) && c.state == Queued
      modifies counter`isLocked, queue.store, c`throttleCookie, c`advisedPollAfter
      ensures At(p, y', c, w, Dispatch(c.id), now, low) && c.state == Queued
      ensures PathEnd(config, p, y, steps) == Some(y') && OnlyWork(steps, w, now)
    {
      hide SystemInv, SystemNext, PathEnd, QueueStep, AddStep, Observe;
      EmptyPath(config, p, y);
      steps, y' := Advance(config, p, y, [], y, w, now);
      MoveEnqueue(config, p, y, w, now);
      var reply := queue.Add(c, now);
      assert reply != Some(Failed);
    }

    /** A client in or past checkout is left alone; a queued one tries to proceed. */
    method Dispatched(c: BaseClient, now: int, ghost low: real, ghost p: Params, ghost y: System, ghost w: WorkerId)
        returns (ghost y': System, ghost steps: seq<SystemAction>)
      requires At(p, y, c, w, Dispatch(c.id), now, low) && c.state != Initial
      ensures At(p, y', c, w, if c.state.Queued? then AskQueue(c.id) else Respond(c.id), now, low)
      ensures PathEnd(config, p, y, steps) == Some(y') && OnlyWork(steps, w, now)
    {
      hide SystemInv, PathEnd, Observe;
      EmptyPath(config, p, y);
      steps, y' := Quietly(p, y, [], y, w, now);
    }

    /** One call of the driver by worker w, which has just locked client c: the objects end up as the protocol's
        steps of that worker leave them, and the worker is ready to respond. No script fails on the way. */
    method TryThrottleStateTransition(
        c: BaseClient, now: int, ghost low: real, ghost p: Params, ghost y: System, ghost w: WorkerId)
        returns (state: ThrottleState, changed: bool, ghost y': System, ghost steps: seq<SystemAction>)
      requires At(p, y, c, w, Dispatch(c.id), now, low)
      modifies this`cancelled, tracker, counter, queue`totalPollsCount, queue.store,
        c`state, c`throttleCookie, c`hitCheckoutStep, c`queueEntryTime, c`queueExitTime, c`advisedPollAfter
      ensures At(p, y', c, w, Respond(c.id), now, low)
      ensures PathEnd(config, p, y, steps) == Some(y') && OnlyWork(steps, w, now)
      ensures state == c.state != Initial && (changed <==> c.state != old(c.state))
      decreases c.state.Initial?
    {
      hide At, PathEnd;
      state := c.state;
      ghost var first, mid, more;
      if state.Initial? {
        mid, first := Marked(c, now, low, p, y, w);
        y', more := Enqueued(c, now, low, p, mid, w);
        PathJoin(config, p, y, first, mid, more, y');
        first, mid := first + more, y';
        state, changed, y', more := TryThrottleStateTransition(c, now, low, p, mid, w);
        PathJoin(config, p, y, first, mid, more, y');
        steps, changed := first + more, true;
      } else {
        y', steps := Dispatched(c, now, low, p, y, w);
        changed := false;
        if state.Queued? {
          first, mid := steps, y';
          changed, y', more := TryQueued(c, now, low, p, mid, w);
          PathJoin(config, p, y, first, mid, more, y');
          steps, state := first + more, c.state;
        }
      }
    }
  }
}

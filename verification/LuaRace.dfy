/** When the queue's own guard suffices: two workers whose polls both pass while one unit is left both go on to
    checkout, so it takes a single worker, or no shortage. */
module LuaRace {
  import opened Counting
  import opened Redis
  import opened Clients
  import opened WindowTracker
  import opened AtomicCounters
  import opened FairnessInterval
  import opened Lockstep
  import opened FairnessRuns
  import opened DriverProtocol
  import opened DriverSafety
  import opened LuaSystem
  import opened ThrottleDriver

  /** The steps lead from y0 to y, all at time at. */
  ghost predicate Path(c: Config, p: Params, y0: System, steps: seq<SystemAction>, y: System, at: int) {
    PathEnd(c, p, y0, steps) == Some(y) && SystemInv(c, p, y) && y.h.clock <= at
  }

  /** The action can be taken, but for the time. */
  predicate Possible(y: System, a: Action) {
    Enabled(y.d, a) && (a.Work? && CallsQueue(y.d.workers[a.w]) ==> y.d.stockOwner.None?)
  }

  lemma PathMore(c: Config, p: Params, y0: System, steps: seq<SystemAction>, y: System, at: int, s: SystemAction)
      returns (steps': seq<SystemAction>, y': System)
    requires Path(c, p, y0, steps, y, at) && Possible(y, s.a) && s.at == at
    ensures SystemEnabled(y, s)
    ensures Path(c, p, y0, steps', y', at) && y' == SystemNext(c, p, y, s) && !y'.failed
  {
    hide SystemInv, SystemNext, Enabled, CallsQueue;
    steps', y' := steps + [s], SystemNext(c, p, y, s);
    PathStep(c, p, y0, steps, y, s);
    SystemKeeps(c, p, y, s);
    InvNotFailed(c, p, y');
    ClockKept(c, p, y, s);
  }

  lemma InvNotFailed(c: Config, p: Params, y: System)
    requires SystemInv(c, p, y)
    ensures !y.failed
  {
    hide DriverInv, HoldersOk, Inv;
  }

  lemma ClockKept(c: Config, p: Params, y: System, s: SystemAction)
    requires SystemEnabled(y, s)
    ensures SystemNext(c, p, y, s).h.clock <= s.at
  {
    hide Next, AddStep, PollStep, RemoveStep, Waiting, Answer;
  }

  lemma Quiet(c: Config, p: Params, y0: System, steps: seq<SystemAction>, y: System, at: int, w: WorkerId)
      returns (steps': seq<SystemAction>, y': System)
    requires Path(c, p, y0, steps, y, at) && Possible(y, Work(w, false)) && !CallsQueue(y.d.workers[w])
    ensures Path(c, p, y0, steps', y', at) && y' == y.(d := WorkStep(p, y.d, w, false))
  {
    hide SystemNext, SystemEnabled, Path, WorkStep, Possible;
    steps', y' := PathMore(c, p, y0, steps, y, at, Step(w, at));
    MoveQuiet(c, p, y, w, at);
  }

  // ---- the store while everything happens at one instant ----

  /** At most bin 1 was opened, and a poll for it passes. */
  predicate FirstBin(k: Keys, at: int) {
    Unopened(k) ||
    (k.latest == Some(1) && Live(k.addTimer, at)
     && (k.working == Some(1) || (k.working.None? && !Live(k.pollTimer, at))))
  }

  lemma FirstBinAdd(c: Config, k: Keys, at: int)
    requires FirstBin(k, at)
    ensures AddStep(k, c, at).1.Added? && AddStep(k, c, at).1.bin == 1
    ensures FirstBin(AddStep(k, c, at).0, at) && AddStep(k, c, at).0.latest.Some?
  {
  }

  lemma FirstBinPoll(c: Config, k: Keys, at: int)
    requires FirstBin(k, at) && k.latest.Some?
    ensures PollStep(k, c, at, 1).1 == Passed && FirstBin(PollStep(k, c, at, 1).0, at)
  {
    hide HoldMs;
  }

  lemma FirstBinRemove(k: Keys, at: int, bin: int)
    requires FirstBin(k, at)
    ensures FirstBin(RemoveStep(k, bin).0, at)
  {
  }

  // ---- one client's way to checkout ----

  /** In a new window, a free worker takes a new client up to handing it to the queue. */
  lemma Receive(c: Config, p: Params, y0: System, steps: seq<SystemAction>, y: System, at: int,
                w: WorkerId, k: ClientId)
      returns (steps': seq<SystemAction>, y': System)
    requires Path(c, p, y0, steps, y, at)
    requires w in y.d.workers && y.d.workers[w] == Idle && k in y.d.clients && y.d.clients[k] == Initial
    requires k !in y.d.owner
    ensures Path(c, p, y0, steps', y', at)
    ensures y' == y.(d := y.d.(clients := y.d.clients[k := Queued], owner := y.d.owner[k := w],
                               workers := y.d.workers[w := Enqueue(k)], windows := Roll(y.d.windows)))
  {
    hide Path, Observe;
    steps', y' := PathMore(c, p, y0, steps, y, at, SystemAction(WindowEnd, at));
    steps', y' := PathMore(c, p, y0, steps', y', at, SystemAction(Pick(w, k), at));
    assert y'.d.workers[w] == Dispatch(k);
    steps', y' := Quiet(c, p, y0, steps', y', at, w);
    assert y.d.workers[w := Dispatch(k)][w := Enqueue(k)] == y.d.workers[w := Enqueue(k)];
  }

  /** The queue stamps the client with bin 1, and the worker asks it. */
  lemma Stamp(c: Config, p: Params, y0: System, steps: seq<SystemAction>, y: System, at: int,
              w: WorkerId, k: ClientId)
      returns (steps': seq<SystemAction>, y': System)
    requires Path(c, p, y0, steps, y, at) && FirstBin(y.h.keys, at)
    requires w in y.d.workers && y.d.workers[w] == Enqueue(k) && k in y.d.clients && y.d.clients[k] == Queued
    requires y.d.stockOwner.None? && y.d.stock > 0
    ensures Path(c, p, y0, steps', y', at)
    ensures y'.d == y.d.(enqueued := y.d.enqueued + {k}, workers := y.d.workers[w := AskQueue(k)])
    ensures FirstBin(y'.h.keys, at) && y'.h.keys.latest.Some? && k in y'.tickets && y'.tickets[k].bin == 1
  {
    hide SystemNext, SystemEnabled, AddStep, Observe, FirstBin, Path;
    FirstBinAdd(c, y.h.keys, at);
    steps', y' := PathMore(c, p, y0, steps, y, at, Step(w, at));
    MoveEnqueue(c, p, y, w, at);
    assert y'.d.workers[w] == Dispatch(k);
    steps', y' := Quiet(c, p, y0, steps', y', at, w);
    assert y.d.workers[w := Dispatch(k)][w := AskQueue(k)] == y.d.workers[w := AskQueue(k)];
  }

  lemma ClockOf(c: Config, p: Params, y0: System, steps: seq<SystemAction>, y: System, at: int)
    requires Path(c, p, y0, steps, y, at)
    ensures y.h.clock <= at && WindowsOk(y.d.windows, p.maxPerWindow)
  {
    hide PathEnd, LocksOk, WorkersOk, ClientsOk, StockOk, StoreOk, HoldersOk, WindowsOk;
  }

  /** The poll and the tracker let the client pass, and the worker waits for the stock. */
  lemma PassBoth(c: Config, p: Params, y0: System, steps: seq<SystemAction>, y: System, at: int,
                 w: WorkerId, k: ClientId)
      returns (steps': seq<SystemAction>, y': System)
    requires Path(c, p, y0, steps, y, at) && FirstBin(y.h.keys, at) && y.h.keys.latest.Some?
    requires w in y.d.workers && y.d.workers[w] == AskQueue(k) && k in y.d.clients
    requires y.d.stockOwner.None? && y.d.stock > 0 && k in y.tickets && y.tickets[k].bin == 1
    requires Observe(y.d.windows, p.maxPerWindow, k).1
    ensures Path(c, p, y0, steps', y', at) && FirstBin(y'.h.keys, at)
    ensures y'.d == y.d.(windows := Observe(y.d.windows, p.maxPerWindow, k).0,
                         workers := y.d.workers[w := AwaitStock(k)])
  {
    hide SystemNext, SystemEnabled, PollStep, Observe, FirstBin, Path;
    FirstBinPoll(c, y.h.keys, at);
    steps', y' := PathMore(c, p, y0, steps, y, at, Step(w, at));
    MoveAsk(c, p, y, w, at);
    assert y'.d.workers[w] == AskTracker(k);
    steps', y' := Quiet(c, p, y0, steps', y', at, w);
    assert y.d.workers[w := AskTracker(k)][w := AwaitStock(k)] == y.d.workers[w := AwaitStock(k)];
  }

  /** What a step of serving leaves of the state around one worker and one client. */
  predicate Goes(y: System, y': System, w: WorkerId, pc: Pc, k: ClientId, state: ThrottleState) {
    && w in y.d.workers && y'.d.workers == y.d.workers[w := pc]
    && k in y.d.clients && y'.d.clients == y.d.clients[k := state]
  }

  /** A new client is let through to the stock. */
  lemma Admit(c: Config, p: Params, y0: System, steps: seq<SystemAction>, y: System, at: int,
              w: WorkerId, k: ClientId)
      returns (steps': seq<SystemAction>, y': System)
    requires Path(c, p, y0, steps, y, at) && FirstBin(y.h.keys, at)
    requires w in y.d.workers && y.d.workers[w] == Idle && k in y.d.clients && y.d.clients[k] == Initial
    requires k !in y.d.owner && y.d.stockOwner.None? && y.d.stock > 0
    ensures Path(c, p, y0, steps', y', at) && FirstBin(y'.h.keys, at)
    ensures Goes(y, y', w, AwaitStock(k), k, Queued) && y'.d.owner == y.d.owner[k := w] && y'.d.stockOwner.None?
    ensures y'.d.stock == y.d.stock && y'.d.reached == y.d.reached
  {
    hide Path, Observe, FirstBin;
    ClockOf(c, p, y0, steps, y, at);
    FreshWindowPasses(y.d.windows, p.maxPerWindow, k);
    steps', y' := Receive(c, p, y0, steps, y, at, w, k);
    steps', y' := Stamp(c, p, y0, steps', y', at, w, k);
    steps', y' := PassBoth(c, p, y0, steps', y', at, w, k);
    assert y.d.workers[w := Enqueue(k)][w := AskQueue(k)][w := AwaitStock(k)] == y.d.workers[w := AwaitStock(k)];
  }

  /** With the counter not below zero the client reaches checkout … */
  lemma ReachCheckout(c: Config, p: Params, y0: System, steps: seq<SystemAction>, y: System, at: int,
                      w: WorkerId, k: ClientId)
      returns (steps': seq<SystemAction>, y': System)
    requires Path(c, p, y0, steps, y, at)
    requires w in y.d.workers && y.d.workers[w] == AwaitStock(k) && k in y.d.clients
    requires y.d.stockOwner.None? && y.d.stock >= 0
    ensures Path(c, p, y0, steps', y', at)
    ensures y' == y.(d := y.d.(clients := y.d.clients[k := InCheckout], reached := y.d.reached + {k},
                               stockOwner := Some(w), workers := y.d.workers[w := TakeStock(k)]))
  {
    hide Observe, Wrap32, SystemNext, SystemEnabled, Path;
    steps', y' := Quiet(c, p, y0, steps, y, at, w);
    steps', y' := Quiet(c, p, y0, steps', y', at, w);
    steps', y' := Quiet(c, p, y0, steps', y', at, w);
    assert y.d.workers[w := ReadStock(k)][w := MarkCheckout(k)][w := TakeStock(k)] == y.d.workers[w := TakeStock(k)];
  }

  /** … and is counted off. */
  lemma CountOff(c: Config, p: Params, y0: System, steps: seq<SystemAction>, y: System, at: int,
                 w: WorkerId, k: ClientId)
      returns (steps': seq<SystemAction>, y': System)
    requires Path(c, p, y0, steps, y, at)
    requires w in y.d.workers && y.d.workers[w] == TakeStock(k) && k in y.d.clients && 0 <= y.d.stock < 0x8000_0000
    ensures Path(c, p, y0, steps', y', at)
    ensures y' == y.(d := y.d.(stock := y.d.stock - 1, stockOwner := None,
                               workers := y.d.workers[w := Dequeue(k, y.d.stock - 1)]))
  {
    hide Observe, Wrap32, SystemNext, SystemEnabled, Path;
    Wrap32Small(y.d.stock - 1);
    steps', y' := Quiet(c, p, y0, steps, y, at, w);
    steps', y' := Quiet(c, p, y0, steps', y', at, w);
    assert y.d.workers[w := ReleaseStock(k, y.d.stock - 1)][w := Dequeue(k, y.d.stock - 1)]
        == y.d.workers[w := Dequeue(k, y.d.stock - 1)];
  }

  lemma Take(c: Config, p: Params, y0: System, steps: seq<SystemAction>, y: System, at: int,
             w: WorkerId, k: ClientId)
      returns (steps': seq<SystemAction>, y': System)
    requires Path(c, p, y0, steps, y, at) && FirstBin(y.h.keys, at)
    requires w in y.d.workers && y.d.workers[w] == AwaitStock(k) && k in y.d.clients
    requires y.d.stockOwner.None? && 0 <= y.d.stock < 0x8000_0000
    ensures Path(c, p, y0, steps', y', at) && FirstBin(y'.h.keys, at)
    ensures Goes(y, y', w, Dequeue(k, y.d.stock - 1), k, InCheckout)
    ensures y'.d.owner == y.d.owner && y'.d.stockOwner.None?
    ensures y'.d.stock == y.d.stock - 1 && y'.d.reached == y.d.reached + {k}
  {
    hide Path, FirstBin;
    steps', y' := ReachCheckout(c, p, y0, steps, y, at, w, k);
    steps', y' := CountOff(c, p, y0, steps', y', at, w, k);
    assert y.d.workers[w := TakeStock(k)][w := Dequeue(k, y.d.stock - 1)]
        == y.d.workers[w := Dequeue(k, y.d.stock - 1)];
  }

  /** While stock is left the client leaves the queue and the worker is free again. */
  lemma Finish(c: Config, p: Params, y0: System, steps: seq<SystemAction>, y: System, at: int,
               w: WorkerId, k: ClientId)
      returns (steps': seq<SystemAction>, y': System)
    requires Path(c, p, y0, steps, y, at) && FirstBin(y.h.keys, at)
    requires w in y.d.workers && y.d.workers[w] == Dequeue(k, y.d.stock) && k in y.d.clients
    requires y.d.stockOwner.None? && y.d.stock > 0
    ensures Path(c, p, y0, steps', y', at) && FirstBin(y'.h.keys, at)
    ensures y'.d.workers == y.d.workers[w := Idle] && y'.d.clients == y.d.clients && y'.d.owner == y.d.owner - {k}
    ensures y'.d.stockOwner.None? && y'.d.stock == y.d.stock && y'.d.reached == y.d.reached
  {
    hide SystemNext, SystemEnabled, RemoveStep, Observe, FirstBin, Path;
    steps', y' := PathMore(c, p, y0, steps, y, at, Step(w, at));
    MoveDequeue(c, p, y, w, at);
    FirstBinRemove(y.h.keys, at, y.tickets[k].bin);
    assert y'.d.workers[w] == Respond(k);
    steps', y' := Quiet(c, p, y0, steps', y', at, w);
    assert y.d.workers[w := Respond(k)][w := Idle] == y.d.workers[w := Idle];
  }

  /** Every worker is free, and who has not reached checkout has not come yet. */
  predicate Resting(y: System, at: int) {
    && (forall w :: w in y.d.workers ==> y.d.workers[w] == Idle)
    && y.d.owner == map[] && y.d.stockOwner.None? && FirstBin(y.h.keys, at)
    && y.d.reached <= y.d.clients.Keys
    && forall k :: k in y.d.clients && k !in y.d.reached ==> y.d.clients[k] == Initial
  }

  /** One client served while there is more than one unit. */
  lemma SellOne(c: Config, p: Params, y0: System, steps: seq<SystemAction>, y: System, at: int,
                w: WorkerId, k: ClientId)
      returns (steps': seq<SystemAction>, y': System)
    requires Path(c, p, y0, steps, y, at) && Resting(y, at) && w in y.d.workers
    requires k in y.d.clients && k !in y.d.reached && 1 < y.d.stock < 0x8000_0000
    ensures Path(c, p, y0, steps', y', at) && Resting(y', at) && y'.d.stock == y.d.stock - 1
    ensures y'.d.workers.Keys == y.d.workers.Keys && y'.d.clients.Keys == y.d.clients.Keys
    ensures y'.d.reached == y.d.reached + {k}
  {
    hide Path, FirstBin;
    steps', y' := Admit(c, p, y0, steps, y, at, w, k);
    steps', y' := Take(c, p, y0, steps', y', at, w, k);
    steps', y' := Finish(c, p, y0, steps', y', at, w, k);
  }

  /** All but one unit sold. */
  lemma {:induction false} SellMany(c: Config, p: Params, y0: System, w: WorkerId, n: nat)
      returns (steps: seq<SystemAction>, y: System)
    requires SystemStart(p, y0) && w in y0.d.workers && n < p.stock && n < |y0.d.clients|
    ensures Path(c, p, y0, steps, y, y0.h.clock) && Resting(y, y0.h.clock)
    ensures y.d.stock == p.stock - n && |y.d.reached| == n
    ensures y.d.workers.Keys == y0.d.workers.Keys && y.d.clients.Keys == y0.d.clients.Keys
  {
    hide PathEnd, SystemInv;
    if n == 0 {
      steps, y := [], y0;
      EmptyPath(c, p, y0);
      FirstSystemState(c, p, y0);
    } else {
      steps, y := SellMany(c, p, y0, w, n - 1);
      assert |y.d.clients| == |y.d.clients.Keys| && |y0.d.clients| == |y0.d.clients.Keys|;
      hide Path, Resting;
      var k := NewClient(y, y0.h.clock);
      steps, y := SellOne(c, p, y0, steps, y, y0.h.clock, w, k);
    }
  }

  lemma NewClient(y: System, at: int) returns (k: ClientId)
    requires Resting(y, at) && |y.d.reached| < |y.d.clients|
    ensures k in y.d.clients && k !in y.d.reached
  {
    k := NextClient(y.d.clients, y.d.reached);
  }

  /** The last unit is sold to two clients by two workers. */
  lemma SellTwice(c: Config, p: Params, y0: System, before: seq<SystemAction>, y: System, at: int,
                  w: WorkerId, v: WorkerId, k: ClientId, l: ClientId)
      returns (steps: seq<SystemAction>, y': System)
    requires Path(c, p, y0, before, y, at) && Resting(y, at) && y.d.stock == 1
    requires w in y.d.workers && v in y.d.workers && w != v
    requires k in y.d.clients && l in y.d.clients && k != l && k !in y.d.reached && l !in y.d.reached
    ensures Path(c, p, y0, steps, y', at) && y'.d.reached == y.d.reached + {k} + {l}
  {
    hide Path, FirstBin;
    steps, y' := Admit(c, p, y0, before, y, at, w, k);
    steps, y' := Admit(c, p, y0, steps, y', at, v, l);
    steps, y' := Take(c, p, y0, steps, y', at, w, k);
    steps, y' := Take(c, p, y0, steps, y', at, v, l);
  }

  lemma Oversell(c: Config, p: Params, y0: System, w: WorkerId, v: WorkerId)
      returns (ys: seq<System>, acts: seq<SystemAction>)
    requires SystemStart(p, y0) && p.stock >= 1 && |y0.d.clients| > p.stock
    requires w in y0.d.workers && v in y0.d.workers && w != v
    ensures SystemStarts(c, p, y0, ys, acts) && |ys[|acts|].d.reached| == p.stock + 1
  {
    var at := y0.h.clock;
    var steps, y := SellMany(c, p, y0, w, p.stock - 1);
    assert |y.d.clients| == |y.d.clients.Keys| && |y0.d.clients| == |y0.d.clients.Keys|;
    var k := NewClient(y, at);
    var l := NextClient(y.d.clients, y.d.reached + {k});
    var before := y;
    steps, y := SellTwice(c, p, y0, steps, y, at, w, v, k, l);
    assert |before.d.reached + {k} + {l}| == p.stock + 1;
    hide PathEnd, SystemInv, SystemNext;
    assert IsSystemRun(c, p, [y0], []);
    ys := PathExtendsRun(c, p, [y0], [], steps, y);
    acts := [] + steps;
  }

  // ---- when no run oversells ----

  ghost predicate SystemStarts(c: Config, p: Params, y0: System, ys: seq<System>, acts: seq<SystemAction>) {
    IsSystemRun(c, p, ys, acts) && ys[0] == y0
  }

  ghost predicate SystemKeepsStock(p: Params, ys: seq<System>) {
    forall n :: 0 <= n < |ys| ==> |ys[n].d.reached| <= p.stock
  }

  lemma KeysStay(c: Config, p: Params, ys: seq<System>, acts: seq<SystemAction>, n: nat)
    requires IsSystemRun(c, p, ys, acts) && n < |ys|
    ensures ys[n].d.workers.Keys == ys[0].d.workers.Keys
    ensures ys[n].d.reached <= ys[0].d.clients.Keys
  {
    hide IsDriverRun, SystemSteps;
    var ss, as_ := DriverRunOf(c, p, ys, acts);
    ReachedAmongClients(p, ss, as_, n);
    assert ss[n] == ys[n].d && ss[0] == ys[0].d;
  }

  /** A single worker runs one transition at a time. */
  lemma OneWorkerIsSerial(c: Config, p: Params, ys: seq<System>, acts: seq<SystemAction>)
    requires IsSystemRun(c, p, ys, acts) && |ys[0].d.workers| <= 1
    ensures OneAtATime(ys, acts)
  {
    hide SystemNext;
    forall i | 0 <= i < |acts| && acts[i].a.Pick? ensures AllIdle(ys[i].d) {
      assert SystemSteps(c, p, ys[i], acts[i], ys[i + 1]);
      KeysStay(c, p, ys, acts, i);
      var w := acts[i].a.w;
      forall v | v in ys[i].d.workers ensures v == w {
        assert |ys[0].d.workers| == |ys[0].d.workers.Keys|;
        SubsetSize({v, w}, ys[0].d.workers.Keys);
      }
    }
  }

  lemma {:induction false} NoStockNoTickets(c: Config, p: Params, ys: seq<System>, acts: seq<SystemAction>, n: nat)
    requires IsSystemRun(c, p, ys, acts) && n < |ys| && p.stock == 0
    ensures ys[n].tickets == map[]
  {
    hide SystemNext, SystemInv;
    if n > 0 {
      NoStockNoTickets(c, p, ys, acts, n - 1);
      EverySystemState(c, p, ys, acts, n - 1);
      EverySystemState(c, p, ys, acts, n);
      assert SystemSteps(c, p, ys[n - 1], acts[n - 1], ys[n]);
      NoTicketSold(c, p, ys[n - 1], acts[n - 1]);
    }
  }

  lemma NoTicketSold(c: Config, p: Params, y: System, s: SystemAction)
    requires SystemInv(c, p, y) && SystemEnabled(y, s) && SystemInv(c, p, SystemNext(c, p, y, s))
    requires p.stock == 0 && y.tickets == map[]
    ensures SystemNext(c, p, y, s).tickets == map[]
  {
    NoStock(p, y.d);
    InvNotFailed(c, p, y);
    InvNotFailed(c, p, SystemNext(c, p, y, s));
    hide SystemInv, QueueStep, WorkStep;
    if s.a.Work? {
      CallIsQueueStep(c, p, y, s);
      TicketsAfter(c, y, y.d.workers[s.a.w], s.at);
      assert SystemNext(c, p, y, s).tickets.Keys == {};
    }
  }

  lemma NoStock(p: Params, s: State)
    requires DriverInv(p, s)
    ensures s.stock <= p.stock
  {
    hide LocksOk, WorkersOk, ClientsOk, WindowsOk;
  }

  lemma ReachedHoldTickets(c: Config, p: Params, y: System)
    requires SystemInv(c, p, y)
    ensures y.d.reached <= y.tickets.Keys
  {
    hide DriverInv, StoreOk;
  }

  /** In every run from a given start no more clients reach checkout than there is stock, exactly if there is no stock
      at all, or stock for every client, or at most one worker. Otherwise two workers can sell the last unit twice,
      the queue's guard notwithstanding. */
  lemma GuardSufficesIff(c: Config, p: Params, y0: System)
    requires SystemStart(p, y0)
    ensures p.stock == 0 || |y0.d.clients| <= p.stock || |y0.d.workers| <= 1 <==>
      forall ys, acts :: SystemStarts(c, p, y0, ys, acts) ==> SystemKeepsStock(p, ys)
  {
    hide SystemSteps, SystemStart, SystemInv;
    assert |y0.d.clients| == |y0.d.clients.Keys| && |y0.d.workers| == |y0.d.workers.Keys|;
    if p.stock == 0 || |y0.d.clients| <= p.stock || |y0.d.workers| <= 1 {
      forall ys: seq<System>, acts | SystemStarts(c, p, y0, ys, acts) ensures SystemKeepsStock(p, ys) {
        forall n | 0 <= n < |ys| ensures |ys[n].d.reached| <= p.stock {
          if p.stock == 0 {
            NoStockNoTickets(c, p, ys, acts, n);
            EverySystemState(c, p, ys, acts, n);
            ReachedHoldTickets(c, p, ys[n]);
          } else if |y0.d.clients| <= p.stock {
            KeysStay(c, p, ys, acts, n);
            SubsetSize(ys[n].d.reached, y0.d.clients.Keys);
          } else {
            OneWorkerIsSerial(c, p, ys, acts);
            SerialNeverOversells(c, p, ys, acts, n);
          }
        }
      }
    } else {
      var w := AnyOf(y0.d.workers.Keys);
      var v := Another(y0.d.workers.Keys, w);
      var ys, acts := Oversell(c, p, y0, w, v);
      assert |ys[|acts|].d.reached| > p.stock;
    }
  }

  lemma Another(ws: set<WorkerId>, w: WorkerId) returns (v: WorkerId)
    requires w in ws && |ws| > 1
    ensures v in ws && v != w
  {
    var rest := ws - {w};
    assert ws == rest + {w};
    v := AnyOf(rest);
  }
}

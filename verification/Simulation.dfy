/** The simulation's objects together: a server worker that takes requests one by one, clients that leave by
    themselves, and the tracker's window timer. Every call extends a run of the system, kept beside the objects. */
module Simulation {
  import opened Counting
  import opened Redis
  import opened Clients
  import opened AtomicCounters
  import opened WindowTracker
  import opened FairnessInterval
  import opened FairnessRuns
  import opened DriverProtocol
  import opened DriverSafety
  import opened LuaSystem
  import opened LuaQueue
  import opened ThrottleDriver

  // ---- what a worker's steps leave of the other clients ----

  /** Nothing the protocol knows of client k differs, and worker w is the only one that may have moved. */
  predicate SameFor(y: System, y': System, k: ClientId) {
    && (k in y.d.clients <==> k in y'.d.clients)
    && (k in y.d.clients ==> y.d.clients[k] == y'.d.clients[k])
    && (k in y.d.reached <==> k in y'.d.reached)
    && (k in y.tickets <==> k in y'.tickets)
    && (k in y.tickets ==> y.tickets[k] == y'.tickets[k])
  }

  predicate OthersSame(y: System, y': System, w: WorkerId) {
    && y.d.workers.Keys == y'.d.workers.Keys
    && forall v :: v in y.d.workers && v != w ==> y.d.workers[v] == y'.d.workers[v]
  }

  lemma WorkTouches(c: Config, p: Params, y: System, w: WorkerId, at: int, k: ClientId)
    requires SystemEnabled(y, Step(w, at)) && y.d.workers[w].c != k
    ensures var y' := SystemNext(c, p, y, Step(w, at));
      && SameFor(y, y', k) && OthersSame(y, y', w) && w in y'.d.workers
      && (y'.d.workers[w].Idle? || y'.d.workers[w].c == y.d.workers[w].c)
  {
    hide WorkStep, Apply, AddStep, PollStep;
    var s := Step(w, at);
    CallIsQueueStep(c, p, y, s);
    var answer := DriverAction(c, y, s).candidate;
    WorkShape(p, y.d, w, answer);
    WorkFrame(p, y.d, w, answer);
    WorkSets(p, y.d, w, answer);
  }

  /** The steps of one worker for one client, up to its response at most. */
  lemma {:induction false} OnlyTouches(
      c: Config, p: Params, y: System, steps: seq<SystemAction>, z: System, w: WorkerId, at: int, k: ClientId)
    requires PathEnd(c, p, y, steps) == Some(z) && CheckoutThrottleDriver.OnlyWork(steps, w, at)
    requires w in y.d.workers && !y.d.workers[w].Idle? && y.d.workers[w].c != k
    ensures SameFor(y, z, k) && OthersSame(y, z, w) && w in z.d.workers
    ensures z.d.workers[w].Idle? || z.d.workers[w].c == y.d.workers[w].c
    decreases |steps|
  {
    hide SystemNext;
    if steps != [] {
      var last := |steps| - 1;
      var before := PathEnd(c, p, y, steps[..last]).value;
      OnlyTouches(c, p, y, steps[..last], before, w, at, k);
      assert steps[last] == Step(w, at);
      WorkTouches(c, p, before, w, at, k);
    }
  }

  lemma ClientFrame(y: System, y': System, c: BaseClient)
    requires SameFor(y, y', c.id)
    requires CheckoutThrottleDriver.ClientMirrors(y.d.clients, y.d.reached, y.tickets, c)
    ensures CheckoutThrottleDriver.ClientMirrors(y'.d.clients, y'.d.reached, y'.tickets, c)
  {
  }

  /** While everyone is at rest, a worker takes a request. */
  lemma PickStep(c: Config, p: Params, y: System, w: WorkerId, k: ClientId, at: int) returns (y': System)
    requires SystemInv(c, p, y) && y.h.clock <= at && AllIdle(y.d)
    requires w in y.d.workers && k in y.d.clients
    ensures SystemEnabled(y, SystemAction(Pick(w, k), at)) && y' == SystemNext(c, p, y, SystemAction(Pick(w, k), at))
    ensures y' == y.(d := y.d.(owner := y.d.owner[k := w], workers := y.d.workers[w := Dispatch(k)]))
    ensures SystemInv(c, p, y')
  {
    FreeClient(y.d, k);
    hide SystemInv;
    y' := SystemNext(c, p, y, SystemAction(Pick(w, k), at));
    SystemKeeps(c, p, y, SystemAction(Pick(w, k), at));
  }

  /** The request was taken, served up to the response, and is responded to: everyone is at rest again. */
  lemma Round(c: Config, p: Params, y0: System, picked: System, steps: seq<SystemAction>, y: System,
              w: WorkerId, k: ClientId, at: int)
      returns (all: seq<SystemAction>, z: System)
    requires SystemEnabled(y0, SystemAction(Pick(w, k), at)) && AllIdle(y0.d) && k in y0.d.clients
    requires picked == SystemNext(c, p, y0, SystemAction(Pick(w, k), at))
    requires picked == y0.(d := y0.d.(owner := y0.d.owner[k := w], workers := y0.d.workers[w := Dispatch(k)]))
    requires PathEnd(c, p, picked, steps) == Some(y) && CheckoutThrottleDriver.OnlyWork(steps, w, at)
    requires w in y.d.workers && y.d.workers[w] == DriverProtocol.Respond(k) && k in y.d.clients && y.h.clock <= at
    ensures PathEnd(c, p, y0, all) == Some(z) && all == [SystemAction(Pick(w, k), at)] + steps + [Step(w, at)]
    ensures AllIdle(z.d) && z.d.workers.Keys == y0.d.workers.Keys && z.d.clients.Keys == y0.d.clients.Keys
    ensures z.h == y.h && z.d.stock == y.d.stock && z.d.stockOwner == y.d.stockOwner && z.d.windows == y.d.windows
    ensures z.d.cancelled == y.d.cancelled && SameFor(y, z, k)
    ensures forall l :: l != k ==> SameFor(y0, z, l)
  {
    var pick := SystemAction(Pick(w, k), at);
    all := [pick] + steps + [Step(w, at)];
    z := Responded(c, p, y, w, k, at);
    hide SystemNext, SystemEnabled, SameFor, AllIdle;
    assert PathEnd(c, p, y0, all) == Some(z) by {
      EmptyPath(c, p, y0);
      PathStep(c, p, y0, [], y0, pick);
      assert [] + [pick] == [pick];
      hide PathEnd;
      PathJoin(c, p, y0, [pick], picked, steps, y);
      PathStep(c, p, y0, [pick] + steps, y, Step(w, at));
    }
    hide PathEnd;
    OnlyTouches(c, p, picked, steps, y, w, at, k + 1);
    assert AllIdle(z.d) by { RestAgain(y0, picked, y, z, w, k); }
    forall l | l != k ensures SameFor(y0, z, l) {
      OnlyTouches(c, p, picked, steps, y, w, at, l);
      SameThrough(y0, picked, y, z, k, l);
    }
    assert SameFor(y, z, k) by { SameThrough(y0, picked, y, z, k, k); }
    assert z.d.clients.Keys == y0.d.clients.Keys by { SameClients(y0, z, k); }
  }

  lemma ExitStep(c: Config, p: Params, y: System, k: ClientId, at: int) returns (z: System)
    requires LocksOk(y.d) && y.h.clock <= at && AllIdle(y.d) && k in y.d.clients
    ensures PathEnd(c, p, y, [SystemAction(Exit(k), at)]) == Some(z)
    ensures z == y.(d := y.d.(clients := y.d.clients[k := Exited])) && AllIdle(z.d)
    ensures forall l :: l != k ==> SameFor(y, z, l)
  {
    hide LocksOk, AllIdle, PathEnd, SystemEnabled, SystemNext;
    FreeClient(y.d, k);
    z := ExitTaken(c, p, y, k, at);
    IdleFrame(y.d, z.d);
  }

  lemma ExitTaken(c: Config, p: Params, y: System, k: ClientId, at: int) returns (z: System)
    requires y.h.clock <= at && k in y.d.clients && k !in y.d.owner
    ensures PathEnd(c, p, y, [SystemAction(Exit(k), at)]) == Some(z)
    ensures z == y.(d := y.d.(clients := y.d.clients[k := Exited]))
  {
    z := OneStep(c, p, y, SystemAction(Exit(k), at));
  }

  lemma OneStep(c: Config, p: Params, y: System, s: SystemAction) returns (z: System)
    requires SystemEnabled(y, s)
    ensures z == SystemNext(c, p, y, s) && PathEnd(c, p, y, [s]) == Some(z)
  {
    hide SystemNext, SystemEnabled;
    z := SystemNext(c, p, y, s);
    EmptyPath(c, p, y);
    PathStep(c, p, y, [], y, s);
    assert [] + [s] == [s];
  }

  lemma IdleFrame(s: State, s': State)
    requires AllIdle(s) && s'.workers == s.workers
    ensures AllIdle(s')
  {
  }

  lemma WindowStep(c: Config, p: Params, y: System, at: int) returns (z: System)
    requires y.h.clock <= at
    ensures PathEnd(c, p, y, [SystemAction(WindowEnd, at)]) == Some(z)
    ensures z == y.(d := y.d.(windows := Roll(y.d.windows))) && (AllIdle(y.d) ==> AllIdle(z.d))
  {
    z := OneStep(c, p, y, SystemAction(WindowEnd, at));
  }

  lemma SameClients(y0: System, z: System, k: ClientId)
    requires k in y0.d.clients && k in z.d.clients && forall l :: l != k ==> SameFor(y0, z, l)
    ensures z.d.clients.Keys == y0.d.clients.Keys
  {
    forall l ensures l in z.d.clients <==> l in y0.d.clients {
      if l != k {
        assert SameFor(y0, z, l);
      }
    }
  }

  lemma Responded(c: Config, p: Params, y: System, w: WorkerId, k: ClientId, at: int) returns (z: System)
    requires w in y.d.workers && y.d.workers[w] == DriverProtocol.Respond(k) && k in y.d.clients && y.h.clock <= at
    ensures SystemEnabled(y, Step(w, at)) && z == SystemNext(c, p, y, Step(w, at))
    ensures z == y.(d := y.d.(owner := y.d.owner - {k}, workers := y.d.workers[w := Idle]))
  {
    hide Observe;
    MoveQuiet(c, p, y, w, at);
    z := SystemNext(c, p, y, Step(w, at));
  }

  lemma RestAgain(y0: System, picked: System, y: System, z: System, w: WorkerId, k: ClientId)
    requires AllIdle(y0.d) && picked.d.workers == y0.d.workers[w := Dispatch(k)] && OthersSame(picked, y, w)
    requires z.d.workers == y.d.workers[w := Idle]
    ensures AllIdle(z.d)
  {
  }

  lemma SameThrough(y0: System, picked: System, y: System, z: System, k: ClientId, l: ClientId)
    requires picked.d.clients == y0.d.clients && picked.d.reached == y0.d.reached && picked.tickets == y0.tickets
    requires z.d.clients == y.d.clients && z.d.reached == y.d.reached && z.tickets == y.tickets
    requires l != k ==> SameFor(picked, y, l)
    ensures if l != k then SameFor(y0, z, l) else SameFor(y, z, k)
  {
  }

  lemma FreeClient(s: State, k: ClientId)
    requires LocksOk(s)
    ensures AllIdle(s) ==> k !in s.owner && s.stockOwner.None?
  {
    if k in s.owner {
      var w := s.owner[k];
      assert w in s.workers && !s.workers[w].Idle?;
    }
    if s.stockOwner.Some? {
      var w := s.stockOwner.value;
      assert w in s.workers && s.stockOwner == Some(w);
      assert HoldsStock(s.workers[w]);
    }
  }

  lemma RunNotEmpty(c: Config, p: Params, ys: seq<System>, acts: seq<SystemAction>)
    requires IsSystemRun(c, p, ys, acts)
    ensures ys != []
  {
  }

  // ---- the objects ----

  class SimulationDriver {
    const driver: CheckoutThrottleDriver
    const clients: map<ClientId, BaseClient>
    ghost const params: Params
    const low: real
    /** The run of the system so far. */
    ghost var past: seq<System>
    ghost var taken: seq<SystemAction>

    ghost function Now(): System
      requires past != []
      reads this
    {
      past[|past| - 1]
    }

    /** The objects are where the run has got to, and every worker is free. */
    ghost predicate Valid(now: int)
      reads this, driver, driver.tracker, driver.counter, driver.queue, driver.queue.store, clients.Values
    {
      && IsSystemRun(driver.config, params, past, taken) && OneAtATime(past, taken)
      && AllIdle(Now().d) && Now().h.clock <= now
      && driver.Shared(params, Now()) && driver.tracker.Valid(low)
      && Now().d.clients.Keys == clients.Keys
      && ClientsValid()
    }

    ghost predicate ClientsValid()
      requires past != []
      reads this, clients.Values
    {
      forall id :: id in clients ==> ClientValid(Now(), id)
    }

    ghost predicate ClientValid(y: System, id: ClientId)
      requires id in clients
      reads clients.Values
    {
      && clients[id].id == id && !clients[id].isLocked
      && CheckoutThrottleDriver.ClientMirrors(y.d.clients, y.d.reached, y.tickets, clients[id])
    }

    lemma NowHolds(now: int)
      requires Valid(now)
      ensures SystemInv(driver.config, params, Now()) && LocksOk(Now().d) && Now().d.stockOwner.None?
      ensures |Now().d.reached| <= params.stock
    {
      var n := |past| - 1;
      EverySystemState(driver.config, params, past, taken, n);
      SerialNeverOversells(driver.config, params, past, taken, n);
      hide IsSystemRun, OneAtATime, SystemInv;
      NobodyHoldsStock(driver.config, params, Now());
    }

    static lemma NobodyHoldsStock(c: Config, p: Params, y: System)
      requires SystemInv(c, p, y) && AllIdle(y.d)
      ensures y.d.stockOwner.None? && LocksOk(y.d)
    {
      hide StoreOk, HoldersOk;
      FreeClient(y.d, 0);
    }

    /** The clients that hit checkout. */
    ghost function Sold(): set<ClientId>
      reads clients.Values
    {
      set id | id in clients && clients[id].hitCheckoutStep
    }

    /** Whatever was called in whatever order, no more clients hit checkout than there was stock, and every client's
        cookie names its state. */
    lemma NeverOversold(now: int)
      requires Valid(now)
      ensures |Sold()| <= params.stock
      ensures forall id :: id in clients ==> CookieMirrors(clients[id].View())
    {
      NowHolds(now);
      forall id | id in clients ensures CookieMirrors(clients[id].View()) && (id in Sold() ==> id in Now().d.reached) {
        assert ClientValid(Now(), id);
      }
      hide IsSystemRun, OneAtATime, SystemInv;
      SubsetSize(Sold(), Now().d.reached);
    }

    /** The simulation has been cancelled exactly if some client hit checkout and no stock is left. */
    lemma CancelledIffSoldOut(now: int)
      requires Valid(now)
      ensures driver.cancelled <==> Sold() != {} && driver.counter.count <= 0
    {
      var n := |past| - 1;
      ClearedIsCancelled(driver.config, params, past, taken, n);
      ClearedIffSoldOut(driver.config, params, past, taken, n);
      EverySystemState(driver.config, params, past, taken, n);
      ReachedAreClients(driver.config, params, Now());
      hide IsSystemRun, OneAtATime, SystemInv;
      forall id ensures id in Sold() <==> id in Now().d.reached {
        if id in clients {
          assert ClientValid(Now(), id);
        }
      }
    }

    static lemma ReachedAreClients(c: Config, p: Params, y: System)
      requires SystemInv(c, p, y)
      ensures y.d.reached <= y.d.clients.Keys
    {
      hide StoreOk, HoldersOk, LocksOk, WorkersOk, StockOk, WindowsOk;
    }

    /** The run goes on along steps that take no further request. */
    ghost method Extend(steps: seq<SystemAction>, z: System)
      requires past != [] && IsSystemRun(driver.config, params, past, taken) && OneAtATime(past, taken)
      requires PathEnd(driver.config, params, Now(), steps) == Some(z)
      requires forall i :: 0 <= i < |steps| && steps[i].a.Pick? ==> i == 0 && AllIdle(Now().d)
      modifies this`past, this`taken
      ensures IsSystemRun(driver.config, params, past, taken) && OneAtATime(past, taken) && Now() == z
      ensures old(past) <= past && taken == old(taken) + steps
    {
      hide SystemNext, AllIdle;
      var longer := PathExtendsRun(driver.config, params, past, taken, steps, z);
      var actions := taken + steps;
      forall i | 0 <= i < |actions| && actions[i].a.Pick? ensures AllIdle(longer[i].d) {
        if i < |taken| {
          assert actions[i] == taken[i] && longer[i] == past[i];
        } else {
          assert actions[i] == steps[i - |taken|];
          assert longer[i] == past[|past| - 1];
        }
      }
      past, taken := longer, actions;
    }

    constructor (driver: CheckoutThrottleDriver, clients: map<ClientId, BaseClient>,
                 ghost params: Params, low: real, ghost start: System)
      requires SystemStart(params, start) && driver.Shared(params, start) && driver.tracker.Valid(low)
      requires start.d.clients.Keys == clients.Keys
      requires forall id :: id in clients ==>
        clients[id].id == id && !clients[id].isLocked && clients[id].View() == NEW_CLIENT
      ensures Valid(start.h.clock) && past == [start] && taken == []
      ensures this.driver == driver && this.clients == clients && this.params == params
    {
      this.driver, this.clients, this.params, this.low := driver, clients, params, low;
      past, taken := [start], [];
    }

    /** The driver's call under the client's lock. */
    method CallLocked(c: BaseClient, now: int, ghost picked: System, ghost w: WorkerId)
        returns (state: ThrottleState, changed: bool, ghost y: System, ghost steps: seq<SystemAction>)
      requires driver.Shared(params, picked) && driver.tracker.Valid(low) && SystemInv(driver.config, params, picked)
      requires !c.isLocked && c.id in picked.d.clients
      requires CheckoutThrottleDriver.ClientMirrors(picked.d.clients, picked.d.reached, picked.tickets, c)
      requires w in picked.d.workers && picked.d.workers[w] == Dispatch(c.id)
      requires picked.d.stockOwner.None? && picked.h.clock <= now
      modifies driver`cancelled, driver.tracker, driver.counter, driver.queue`totalPollsCount, driver.queue.store, c
      ensures driver.Shared(params, y) && driver.tracker.Valid(low) && y.d.stockOwner.None? && y.h.clock <= now
      ensures !c.isLocked && c.id in y.d.clients
      ensures CheckoutThrottleDriver.ClientMirrors(y.d.clients, y.d.reached, y.tickets, c)
      ensures w in y.d.workers && y.d.workers[w] == DriverProtocol.Respond(c.id)
      ensures PathEnd(driver.config, params, picked, steps) == Some(y)
      ensures CheckoutThrottleDriver.OnlyWork(steps, w, now)
      ensures state == c.state != Initial && (changed <==> state != old(c.state))
    {
      hide SystemInv, PathEnd, Observe;
      c.Lock();
      state, changed, y, steps := driver.TryThrottleStateTransition(c, now, low, params, picked, w);
      c.Unlock();
    }

    /** One round of a server worker: it locks the client, makes the driver's call, responds and unlocks. */
    method ServeRequest(id: ClientId, now: int, ghost w: WorkerId) returns (state: ThrottleState, changed: bool)
      requires Valid(now) && id in clients && w in Now().d.workers
      modifies this`past, this`taken, driver`cancelled, driver.tracker, driver.counter,
        driver.queue`totalPollsCount, driver.queue.store, clients[id]
      ensures Valid(now) && old(past) <= past && Now().d.workers.Keys == old(Now().d.workers.Keys)
      ensures state == clients[id].state != Initial && (changed <==> state != old(clients[id].state))
    {
      hide SystemInv, SystemNext, PathEnd, IsSystemRun, OneAtATime, Observe, AllIdle, OthersSame, SameFor,
        CheckoutThrottleDriver.ClientMirrors, CheckoutThrottleDriver.OnlyWork;
      RunNotEmpty(driver.config, params, past, taken);
      NowHolds(now);
      ghost var y0 := Now();
      assert ClientValid(y0, id);
      ghost var picked := PickStep(driver.config, params, y0, w, id, now);
      ghost var y, steps;
      state, changed, y, steps := CallLocked(clients[id], now, picked, w);
      ghost var all, z := Round(driver.config, params, y0, picked, steps, y, w, id, now);
      RoundTakesOne(id, w, now, steps, all);
      Extend(all, z);
      forall l | l in clients ensures ClientValid(z, l) {
        if l == id {
          ClientFrame(y, z, clients[id]);
        } else {
          assert old(ClientValid(y0, l)) && clients[l] != clients[id];
          ClientFrame(y0, z, clients[l]);
        }
      }
    }

    lemma RoundTakesOne(id: ClientId, w: WorkerId, now: int, steps: seq<SystemAction>, all: seq<SystemAction>)
      requires CheckoutThrottleDriver.OnlyWork(steps, w, now)
      requires all == [SystemAction(Pick(w, id), now)] + steps + [Step(w, now)]
      ensures forall i :: 0 <= i < |all| && all[i].a.Pick? ==> i == 0
    {
    }

    /** The server worker's loop over the requests it receives, each at its time. */
    method RunServerWorker(requests: seq<ClientId>, times: seq<int>, now: int, ghost w: WorkerId) returns (last: int)
      requires Valid(now) && w in Now().d.workers
      requires |times| == |requests| && forall i :: 0 <= i < |requests| ==> requests[i] in clients
      requires forall i, j :: 0 <= i <= j < |times| ==> now <= times[i] <= times[j]
      modifies this`past, this`taken, driver`cancelled, driver.tracker, driver.counter,
        driver.queue`totalPollsCount, driver.queue.store, clients.Values
      ensures Valid(last) && old(past) <= past && |Sold()| <= params.stock
    {
      last := now;
      for i := 0 to |requests|
        invariant Valid(last) && old(past) <= past && w in Now().d.workers
        invariant last <= if i < |times| then times[i] else last
      {
        last := times[i];
        hide IsSystemRun, OneAtATime, AllIdle, ClientsValid;
        var _, _ := ServeRequest(requests[i], last, w);
      }
      NeverOversold(last);
    }

    /** Nothing in the protocol but client c's state has changed, to that of a client that left. */
    static method ExitLocked(c: BaseClient, ghost y: System)
      requires !c.isLocked && CheckoutThrottleDriver.ClientMirrors(y.d.clients, y.d.reached, y.tickets, c)
      modifies c
      ensures !c.isLocked && c.state == Exited
      ensures CheckoutThrottleDriver.ClientMirrors(y.d.clients[c.id := Exited], y.d.reached, y.tickets, c)
    {
      c.Lock();
      var _ := c.MarkExited();
      c.Unlock();
    }

    /** A client leaves by itself, under its own lock. */
    method ClientExits(id: ClientId, now: int)
      requires Valid(now) && id in clients
      modifies this`past, this`taken, clients[id]
      ensures Valid(now) && old(past) <= past && clients[id].state == Exited
    {
      hide SystemInv, PathEnd, IsSystemRun, OneAtATime, AllIdle, SameFor, CheckoutThrottleDriver.ClientMirrors;
      RunNotEmpty(driver.config, params, past, taken);
      NowHolds(now);
      ghost var y0 := Now();
      ghost var z := ExitStep(driver.config, params, y0, id, now);
      assert ClientValid(y0, id);
      ExitLocked(clients[id], y0);
      Extend([SystemAction(Exit(id), now)], z);
      forall l | l in clients ensures ClientValid(z, l) {
        if l != id {
          assert old(ClientValid(y0, l)) && clients[l] != clients[id];
          ClientFrame(y0, z, clients[l]);
        }
      }
    }

    /** The tracker's window timer fires. */
    method EndWindow(maxSkipped: int, now: int) returns (f: Feedback)
      requires Valid(now) && driver.tracker.maxCheckoutsPerWindow >= 1
      modifies this`past, this`taken, driver.tracker
      ensures Valid(now) && old(past) <= past
    {
      hide SystemInv, PathEnd, IsSystemRun, OneAtATime, AllIdle, CheckoutThrottleDriver.ClientMirrors;
      RunNotEmpty(driver.config, params, past, taken);
      NowHolds(now);
      ghost var y0 := Now();
      ghost var z := WindowStep(driver.config, params, y0, now);
      f := driver.tracker.EndWindow(low, maxSkipped);
      Extend([SystemAction(WindowEnd, now)], z);
      forall l | l in clients ensures ClientValid(z, l) {
        assert old(ClientValid(y0, l));
      }
    }

    /** Clients 1, …, n, as the configuration numbers them. */
    static method MakeClients(n: nat) returns (clients: map<ClientId, BaseClient>)
      ensures forall id :: id in clients <==> 1 <= id <= n
      ensures forall id :: id in clients ==>
        fresh(clients[id]) && clients[id].id == id && !clients[id].isLocked && clients[id].View() == NEW_CLIENT
    {
      clients := map[];
      for k := 0 to n
        invariant forall id :: id in clients <==> 1 <= id <= k
        invariant forall id :: id in clients ==>
          fresh(clients[id]) && clients[id].id == id && !clients[id].isLocked && clients[id].View() == NEW_CLIENT
      {
        var c := new BaseClient(k + 1);
        clients := clients[k + 1 := c];
      }
    }

    /** All clients initial, all workers free, all stock there. */
    static ghost function StartOf(ids: set<ClientId>, workers: set<WorkerId>, stock: nat, now: int): System {
      System(
        State(map id | id in ids :: Initial, {}, {}, {}, map[], map w | w in workers :: Idle,
              stock, None, NO_WINDOWS, false),
        Start(now), map[], false, false)
    }

    static lemma StartIsReady(ids: set<ClientId>, workers: set<WorkerId>, stock: nat, max: nat, now: int)
      requires stock < 0x8000_0000
      ensures var y := StartOf(ids, workers, stock, now);
        SystemStart(Params(stock, max), y) && y.d.clients.Keys == ids && y.d.workers.Keys == workers
    {
    }

    /** A simulation of n clients, with all stock there and nobody served yet. */
    static method Make(config: Config, stock: nat, maxPerWindow: nat, low: real, n: nat, now: int,
                       ghost workers: set<WorkerId>)
        returns (simulation: SimulationDriver)
      requires stock < 0x8000_0000
      ensures simulation.Valid(now) && simulation.past == [simulation.Now()]
      ensures simulation.params == Params(stock, maxPerWindow) && simulation.Now().d.workers.Keys == workers
      ensures forall id :: id in simulation.clients <==> 1 <= id <= n
      ensures fresh(simulation) && fresh(simulation.driver) && fresh(simulation.driver.tracker)
      ensures fresh(simulation.driver.counter) && fresh(simulation.driver.queue) && fresh(simulation.driver.queue.store)
      ensures fresh(simulation.clients.Values)
    {
      hide SystemStart, CheckoutThrottleDriver.ClientMirrors, IsSystemRun, OneAtATime;
      var clients := MakeClients(n);
      var counter := new AtomicCounter(stock);
      var store := new ReadableStore();
      var queue := new LuaDrivenQueue(config, counter, store);
      var tracker := new FixedWindowTracker(maxPerWindow, low);
      var driver := new CheckoutThrottleDriver(queue, tracker);
      StartIsReady(clients.Keys, workers, stock, maxPerWindow, now);
      simulation := new SimulationDriver(
        driver, clients, Params(stock, maxPerWindow), low, StartOf(clients.Keys, workers, stock, now));
    }
  }
}

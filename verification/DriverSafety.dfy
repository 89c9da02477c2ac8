/** What holds in every run of the throttle driver, however its workers interleave. */
module DriverSafety {
  import opened Counting
  import opened Redis
  import opened Clients
  import opened WindowTracker
  import opened AtomicCounters
  import opened DriverProtocol

  /** Outside the critical section the clients in or past checkout and the counter add up to the initial stock; the
      counter never falls below -1; so at most one client more than there is stock reaches checkout, and no more than
      the tracker's windows let through. */
  lemma InventorySafety(p: Params, ss: seq<State>, acts: seq<Action>, n: nat)
    requires IsDriverRun(p, ss, acts) && n < |ss|
    ensures -1 <= ss[n].stock <= p.stock
    ensures ss[n].stockOwner.None? ==> |ss[n].reached| + ss[n].stock == p.stock
    ensures |ss[n].reached| <= p.stock + 1
    ensures |ss[n].reached| <= (ss[n].windows.cur + 1) * (p.maxPerWindow + 1)
  {
    EveryDriverState(p, ss, acts, n);
    if BetweenMarkAndCount(ss[n]) {
      EachPcOk(ss[n], ss[n].stockOwner.value);
    }
    PassedBound(ss[n].windows, p.maxPerWindow);
    SubsetSize(ss[n].reached, EverPassed(ss[n].windows));
  }

  /** The queue is asked to add each client at most once, and to remove it at most once, after it was added and
      reached checkout; no two workers ever hold the same client. */
  lemma QueueCallsPaired(p: Params, ss: seq<State>, acts: seq<Action>, n: nat, w: WorkerId, v: WorkerId)
    requires IsDriverRun(p, ss, acts) && n < |ss|
    requires w in ss[n].workers && v in ss[n].workers
    ensures var s := ss[n]; var pc := s.workers[w];
      && (pc.Enqueue? ==> pc.c !in s.enqueued)
      && (pc.Dequeue? ==> pc.c in s.enqueued && pc.c in s.reached && pc.c !in s.dequeued)
      && (w != v && !pc.Idle? && !s.workers[v].Idle? ==> pc.c != s.workers[v].c)
  {
    EveryDriverState(p, ss, acts, n);
    assert PcOk(ss[n], ss[n].workers[w]);
  }

  lemma WorkRank(p: Params, s: State, w: WorkerId, candidate: bool)
    requires Enabled(s, Work(w, candidate)) && PcOk(s, s.workers[w])
    ensures var c := s.workers[w].c; var s' := WorkStep(p, s, w, candidate);
      c in s'.clients && s.clients[c].Rank() <= s'.clients[c].Rank()
  {
    hide Observe, EverPassed, Wrap32;
  }

  lemma StepsForward(p: Params, s: State, a: Action, c: ClientId)
    requires Enabled(s, a) && DriverInv(p, s) && c in s.clients
    ensures var s' := Next(p, s, a);
      && c in s'.clients && s.clients[c].Rank() <= s'.clients[c].Rank()
      && s.reached <= s'.reached && s.enqueued <= s'.enqueued && s.dequeued <= s'.dequeued
      && s'.stock <= s.stock
  {
    hide WorkStep, PcOk, EverPassed, WindowsOk, WorkersOk;
    if a.Work? {
      EachPcOk(s, a.w);
      WorkRank(p, s, a.w, a.candidate);
      WorkFrame(p, s, a.w, a.candidate);
      WorkSets(p, s, a.w, a.candidate);
      WorkTakes(p, s, a.w, a.candidate);
    }
  }

  lemma EachPcOk(s: State, w: WorkerId)
    requires LocksOk(s) && WorkersOk(s) && w in s.workers
    ensures PcOk(s, s.workers[w])
  {
  }

  /** No client's state ever moves back, whoever reached checkout, was added or was removed stays so, and stock is
      never put back. */
  lemma {:induction false} OnlyForward(p: Params, ss: seq<State>, acts: seq<Action>, m: nat, n: nat, c: ClientId)
    requires IsDriverRun(p, ss, acts) && m <= n < |ss| && c in ss[m].clients
    ensures c in ss[n].clients && ss[m].clients[c].Rank() <= ss[n].clients[c].Rank()
    ensures ss[m].reached <= ss[n].reached && ss[m].enqueued <= ss[n].enqueued && ss[m].dequeued <= ss[n].dequeued
    ensures ss[n].stock <= ss[m].stock
    decreases n
  {
    hide Next, DriverInv;
    if m < n {
      OnlyForward(p, ss, acts, m, n - 1, c);
      EveryDriverState(p, ss, acts, n - 1);
      assert Steps(p, ss[n - 1], acts[n - 1], ss[n]);
      StepsForward(p, ss[n - 1], acts[n - 1], c);
    }
  }

  // ---- every call ends ----

  /** How many steps worker w takes at most until it is free again. */
  function StepsLeft(s: State, w: WorkerId): nat
    requires w in s.workers
  {
    match s.workers[w]
    case Idle => 0
    case Respond(_) => 1
    case GiveUp(_) => 2
    case ClearQueue(_) => 2
    case Dequeue(_, _) => 3
    case ReleaseStock(_, _) => 4
    case TakeStock(_) => 5
    case MarkCheckout(_) => 6
    case ReadStock(_) => 7
    case AwaitStock(_) => 8
    case AskTracker(_) => 9
    case AskQueue(_) => 10
    case Enqueue(_) => 12
    case Dispatch(c) => if c in s.clients && s.clients[c].Initial? then 13 else 11
  }

  lemma WorkGoesOn(p: Params, s: State, w: WorkerId, candidate: bool)
    requires Enabled(s, Work(w, candidate)) && PcOk(s, s.workers[w])
    ensures var s' := WorkStep(p, s, w, candidate); w in s'.workers && StepsLeft(s', w) < StepsLeft(s, w)
  {
    hide Observe, EverPassed, Wrap32;
  }

  lemma OthersWait(p: Params, s: State, a: Action, w: WorkerId)
    requires Enabled(s, a) && DriverInv(p, s) && w in s.workers
    requires !(a.Work? && a.w == w) && !(a.Pick? && a.w == w)
    ensures w in Next(p, s, a).workers && StepsLeft(Next(p, s, a), w) == StepsLeft(s, w)
  {
    hide WorkStep, WorkersOk, ClientsOk, StockOk, WindowsOk;
    if a.Work? {
      WorkShape(p, s, a.w, a.candidate);
      WorkFrame(p, s, a.w, a.candidate);
    }
  }

  /** The steps worker w takes among the actions m, …, n-1. */
  function WorkSteps(acts: seq<Action>, m: nat, n: nat, w: WorkerId): nat
    requires m <= n <= |acts|
  {
    if m == n then 0 else WorkSteps(acts, m, n - 1, w) + if acts[n - 1].Work? && acts[n - 1].w == w then 1 else 0
  }

  /** Every call ends: however the others interleave, a worker is free again after at most 13 steps of its own. */
  lemma {:induction false} CallsEnd(p: Params, ss: seq<State>, acts: seq<Action>, m: nat, n: nat, w: WorkerId)
    requires IsDriverRun(p, ss, acts) && m <= n < |ss| && w in ss[m].workers
    requires forall i :: m <= i < n ==> !(acts[i].Pick? && acts[i].w == w)
    ensures w in ss[n].workers && StepsLeft(ss[n], w) + WorkSteps(acts, m, n, w) <= StepsLeft(ss[m], w) <= 13
    ensures WorkSteps(acts, m, n, w) == 13 ==> ss[n].workers[w].Idle?
    decreases n
  {
    hide DriverInv, Next, StepsLeft;
    StepsAtMost(ss[m], w);
    if m < n {
      CallsEnd(p, ss, acts, m, n - 1, w);
      EveryDriverState(p, ss, acts, n - 1);
      var a := acts[n - 1];
      assert Steps(p, ss[n - 1], a, ss[n]);
      hide IsDriverRun;
      if a.Work? && a.w == w {
        StepGoesOn(p, ss[n - 1], w, a.candidate);
      } else {
        OthersWait(p, ss[n - 1], a, w);
      }
      StepsAtMost(ss[n], w);
    }
  }

  lemma StepsAtMost(s: State, w: WorkerId)
    requires w in s.workers
    ensures StepsLeft(s, w) <= 13 && (StepsLeft(s, w) == 0 ==> s.workers[w].Idle?)
  {
  }

  lemma StepGoesOn(p: Params, s: State, w: WorkerId, candidate: bool)
    requires Enabled(s, Work(w, candidate)) && DriverInv(p, s)
    ensures var s' := Next(p, s, Work(w, candidate)); w in s'.workers && StepsLeft(s', w) < StepsLeft(s, w)
  {
    EachPcOk(s, w);
    hide WorkStep, PcOk, StepsLeft;
    WorkGoesOn(p, s, w, candidate);
  }

  // ---- when the queue is cleared and the run cancelled ----

  /** A worker on its way from taking the last stock to clearing the queue. */
  predicate WillClear(pc: Pc) {
    match pc
    case TakeStock(_) => true
    case ReleaseStock(_, rem) => rem <= 0
    case Dequeue(_, rem) => rem <= 0
    case ClearQueue(_) => true
    case _ => false
  }

  /** The run is cancelled only once stock was sold and none is left, and then it is, or some worker is about to. */
  ghost predicate SoldOutOk(s: State) {
    && (s.cancelled ==> s.stock <= 0 && s.reached != {})
    && (s.stock <= 0 && s.reached != {} && !s.cancelled ==> exists w :: w in s.workers && WillClear(s.workers[w]))
  }

  lemma WorkClears(p: Params, s: State, w: WorkerId, candidate: bool)
    requires Enabled(s, Work(w, candidate)) && -0x8000_0000 < s.stock < 0x8000_0000
    ensures var s' := WorkStep(p, s, w, candidate); var pc := s.workers[w];
      && w in s'.workers
      && (WillClear(pc) && s'.stock <= 0 ==> s'.cancelled || WillClear(s'.workers[w]))
      && (s'.reached != s.reached ==> WillClear(s'.workers[w]))
      && (s'.stock != s.stock ==> WillClear(pc))
  {
    Wrap32Small(s.stock - 1);
    hide Observe, Wrap32;
  }

  lemma WorkCancels(p: Params, s: State, w: WorkerId, candidate: bool)
    requires Enabled(s, Work(w, candidate)) && PcOk(s, s.workers[w]) && s.dequeued <= s.reached
    ensures var s' := WorkStep(p, s, w, candidate);
      && (s.cancelled ==> s'.cancelled)
      && (s'.cancelled && !s.cancelled ==> s.stock <= 0 && s.reached != {})
  {
    var s' := WorkStep(p, s, w, candidate);
    assert s'.cancelled == (s.cancelled || s.workers[w].ClearQueue?) by { hide Observe, Wrap32, PcOk; }
    hide WorkStep;
  }

  lemma StepSoldOut(p: Params, s: State, a: Action)
    requires Enabled(s, a) && DriverInv(p, s) && SoldOutOk(s)
    ensures SoldOutOk(Next(p, s, a))
  {
    hide WorkStep, PcOk, WillClear, EverPassed, WindowsOk;
    var s' := Next(p, s, a);
    if a.Work? {
      EachPcOk(s, a.w);
      WorkClears(p, s, a.w, a.candidate);
      WorkCancels(p, s, a.w, a.candidate);
      WorkShape(p, s, a.w, a.candidate);
      WorkSets(p, s, a.w, a.candidate);
      WorkTakes(p, s, a.w, a.candidate);
    } else if a.Pick? {
      IdleWontClear(s.workers[a.w]);
    }
    WitnessKept(s, s', a);
  }

  lemma IdleWontClear(pc: Pc)
    ensures pc.Idle? ==> !WillClear(pc)
  {
  }

  /** Whoever is on its way to clear the queue goes on until it has. */
  lemma WitnessKept(s: State, s': State, a: Action)
    requires SoldOutOk(s) && s'.stock <= s.stock && s.reached <= s'.reached
    requires forall v :: v in s.workers && !(a.Work? && v == a.w) && WillClear(s.workers[v]) ==>
      v in s'.workers && s'.workers[v] == s.workers[v]
    requires if a.Work? then
        && a.w in s.workers && a.w in s'.workers
        && (WillClear(s.workers[a.w]) && s'.stock <= 0 ==> s'.cancelled || WillClear(s'.workers[a.w]))
        && (s'.reached != s.reached ==> WillClear(s'.workers[a.w]))
        && (s'.stock != s.stock ==> WillClear(s.workers[a.w]))
        && (s.cancelled ==> s'.cancelled)
        && (s'.cancelled && !s.cancelled ==> s.stock <= 0 && s.reached != {})
      else s'.stock == s.stock && s'.reached == s.reached && s'.cancelled == s.cancelled
    ensures SoldOutOk(s')
  {
    hide WillClear;
    if s'.stock <= 0 && s'.reached != {} && !s'.cancelled {
      if a.Work? && (WillClear(s.workers[a.w]) || s'.reached != s.reached) {
        assert WillClear(s'.workers[a.w]);
      } else {
        var w :| w in s.workers && WillClear(s.workers[w]);
        assert WillClear(s'.workers[w]);
      }
    }
  }

  lemma {:induction false} EverySoldOutOk(p: Params, ss: seq<State>, acts: seq<Action>, n: nat)
    requires IsDriverRun(p, ss, acts) && n < |ss|
    ensures SoldOutOk(ss[n])
  {
    hide DriverInv, Next;
    if n > 0 {
      EverySoldOutOk(p, ss, acts, n - 1);
      EveryDriverState(p, ss, acts, n - 1);
      assert Steps(p, ss[n - 1], acts[n - 1], ss[n]);
      hide IsDriverRun, SoldOutOk;
      StepSoldOut(p, ss[n - 1], acts[n - 1]);
    }
  }

  /** In every interleaving: whenever all workers are free, the queue has been cleared and the run cancelled exactly if
      somebody reached checkout and no stock is left; and never earlier than that. */
  lemma CancelledIffSoldOut(p: Params, ss: seq<State>, acts: seq<Action>, n: nat)
    requires IsDriverRun(p, ss, acts) && n < |ss|
    ensures ss[n].cancelled ==> ss[n].reached != {} && ss[n].stock <= 0
    ensures AllIdle(ss[n]) ==> (ss[n].cancelled <==> ss[n].reached != {} && ss[n].stock <= 0)
  {
    EverySoldOutOk(p, ss, acts, n);
    IdleIffSoldOut(ss[n]);
  }

  lemma IdleIffSoldOut(s: State)
    requires SoldOutOk(s)
    ensures AllIdle(s) ==> (s.cancelled <==> s.reached != {} && s.stock <= 0)
  {
    if s.stock <= 0 && s.reached != {} && !s.cancelled {
      var w :| w in s.workers && WillClear(s.workers[w]);
      assert !s.workers[w].Idle?;
    }
  }

  // ---- when the stock is kept ----

  ghost predicate KeepsStock(p: Params, ss: seq<State>) {
    forall n :: 0 <= n < |ss| ==> |ss[n].reached| <= p.stock
  }

  ghost predicate Starts(p: Params, s0: State, ss: seq<State>, acts: seq<Action>) {
    IsDriverRun(p, ss, acts) && ss[0] == s0
  }

  /** A run that starts at s0 and has got to s. */
  ghost predicate RunFrom(p: Params, s0: State, ss: seq<State>, acts: seq<Action>, s: State) {
    Starts(p, s0, ss, acts) && ss[|acts|] == s
  }

  /** One more action after a run. */
  lemma Append(p: Params, s0: State, ss: seq<State>, acts: seq<Action>, s: State, a: Action)
      returns (ss': seq<State>, acts': seq<Action>, s': State)
    requires RunFrom(p, s0, ss, acts, s) && Enabled(s, a)
    ensures RunFrom(p, s0, ss', acts', s') && s' == Next(p, s, a)
  {
    hide Next, Enabled;
    s' := Next(p, s, a);
    ss', acts' := ss + [s'], acts + [a];
    forall i, j | 0 <= i < |acts'| && j == i + 1 ensures Steps(p, ss'[i], acts'[i], ss'[j]) {
      if j < |ss| {
        assert Steps(p, ss[i], acts[i], ss[j]);
      } else {
        assert acts'[i] == a;
      }
    }
  }

  /** What matters of a state in which worker w serves alone. */
  predicate Serving(s: State, w: WorkerId, pc: Pc, owner: map<ClientId, WorkerId>, stockOwner: Option<WorkerId>) {
    w in s.workers && s.workers[w] == pc && s.owner == owner && s.stockOwner == stockOwner
  }

  /** In a fresh window a client that has not come yet is queued and asks the tracker. */
  lemma ServeQueued(p: Params, s0: State, ss: seq<State>, acts: seq<Action>, s: State, w: WorkerId, c: ClientId)
      returns (ss': seq<State>, acts': seq<Action>, s': State)
    requires RunFrom(p, s0, ss, acts, s)
    requires Serving(s, w, Idle, map[], None) && c in s.clients && s.clients[c] == Initial
    ensures RunFrom(p, s0, ss', acts', s') && Serving(s', w, AskTracker(c), map[c := w], None)
    ensures s'.windows == Roll(s.windows)
    ensures s'.clients == s.clients[c := Queued] && s'.reached == s.reached && s'.stock == s.stock
  {
    hide RunFrom, Observe, Wrap32;
    ss', acts', s' := Append(p, s0, ss, acts, s, WindowEnd);
    ss', acts', s' := Append(p, s0, ss', acts', s', Pick(w, c));
    ss', acts', s' := Append(p, s0, ss', acts', s', Work(w, true));
    ss', acts', s' := Append(p, s0, ss', acts', s', Work(w, true));
    ss', acts', s' := Append(p, s0, ss', acts', s', Work(w, true));
    ss', acts', s' := Append(p, s0, ss', acts', s', Work(w, true));
  }

  lemma ServeAdmitted(p: Params, s0: State, ss: seq<State>, acts: seq<Action>, s: State, w: WorkerId, c: ClientId)
      returns (ss': seq<State>, acts': seq<Action>, s': State)
    requires RunFrom(p, s0, ss, acts, s) && c in s.clients
    requires Serving(s, w, AskTracker(c), map[c := w], None) && Observe(s.windows, p.maxPerWindow, c).1
    ensures RunFrom(p, s0, ss', acts', s') && Serving(s', w, AwaitStock(c), map[c := w], None)
    ensures s'.clients == s.clients && s'.reached == s.reached && s'.stock == s.stock
  {
    hide RunFrom, Observe, Wrap32;
    ss', acts', s' := Append(p, s0, ss, acts, s, Work(w, true));
  }

  lemma FreshWindowPasses(t: Windows, max: nat, c: ClientId)
    requires WindowsOk(t, max)
    ensures Observe(Roll(t), max, c).1
  {
    assert WindowOk(t, max, t.cur + 1);
  }

  lemma ServeMarked(p: Params, s0: State, ss: seq<State>, acts: seq<Action>, s: State, w: WorkerId, c: ClientId)
      returns (ss': seq<State>, acts': seq<Action>, s': State)
    requires RunFrom(p, s0, ss, acts, s)
    requires Serving(s, w, AwaitStock(c), map[c := w], None) && c in s.clients && s.stock >= 0
    ensures RunFrom(p, s0, ss', acts', s') && Serving(s', w, TakeStock(c), map[c := w], Some(w))
    ensures s'.clients == s.clients[c := InCheckout] && s'.reached == s.reached + {c} && s'.stock == s.stock
  {
    hide RunFrom, Observe, Wrap32;
    ss', acts', s' := Append(p, s0, ss, acts, s, Work(w, true));
    ss', acts', s' := Append(p, s0, ss', acts', s', Work(w, true));
    ss', acts', s' := Append(p, s0, ss', acts', s', Work(w, true));
  }

  lemma ServeTaken(p: Params, s0: State, ss: seq<State>, acts: seq<Action>, s: State, w: WorkerId, c: ClientId)
      returns (ss': seq<State>, acts': seq<Action>, s': State)
    requires RunFrom(p, s0, ss, acts, s)
    requires Serving(s, w, TakeStock(c), map[c := w], Some(w)) && c in s.clients && 0 <= s.stock < 0x8000_0000
    ensures RunFrom(p, s0, ss', acts', s') && Serving(s', w, Dequeue(c, s'.stock), map[c := w], None)
    ensures s'.clients == s.clients && s'.reached == s.reached && s'.stock == s.stock - 1
  {
    Wrap32Small(s.stock - 1);
    hide RunFrom, Observe, Wrap32;
    ss', acts', s' := Append(p, s0, ss, acts, s, Work(w, true));
    ss', acts', s' := Append(p, s0, ss', acts', s', Work(w, true));
  }

  lemma ServeReleased(p: Params, s0: State, ss: seq<State>, acts: seq<Action>, s: State, w: WorkerId, c: ClientId)
      returns (ss': seq<State>, acts': seq<Action>, s': State)
    requires RunFrom(p, s0, ss, acts, s)
    requires Serving(s, w, Dequeue(c, s.stock), map[c := w], None) && c in s.clients
    ensures RunFrom(p, s0, ss', acts', s') && Serving(s', w, Idle, map[], None)
    ensures s'.clients == s.clients && s'.reached == s.reached && s'.stock == s.stock
  {
    hide RunFrom, Observe, Wrap32;
    ss', acts', s' := Append(p, s0, ss, acts, s, Work(w, true));
    if s'.workers[w].ClearQueue? {
      ss', acts', s' := Append(p, s0, ss', acts', s', Work(w, true));
    }
    ss', acts', s' := Append(p, s0, ss', acts', s', Work(w, true));
    assert map[c := w] - {c} == map[];
  }

  lemma Serve(p: Params, s0: State, ss: seq<State>, acts: seq<Action>, s: State, w: WorkerId, c: ClientId)
      returns (ss': seq<State>, acts': seq<Action>, s': State)
    requires RunFrom(p, s0, ss, acts, s) && WindowsOk(s.windows, p.maxPerWindow)
    requires Serving(s, w, Idle, map[], None) && c in s.clients && s.clients[c] == Initial
    requires 0 <= s.stock < 0x8000_0000
    ensures RunFrom(p, s0, ss', acts', s') && Serving(s', w, Idle, map[], None)
    ensures s'.clients == s.clients[c := InCheckout] && s'.reached == s.reached + {c} && s'.stock == s.stock - 1
  {
    FreshWindowPasses(s.windows, p.maxPerWindow, c);
    hide Next, WindowsOk, Observe, RunFrom, Serving;
    ss', acts', s' := ServeQueued(p, s0, ss, acts, s, w, c);
    ss', acts', s' := ServeAdmitted(p, s0, ss', acts', s', w, c);
    ss', acts', s' := ServeMarked(p, s0, ss', acts', s', w, c);
    ss', acts', s' := ServeTaken(p, s0, ss', acts', s', w, c);
    ss', acts', s' := ServeReleased(p, s0, ss', acts', s', w, c);
  }

  /** A client yet to come, if fewer reached checkout than there are. */
  lemma NextClient(clients: map<ClientId, ThrottleState>, reached: set<ClientId>) returns (c: ClientId)
    requires reached <= clients.Keys && |reached| < |clients|
    ensures c in clients && c !in reached
  {
    assert |clients| == |clients.Keys|;
    var rest := clients.Keys - reached;
    assert clients.Keys == reached + rest;
    c := AnyOf(rest);
  }

  /** k clients served one after the other. */
  lemma {:induction false} ServeMany(p: Params, s0: State, w: WorkerId, k: nat)
      returns (ss: seq<State>, acts: seq<Action>, s: State)
    requires Ready(p, s0) && w in s0.workers && k <= p.stock + 1 && k <= |s0.clients|
    ensures RunFrom(p, s0, ss, acts, s) && Serving(s, w, Idle, map[], None)
    ensures s.stock == p.stock - k && |s.reached| == k
    ensures s.reached <= s.clients.Keys == s0.clients.Keys
    ensures forall c :: c in s.clients && c !in s.reached ==> s.clients[c] == Initial
  {
    hide Next, EverPassed, WindowsOk, WorkersOk, LocksOk;
    if k == 0 {
      ss, acts, s := [s0], [], s0;
    } else {
      ss, acts, s := ServeMany(p, s0, w, k - 1);
      EveryDriverState(p, ss, acts, |acts|);
      assert |s.clients.Keys| == |s.clients| && |s0.clients.Keys| == |s0.clients|;
      var c := NextClient(s.clients, s.reached);
      ss, acts, s := Serve(p, s0, ss, acts, s, w, c);
    }
  }

  lemma {:induction false} ReachedAmongClients(p: Params, ss: seq<State>, acts: seq<Action>, n: nat)
    requires IsDriverRun(p, ss, acts) && n < |ss|
    ensures ss[n].reached <= ss[n].clients.Keys == ss[0].clients.Keys
    ensures ss[n].workers.Keys == ss[0].workers.Keys && (ss[0].workers == map[] ==> ss[n].reached == {})
  {
    hide WorkStep, LocksOk, WorkersOk, StockOk, WindowsOk, EverPassed;
    EveryDriverState(p, ss, acts, n);
    if n > 0 {
      ReachedAmongClients(p, ss, acts, n - 1);
      var a := acts[n - 1];
      assert Steps(p, ss[n - 1], a, ss[n]);
      if a.Work? {
        WorkShape(p, ss[n - 1], a.w, a.candidate);
        WorkKeys(p, ss[n - 1], a.w, a.candidate);
      }
    }
  }

  /** Stock is refused only below zero, so in every run from a given start no more clients reach checkout than there
      is stock exactly if there are no more clients than stock, or no worker to serve them. */
  lemma StockKeptIff(p: Params, s0: State)
    requires Ready(p, s0)
    ensures |s0.clients| <= p.stock || s0.workers == map[] <==>
      forall ss, acts :: Starts(p, s0, ss, acts) ==> KeepsStock(p, ss)
  {
    hide Ready, Steps;
    assert |s0.clients| == |s0.clients.Keys|;
    if |s0.clients| <= p.stock || s0.workers == map[] {
      forall ss: seq<State>, acts | Starts(p, s0, ss, acts) ensures KeepsStock(p, ss) {
        forall n | 0 <= n < |ss| ensures |ss[n].reached| <= p.stock {
          ReachedAmongClients(p, ss, acts, n);
          SubsetSize(ss[n].reached, s0.clients.Keys);
        }
      }
    } else {
      var w := AnyOf(s0.workers.Keys);
      var ss, acts, s := ServeMany(p, s0, w, p.stock + 1);
      assert ss[|acts|].reached == s.reached;
    }
  }
}

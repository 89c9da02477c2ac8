/** Any number of server workers run the throttle driver at once. Each call is cut into the steps that other workers
    can come between; per-client locks and the inventory lock are explicit. The queue's answers are arbitrary. */
module DriverProtocol {
  import opened Redis
  import opened Clients
  import opened WindowTracker
  import opened AtomicCounters

  type WorkerId = int

  /** What a worker does next for the client it holds. */
  datatype Pc =
    | Idle
    | Dispatch(c: ClientId)
    | Enqueue(c: ClientId)
    | AskQueue(c: ClientId)
    | AskTracker(c: ClientId)
    | AwaitStock(c: ClientId)
    | ReadStock(c: ClientId)
    | GiveUp(c: ClientId)
    | MarkCheckout(c: ClientId)
    | TakeStock(c: ClientId)
    | ReleaseStock(c: ClientId, rem: int)
    | Dequeue(c: ClientId, rem: int)
    | ClearQueue(c: ClientId)
    | Respond(c: ClientId)

  datatype Params = Params(stock: nat, maxPerWindow: nat)

  /** `reached` are the clients that hit checkout; `enqueued` and `dequeued` those handed to the queue's Add and
      Remove. */
  datatype State = State(
    clients: map<ClientId, ThrottleState>, reached: set<ClientId>, enqueued: set<ClientId>, dequeued: set<ClientId>,
    owner: map<ClientId, WorkerId>, workers: map<WorkerId, Pc>,
    stock: int, stockOwner: Option<WorkerId>, windows: Windows, cancelled: bool)

  /** A free worker takes a request; a worker takes its next step, `candidate` being the queue's answer if it asks;
      a client leaves by itself under its own lock; the tracker's window ends. */
  datatype Action = Pick(w: WorkerId, c: ClientId) | Work(w: WorkerId, candidate: bool) | Exit(c: ClientId) | WindowEnd

  predicate Enabled(s: State, a: Action) {
    match a
    case Pick(w, c) => w in s.workers && s.workers[w].Idle? && c in s.clients && c !in s.owner
    case Work(w, _) => w in s.workers && !s.workers[w].Idle? && (s.workers[w].AwaitStock? ==> s.stockOwner.None?)
                       && s.workers[w].c in s.clients
    case Exit(c) => c in s.clients && c !in s.owner
    case WindowEnd => true
  }

  function Goto(s: State, w: WorkerId, pc: Pc): State {
    s.(workers := s.workers[w := pc])
  }

  /** What a worker's step does to the rest of the state, and where the worker goes next. */
  function WorkEffect(p: Params, s: State, w: WorkerId, candidate: bool): (State, Pc)
    requires Enabled(s, Work(w, candidate))
  {
    var c := s.workers[w].c;
    match s.workers[w]
    case Dispatch(_) => (
      match s.clients[c]
      case Initial => (s.(clients := s.clients[c := Queued]), Enqueue(c))
      case Queued => (s, AskQueue(c))
      case InCheckout => (s, Respond(c))
      case Exited => (s, Respond(c)))
    case Enqueue(_) => (s.(enqueued := s.enqueued + {c}), Dispatch(c))
    case AskQueue(_) => (s, if candidate then AskTracker(c) else Respond(c))
    case AskTracker(_) =>
      var (windows, ok) := Observe(s.windows, p.maxPerWindow, c);
      (s.(windows := windows), if ok then AwaitStock(c) else Respond(c))
    case AwaitStock(_) => (s.(stockOwner := Some(w)), ReadStock(c))
    case ReadStock(_) => (s, if s.stock < 0 then GiveUp(c) else MarkCheckout(c))
    case GiveUp(_) => (s.(stockOwner := None), Respond(c))
    case MarkCheckout(_) => (s.(clients := s.clients[c := InCheckout], reached := s.reached + {c}), TakeStock(c))
    case TakeStock(_) => (s.(stock := Wrap32(s.stock - 1)), ReleaseStock(c, Wrap32(s.stock - 1)))
    case ReleaseStock(_, rem) => (s.(stockOwner := None), Dequeue(c, rem))
    case Dequeue(_, rem) => (s.(dequeued := s.dequeued + {c}), if rem <= 0 then ClearQueue(c) else Respond(c))
    case ClearQueue(_) => (s.(cancelled := true), Respond(c))
    case Respond(_) => (s.(owner := s.owner - {c}), Idle)
  }

  function WorkStep(p: Params, s: State, w: WorkerId, candidate: bool): State
    requires Enabled(s, Work(w, candidate))
  {
    var (s', pc) := WorkEffect(p, s, w, candidate);
    Goto(s', w, pc)
  }

  function Next(p: Params, s: State, a: Action): State
    requires Enabled(s, a)
  {
    match a
    case Pick(w, c) => Goto(s.(owner := s.owner[c := w]), w, Dispatch(c))
    case Work(w, candidate) => WorkStep(p, s, w, candidate)
    case Exit(c) => s.(clients := s.clients[c := Exited])
    case WindowEnd => s.(windows := Roll(s.windows))
  }

  /** Before the first request: everyone is initial, every worker idle, all stock there. */
  ghost predicate Ready(p: Params, s: State) {
    && (forall c :: c in s.clients ==> s.clients[c] == Initial)
    && (forall w :: w in s.workers ==> s.workers[w] == Idle)
    && s.reached == {} && s.enqueued == {} && s.dequeued == {} && s.owner == map[]
    && s.stock == p.stock < 0x8000_0000 && s.stockOwner == None && s.windows == NO_WINDOWS && !s.cancelled
  }

  ghost predicate AllIdle(s: State) {
    forall w :: w in s.workers ==> s.workers[w].Idle?
  }

  predicate Steps(p: Params, s: State, a: Action, s': State) {
    Enabled(s, a) && s' == Next(p, s, a)
  }

  ghost predicate IsDriverRun(p: Params, ss: seq<State>, acts: seq<Action>) {
    && |ss| == |acts| + 1
    && Ready(p, ss[0])
    && forall i, j :: 0 <= i < |acts| && j == i + 1 ==> Steps(p, ss[i], acts[i], ss[j])
  }

  // ---- what every step keeps ----

  predicate HoldsStock(pc: Pc) {
    pc.ReadStock? || pc.GiveUp? || pc.MarkCheckout? || pc.TakeStock? || pc.ReleaseStock?
  }

  /** A busy worker holds exactly the client it works for, and the inventory lock exactly in its critical section. */
  ghost predicate LocksOk(s: State) {
    && (forall w :: w in s.workers && !s.workers[w].Idle? ==>
          && s.workers[w].c in s.clients
          && s.workers[w].c in s.owner && s.owner[s.workers[w].c] == w)
    && (forall c :: c in s.owner ==>
          && s.owner[c] in s.workers
          && !s.workers[s.owner[c]].Idle? && s.workers[s.owner[c]].c == c)
    && (forall w :: w in s.workers ==> (HoldsStock(s.workers[w]) <==> s.stockOwner == Some(w)))
    && (s.stockOwner.Some? ==> s.stockOwner.value in s.workers)
  }

  /** What a worker at pc relies on about its client. */
  ghost predicate PcOk(s: State, pc: Pc)
    requires !pc.Idle? ==> pc.c in s.clients
  {
    match pc
    case Enqueue(c) => s.clients[c] == Queued && c !in s.enqueued && c !in s.reached
    case AskQueue(c) => s.clients[c] == Queued && c in s.enqueued
    case AskTracker(c) => s.clients[c] == Queued && c in s.enqueued
    case AwaitStock(c) => s.clients[c] == Queued && c in s.enqueued && c in EverPassed(s.windows)
    case ReadStock(c) => s.clients[c] == Queued && c in s.enqueued && c in EverPassed(s.windows)
    case GiveUp(c) => s.clients[c] == Queued && c in s.enqueued
    case MarkCheckout(c) => s.clients[c] == Queued && c in s.enqueued && c in EverPassed(s.windows) && s.stock >= 0
    case TakeStock(c) => s.clients[c] == InCheckout && c in s.reached && c !in s.dequeued && s.stock >= 0
    case ReleaseStock(c, rem) => s.clients[c] == InCheckout && c in s.reached && c !in s.dequeued && rem == s.stock
    case Dequeue(c, rem) => s.clients[c] == InCheckout && c in s.reached && c !in s.dequeued && s.stock <= rem
    case ClearQueue(c) => c in s.dequeued && s.stock <= 0
    case _ => true
  }

  ghost predicate WorkersOk(s: State)
    requires LocksOk(s)
  {
    forall w :: w in s.workers ==> PcOk(s, s.workers[w])
  }

  /** A client counts as reached once in checkout; it was queued first and passed the tracker; whoever is queued but
      not yet handed to the queue is about to be. */
  ghost predicate ClientsOk(s: State) {
    && s.dequeued <= s.reached <= s.enqueued <= s.clients.Keys
    && s.reached <= EverPassed(s.windows)
    && (forall c :: c in s.enqueued ==> s.clients[c] != Initial)
    && (forall c :: c in s.reached ==> s.clients[c] in {InCheckout, Exited})
    && (forall c :: c in s.clients && s.clients[c] == InCheckout ==> c in s.reached)
    && (forall c :: c in s.clients && s.clients[c] == Queued && c !in s.enqueued ==>
          c in s.owner && s.owner[c] in s.workers && s.workers[s.owner[c]] == Enqueue(c))
  }

  /** A client has been marked, but not yet counted off the stock. */
  predicate BetweenMarkAndCount(s: State) {
    s.stockOwner.Some? && s.stockOwner.value in s.workers && s.workers[s.stockOwner.value].TakeStock?
  }

  predicate StockOk(p: Params, s: State) {
    && -1 <= s.stock <= p.stock < 0x8000_0000
    && |s.reached| + s.stock == p.stock + if BetweenMarkAndCount(s) then 1 else 0
  }

  ghost predicate DriverInv(p: Params, s: State) {
    LocksOk(s) && WorkersOk(s) && ClientsOk(s) && StockOk(p, s) && WindowsOk(s.windows, p.maxPerWindow)
  }

  lemma WindowsGrow(p: Params, s: State, a: Action)
    requires Enabled(s, a) && WindowsOk(s.windows, p.maxPerWindow)
    ensures WindowsOk(Next(p, s, a).windows, p.maxPerWindow)
    ensures EverPassed(s.windows) <= EverPassed(Next(p, s, a).windows)
  {
    hide Observe, EverPassed, WindowsOk;
    match a
    case Work(w, _) =>
      if s.workers[w].AskTracker? {
        ObserveKeeps(s.windows, p.maxPerWindow, s.workers[w].c);
      }
    case WindowEnd => RollKeeps(s.windows, p.maxPerWindow);
    case _ =>
  }

  /** A step changes one worker, which keeps its client until it responds. */
  lemma WorkShape(p: Params, s: State, w: WorkerId, candidate: bool)
    requires Enabled(s, Work(w, candidate))
    ensures var s' := WorkStep(p, s, w, candidate); var pc := s.workers[w];
      && w in s'.workers && s'.workers == s.workers[w := s'.workers[w]]
      && (if pc.Respond? then s'.workers[w].Idle? && s'.owner == s.owner - {pc.c}
          else !s'.workers[w].Idle? && s'.workers[w].c == pc.c && s'.owner == s.owner)
  {
    hide Observe, Wrap32, HoldsStock;
    assert WorkEffect(p, s, w, candidate).0.workers == s.workers;
  }

  lemma WorkKeys(p: Params, s: State, w: WorkerId, candidate: bool)
    requires Enabled(s, Work(w, candidate))
    ensures WorkStep(p, s, w, candidate).clients.Keys == s.clients.Keys
  {
    hide Observe, Wrap32;
  }

  /** A step touches the inventory lock only as the worker's own critical section begins and ends. */
  lemma WorkStockLock(p: Params, s: State, w: WorkerId, candidate: bool)
    requires Enabled(s, Work(w, candidate))
    requires HoldsStock(s.workers[w]) <==> s.stockOwner == Some(w)
    ensures var s' := WorkStep(p, s, w, candidate);
      && w in s'.workers
      && (HoldsStock(s'.workers[w]) <==> s'.stockOwner == Some(w))
      && (s'.stockOwner == s.stockOwner || (s.stockOwner in {None, Some(w)} && s'.stockOwner in {None, Some(w)}))
  {
    hide Observe, Wrap32;
  }

  lemma NextLocks(p: Params, s: State, a: Action)
    requires Enabled(s, a) && LocksOk(s)
    ensures LocksOk(Next(p, s, a))
  {
    hide WorkStep, HoldsStock;
    if a.Work? {
      WorkShape(p, s, a.w, a.candidate);
      WorkKeys(p, s, a.w, a.candidate);
      WorkStockLock(p, s, a.w, a.candidate);
    } else if a.Pick? {
      assert !HoldsStock(Dispatch(a.c)) && !HoldsStock(s.workers[a.w]) by { IdleHoldsNothing(a.c); }
    }
  }

  lemma IdleHoldsNothing(c: ClientId)
    ensures !HoldsStock(Dispatch(c)) && !HoldsStock(Idle)
  {
  }

  /** What one worker relies on survives a step in which its client, and the stock while it holds the lock, stay put. */
  lemma PcFrame(s: State, s': State, pc: Pc)
    requires !pc.Idle? ==> pc.c in s.clients && pc.c in s'.clients && s.clients[pc.c] == s'.clients[pc.c]
    requires !pc.Idle? ==> (pc.c in s.enqueued <==> pc.c in s'.enqueued)
    requires !pc.Idle? ==> (pc.c in s.reached <==> pc.c in s'.reached)
    requires !pc.Idle? ==> (pc.c in s.dequeued <==> pc.c in s'.dequeued)
    requires EverPassed(s.windows) <= EverPassed(s'.windows)
    requires s'.stock <= s.stock && (HoldsStock(pc) ==> s'.stock == s.stock)
    requires PcOk(s, pc)
    ensures PcOk(s', pc)
  {
    hide EverPassed;
  }

  /** A working step leaves every other client as it was. */
  lemma WorkFrame(p: Params, s: State, w: WorkerId, candidate: bool)
    requires Enabled(s, Work(w, candidate))
    ensures var s' := WorkStep(p, s, w, candidate); var c := s.workers[w].c;
      && c in s'.clients && s'.clients == s.clients[c := s'.clients[c]]
  {
    hide Observe, Wrap32;
  }

  lemma WorkSets(p: Params, s: State, w: WorkerId, candidate: bool)
    requires Enabled(s, Work(w, candidate))
    ensures var s' := WorkStep(p, s, w, candidate); var c := s.workers[w].c;
      && s.enqueued <= s'.enqueued <= s.enqueued + {c}
      && s.reached <= s'.reached <= s.reached + {c}
      && s.dequeued <= s'.dequeued <= s.dequeued + {c}
  {
    hide Observe, Wrap32;
  }

  lemma WorkTakes(p: Params, s: State, w: WorkerId, candidate: bool)
    requires Enabled(s, Work(w, candidate)) && PcOk(s, s.workers[w]) && s.stock < 0x8000_0000
    ensures WorkStep(p, s, w, candidate).stock == s.stock - if s.workers[w].TakeStock? then 1 else 0
  {
    hide Observe, EverPassed, Wrap32;
    if s.workers[w].TakeStock? {
      Wrap32Small(s.stock - 1);
    }
  }

  lemma Wrap32Small(x: int)
    requires -0x8000_0000 <= x < 0x8000_0000
    ensures Wrap32(x) == x
  {
  }

  lemma OwnPc(p: Params, s: State, w: WorkerId, candidate: bool)
    requires Enabled(s, Work(w, candidate)) && PcOk(s, s.workers[w])
    requires WindowsOk(s.windows, p.maxPerWindow)
    requires var c := s.workers[w].c;
      && (c in s.enqueued ==> s.clients[c] != Initial)
      && (c in s.dequeued ==> c in s.reached) && (c in s.reached ==> c in s.enqueued && s.clients[c] != Queued)
      && (s.clients[c] == Queued && c !in s.enqueued ==> s.workers[w] == Enqueue(c))
    ensures var s' := WorkStep(p, s, w, candidate);
      && w in s'.workers && (!s'.workers[w].Idle? ==> s'.workers[w].c in s'.clients) && PcOk(s', s'.workers[w])
  {
    hide Observe, EverPassed, WindowsOk, Wrap32;
    if s.workers[w].AskTracker? {
      ObserveKeeps(s.windows, p.maxPerWindow, s.workers[w].c);
    }
  }

  lemma NextWorkers(p: Params, s: State, a: Action)
    requires Enabled(s, a) && DriverInv(p, s)
    ensures LocksOk(Next(p, s, a)) && WorkersOk(Next(p, s, a))
  {
    hide EverPassed, WindowsOk, WorkStep, PcOk, HoldsStock;
    NextLocks(p, s, a);
    WindowsGrow(p, s, a);
    var s' := Next(p, s, a);
    if a.Work? {
      WorkShape(p, s, a.w, a.candidate);
      WorkKeys(p, s, a.w, a.candidate);
      assert PcOk(s, s.workers[a.w]);
      WorkFrame(p, s, a.w, a.candidate);
      WorkSets(p, s, a.w, a.candidate);
      WorkTakes(p, s, a.w, a.candidate);
      TakingHoldsLock(s.workers[a.w]);
      OwnPc(p, s, a.w, a.candidate);
    }
    forall w | w in s'.workers ensures PcOk(s', s'.workers[w]) {
      if a.Pick? && w == a.w {
        assert PcOk(s', Dispatch(a.c)) by { DispatchOk(s', a.c); }
      } else if !(a.Work? && w == a.w) {
        assert PcOk(s, s.workers[w]);
        PcFrame(s, s', s.workers[w]);
      }
    }
  }

  lemma TakingHoldsLock(pc: Pc)
    ensures pc.TakeStock? ==> HoldsStock(pc)
  {
  }

  lemma DispatchOk(s: State, c: ClientId)
    requires c in s.clients
    ensures PcOk(s, Dispatch(c))
  {
  }

  lemma NextClients(p: Params, s: State, a: Action)
    requires Enabled(s, a) && DriverInv(p, s)
    ensures ClientsOk(Next(p, s, a))
  {
    hide Observe, EverPassed, WindowsOk, Wrap32;
    WindowsGrow(p, s, a);
    if a.Work? {
      WorkClients(p, s, a.w, a.candidate);
    }
  }

  lemma WorkClients(p: Params, s: State, w: WorkerId, candidate: bool)
    requires Enabled(s, Work(w, candidate)) && DriverInv(p, s)
    ensures ClientsOk(WorkStep(p, s, w, candidate))
  {
    hide EverPassed, WindowsOk, Observe, Wrap32, StockOk;
    WindowsGrow(p, s, Work(w, candidate));
    var c := s.workers[w].c;
    assert PcOk(s, s.workers[w]);
    assert c in s.owner && s.owner[c] == w;
  }

  lemma WorkReaches(p: Params, s: State, w: WorkerId, candidate: bool)
    requires Enabled(s, Work(w, candidate)) && PcOk(s, s.workers[w])
    ensures var s' := WorkStep(p, s, w, candidate);
      && s'.reached == s.reached + (if s.workers[w].MarkCheckout? then {s.workers[w].c} else {})
      && w in s'.workers && (s'.workers[w].TakeStock? <==> s.workers[w].MarkCheckout?)
      && (s.workers[w].MarkCheckout? ==> s'.stockOwner == s.stockOwner)
      && (s.workers[w].TakeStock? ==> s.stock >= 0)
  {
    hide Observe, EverPassed, Wrap32;
  }

  lemma NextStock(p: Params, s: State, a: Action)
    requires Enabled(s, a) && DriverInv(p, s)
    ensures StockOk(p, Next(p, s, a))
  {
    hide WorkStep, EverPassed, WindowsOk, PcOk;
    if a.Work? {
      assert PcOk(s, s.workers[a.w]);
      WorkShape(p, s, a.w, a.candidate);
      WorkStockLock(p, s, a.w, a.candidate);
      WorkTakes(p, s, a.w, a.candidate);
      WorkReaches(p, s, a.w, a.candidate);
      if s.workers[a.w].MarkCheckout? {
        assert s.workers[a.w].c !in s.reached by { MarksOnce(s, a.w); }
      }
    }
  }

  lemma MarksOnce(s: State, w: WorkerId)
    requires w in s.workers && s.workers[w].MarkCheckout? && s.workers[w].c in s.clients
    requires PcOk(s, s.workers[w]) && ClientsOk(s)
    ensures s.workers[w].c !in s.reached
  {
  }

  lemma {:induction false} NextKeeps(p: Params, s: State, a: Action)
    requires Enabled(s, a) && DriverInv(p, s)
    ensures DriverInv(p, Next(p, s, a))
  {
    hide Next, LocksOk, WorkersOk, ClientsOk, StockOk, WindowsOk;
    NextLocks(p, s, a);
    NextWorkers(p, s, a);
    NextClients(p, s, a);
    NextStock(p, s, a);
    WindowsGrow(p, s, a);
  }

  lemma ReadyInv(p: Params, s: State)
    requires Ready(p, s)
    ensures DriverInv(p, s)
  {
  }

  lemma {:induction false} EveryDriverState(p: Params, ss: seq<State>, acts: seq<Action>, n: nat)
    requires IsDriverRun(p, ss, acts) && n < |ss|
    ensures DriverInv(p, ss[n])
  {
    hide DriverInv, Next;
    if n == 0 {
      ReadyInv(p, ss[0]);
    } else {
      EveryDriverState(p, ss, acts, n - 1);
      assert Steps(p, ss[n - 1], acts[n - 1], ss[n]);
      NextKeeps(p, ss[n - 1], acts[n - 1]);
    }
  }
}

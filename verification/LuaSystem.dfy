/** The driver's workers in front of the Redis-backed queue: the protocol with the scripts run for real.
    Each call of the queue holds the inventory lock while it reads the counter and runs its script. */
module LuaSystem {
  import opened Counting
  import opened Redis
  import opened Clients
  import opened WindowTracker
  import opened DriverProtocol
  import opened DriverSafety
  import opened FairnessInterval
  import opened OptFairnessInterval
  import opened Lockstep
  import opened FairnessRuns

  /** What the add script leaves in the client's cookie, and the client's number in order of arrival. */
  datatype Ticket = Ticket(bin: int, slot: nat)

  /** `failed` records a script error, which the queue turns into a panic. */
  datatype System = System(d: State, h: History, tickets: map<ClientId, Ticket>, cleared: bool, failed: bool)

  datatype SystemAction = SystemAction(a: Action, at: int)

  predicate CallsQueue(pc: Pc) {
    pc.Enqueue? || pc.AskQueue? || pc.Dequeue? || pc.ClearQueue?
  }

  predicate SystemEnabled(y: System, s: SystemAction) {
    && Enabled(y.d, s.a)
    && y.h.clock <= s.at
    && (s.a.Work? && CallsQueue(y.d.workers[s.a.w]) ==> y.d.stockOwner.None?)
  }

  /** The queue's answer to a worker's step; false when it is not asked. */
  function Answer(c: Config, y: System, pc: Pc, at: int): bool {
    && pc.AskQueue?
    && y.d.stock > 0
    && pc.c in y.tickets
    && PollStep(y.h.keys, c, at, y.tickets[pc.c].bin).1 == Passed
  }

  /** Add, poll and remove are skipped once the counter is too low; a client without a ticket gives the script no
      bin to work with; clear deletes every key. */
  function QueueStep(c: Config, y: System, pc: Pc, at: int): System {
    match pc
    case Enqueue(k) =>
      if y.d.stock <= 0 then y else
        var h := Apply(c, y.h, AddEvent(at), at, {});
        var reply := AddStep(y.h.keys, c, at).1;
        if reply.Added? then y.(h := h, tickets := y.tickets[k := Ticket(reply.bin, |y.h.log|)])
        else y.(h := h, failed := true)
    case AskQueue(k) =>
      if y.d.stock <= 0 then y
      else if k !in y.tickets then y.(h := Apply(c, y.h, PollEvent(at, 0), at, {}), failed := true)
      else
        var h := Apply(c, y.h, PollEvent(at, y.tickets[k].bin), at, {});
        y.(h := h, failed := y.failed || PollStep(y.h.keys, c, at, y.tickets[k].bin).1 == Failed)
    case Dequeue(k, _) =>
      if y.d.stock <= -1 then y
      else if k !in y.tickets then y.(failed := true)
      else y.(h := Apply(c, y.h, RemoveEvent(y.tickets[k].bin), at, {y.tickets[k].slot}))
    case ClearQueue(_) => y.(h := Start(at), cleared := true)
    case _ => y
  }

  /** The driver's action, with the queue's answer filled in. */
  function DriverAction(c: Config, y: System, s: SystemAction): Action
    requires SystemEnabled(y, s)
  {
    if s.a.Work? then Work(s.a.w, Answer(c, y, y.d.workers[s.a.w], s.at)) else s.a
  }

  function SystemNext(c: Config, p: Params, y: System, s: SystemAction): System
    requires SystemEnabled(y, s)
  {
    (if s.a.Work? then QueueStep(c, y, y.d.workers[s.a.w], s.at) else y).(d := Next(p, y.d, DriverAction(c, y, s)))
  }

  predicate SystemSteps(c: Config, p: Params, y: System, s: SystemAction, y': System) {
    SystemEnabled(y, s) && y' == SystemNext(c, p, y, s)
  }

  ghost predicate SystemStart(p: Params, y: System) {
    Ready(p, y.d) && y.h == Start(y.h.clock) && y.tickets == map[] && !y.cleared && !y.failed
  }

  ghost predicate IsSystemRun(c: Config, p: Params, ys: seq<System>, acts: seq<SystemAction>) {
    && |ys| == |acts| + 1
    && SystemStart(p, ys[0])
    && forall i, j :: 0 <= i < |acts| && j == i + 1 ==> SystemSteps(c, p, ys[i], acts[i], ys[j])
  }

  // ---- what every step keeps ----

  /** The clients holding a ticket of bin b that the queue was not asked to remove. */
  function Holders(tickets: map<ClientId, Ticket>, dequeued: set<ClientId>, b: int): set<ClientId> {
    set k | k in tickets && k !in dequeued && tickets[k].bin == b
  }

  /** Tickets match the log one to one, and only clients asked to be removed are gone. */
  ghost predicate TicketsOk(y: System) {
    && (forall k :: k in y.tickets ==>
          && y.tickets[k].slot < |y.h.log| && y.h.log[y.tickets[k].slot].bin == y.tickets[k].bin
          && (y.tickets[k].slot in y.h.gone ==> k in y.d.dequeued))
    && (forall k, l :: k in y.tickets && l in y.tickets && k != l ==> y.tickets[k].slot != y.tickets[l].slot)
  }

  /** The counts as the driver sees them. */
  ghost predicate CountsOk(y: System) {
    && (forall b :: Lookup(y.h.keys.counts, b).GetOr(0) == |Holders(y.tickets, y.d.dequeued, b)|)
    && y.h.keys.total.GetOr(0) == |y.tickets| - |y.d.dequeued|
  }

  /** A worker past the queue's answer serves a client with a ticket. */
  predicate PastQueue(pc: Pc) {
    !(pc.Idle? || pc.Dispatch? || pc.Enqueue? || pc.AskQueue? || pc.Respond? || pc.ClearQueue?)
  }

  ghost predicate HoldersOk(y: System) {
    && y.tickets.Keys <= y.d.enqueued
    && (y.d.stock > 0 ==> y.d.enqueued <= y.tickets.Keys)
    && y.d.reached <= y.tickets.Keys
    && (forall w :: w in y.d.workers && PastQueue(y.d.workers[w]) ==> y.d.workers[w].c in y.tickets)
  }

  /** A store that was emptied and is only taken from since. */
  ghost predicate Emptied(k: Keys) {
    Unopened(k) && k.total.GetOr(0) <= 0 && forall b :: Lookup(k.counts, b).GetOr(0) <= 0
  }

  ghost predicate SumsOk(k: Keys) {
    k.total.GetOr(0) == SumOf(k.counts)
  }

  ghost predicate StoreOk(c: Config, y: System) {
    && !y.failed
    && SumsOk(y.h.keys)
    && (y.cleared ==> y.d.stock <= 0 && Emptied(y.h.keys))
    && (!y.cleared ==> Inv(c, y.h) && TicketsOk(y) && (y.d.stock >= 0 ==> CountsOk(y)))
  }

  ghost predicate SystemInv(c: Config, p: Params, y: System) {
    DriverInv(p, y.d) && HoldersOk(y) && StoreOk(c, y)
  }

  /** A step that does not call the queue changes nothing the queue knows. */
  lemma QuietKeeps(c: Config, p: Params, y: System, s: SystemAction)
    requires SystemInv(c, p, y) && SystemEnabled(y, s)
    requires s.a.Work? ==> !CallsQueue(y.d.workers[s.a.w])
    ensures var y' := SystemNext(c, p, y, s);
      && y' == y.(d := y'.d) && y'.d.stock <= y.d.stock
      && y'.d.dequeued == y.d.dequeued && y'.d.enqueued == y.d.enqueued
  {
    hide Observe, EverPassed, WindowsOk, Inv;
    if s.a.Work? {
      EachPcOk(y.d, s.a.w);
      WorkTakes(p, y.d, s.a.w, false);
    }
  }

  /** Where a step can lead: past the queue only on its answer, and to the sets of clients only from their own step. */
  lemma WorkLeads(p: Params, s: State, w: WorkerId, candidate: bool)
    requires Enabled(s, Work(w, candidate))
    ensures var s' := WorkStep(p, s, w, candidate); var pc := s.workers[w];
      && w in s'.workers
      && s'.enqueued == s.enqueued + (if pc.Enqueue? then {pc.c} else {})
      && s'.reached == s.reached + (if pc.MarkCheckout? then {pc.c} else {})
      && (PastQueue(s'.workers[w]) ==>
            s'.workers[w].c == pc.c && (PastQueue(pc) || (pc.AskQueue? && candidate)))
  {
    hide Observe;
  }

  lemma TicketsAfter(c: Config, y: System, pc: Pc, at: int)
    requires !y.failed && !QueueStep(c, y, pc, at).failed
    ensures QueueStep(c, y, pc, at).tickets.Keys
         == y.tickets.Keys + if pc.Enqueue? && y.d.stock > 0 then {pc.c} else {}
  {
    hide Apply, AddStep, PollStep;
  }

  /** The driver's side of a worker's step that goes on past the queue only if it answered yes. */
  predicate Leads(d: State, d': State, w: WorkerId, answer: bool) {
    && w in d.workers && w in d'.workers && d'.workers == d.workers[w := d'.workers[w]]
    && var (pc, pc') := (d.workers[w], d'.workers[w]);
      && d'.stock <= d.stock
      && (if pc.Enqueue? then d'.enqueued == d.enqueued + {pc.c} else d'.enqueued == d.enqueued)
      && (d'.reached == d.reached || (PastQueue(pc) && d'.reached == d.reached + {pc.c}))
      && (PastQueue(pc') ==> (PastQueue(pc) || (pc.AskQueue? && answer)) && pc'.c == pc.c)
  }

  lemma LeadsOn(p: Params, s: State, w: WorkerId, candidate: bool)
    requires Enabled(s, Work(w, candidate)) && DriverInv(p, s)
    ensures Leads(s, WorkStep(p, s, w, candidate), w, candidate)
  {
    hide WorkStep, EverPassed, WindowsOk, PcOk, PastQueue, LocksOk, WorkersOk, ClientsOk;
    EachPcOk(s, w);
    WorkShape(p, s, w, candidate);
    WorkLeads(p, s, w, candidate);
    WorkTakes(p, s, w, candidate);
    MarkingIsPast(s.workers[w]);
  }

  /** One worker's step, seen from the tickets. */
  lemma HoldersFrame(y: System, y': System, w: WorkerId, answer: bool)
    requires HoldersOk(y) && Leads(y.d, y'.d, w, answer)
    requires answer ==> y.d.workers[w].AskQueue? && y.d.workers[w].c in y.tickets
    requires y'.tickets.Keys
          == y.tickets.Keys + if y.d.workers[w].Enqueue? && y.d.stock > 0 then {y.d.workers[w].c} else {}
    ensures HoldersOk(y')
  {
    hide PastQueue;
  }

  lemma NextHolders(c: Config, p: Params, y: System, s: SystemAction)
    requires DriverInv(p, y.d) && HoldersOk(y) && SystemEnabled(y, s) && !y.failed && !SystemNext(c, p, y, s).failed
    ensures HoldersOk(SystemNext(c, p, y, s))
  {
    hide WorkStep, DriverInv, HoldersOk, PollStep, QueueStep, PastQueue, Leads;
    if s.a.Work? {
      var w := s.a.w;
      var answer := Answer(c, y, y.d.workers[w], s.at);
      LeadsOn(p, y.d, w, answer);
      TicketsAfter(c, y, y.d.workers[w], s.at);
      CallIsQueueStep(c, p, y, s);
      HoldersFrame(y, SystemNext(c, p, y, s), w, answer);
    } else {
      OthersKeepHolders(c, p, y, s);
    }
  }

  lemma OthersKeepHolders(c: Config, p: Params, y: System, s: SystemAction)
    requires HoldersOk(y) && SystemEnabled(y, s) && !s.a.Work?
    ensures HoldersOk(SystemNext(c, p, y, s))
  {
    hide PastQueue;
    if s.a.Pick? {
      MarkingIsPast(Dispatch(s.a.c));
    }
  }

  lemma MarkingIsPast(pc: Pc)
    ensures pc.MarkCheckout? ==> PastQueue(pc)
    ensures pc.Dispatch? ==> !PastQueue(pc)
  {
  }

  lemma HoldersGain(tickets: map<ClientId, Ticket>, dequeued: set<ClientId>, k: ClientId, t: Ticket, b: int)
    requires k !in tickets && k !in dequeued
    ensures |Holders(tickets[k := t], dequeued, b)| == |Holders(tickets, dequeued, b)| + if t.bin == b then 1 else 0
  {
    assert Holders(tickets[k := t], dequeued, b) == Holders(tickets, dequeued, b) + if t.bin == b then {k} else {};
  }

  lemma HoldersLose(tickets: map<ClientId, Ticket>, dequeued: set<ClientId>, k: ClientId, b: int)
    requires k in tickets && k !in dequeued
    ensures |Holders(tickets, dequeued + {k}, b)|
         == |Holders(tickets, dequeued, b)| - if tickets[k].bin == b then 1 else 0
  {
    assert Holders(tickets, dequeued + {k}, b) == Holders(tickets, dequeued, b) - {k};
  }

  /** An add of a well-formed history is a join: it succeeds, and appends one stamp. */
  lemma JoinIsApply(c: Config, h: History, at: int)
    requires h.clock <= at && Inv(c, h)
    ensures var h' := Apply(c, h, AddEvent(at), at, {}); var reply := AddStep(h.keys, c, at).1;
      && Inv(c, h') && reply.Added?
      && h'.log == h.log + [Stamp(reply.bin, at)] && h'.gone == h.gone
      && h'.keys.counts == Bump(h.keys.counts, reply.bin, 1) && h'.keys.total == Some(h.keys.total.GetOr(0) + 1)
    ensures forall g :: g in h.gone ==> g < |h.log|
  {
    hide HoldMs, Waiting, Stamped, Paced, WellFormed;
    DoKeeps(c, h, Join(at));
    assert Do(c, h, Join(at)) == Apply(c, h, AddEvent(at), at, {});
  }

  /** What the queue is called with: a new client, one with a ticket, one not removed yet, or no stock left. */
  ghost predicate CallOk(y: System, pc: Pc) {
    match pc
    case Enqueue(k) => k !in y.tickets && k !in y.d.dequeued
    case AskQueue(k) => y.d.stock > 0 ==> k in y.tickets
    case Dequeue(k, _) => k in y.tickets && k !in y.d.dequeued
    case ClearQueue(_) => y.d.stock <= 0
    case _ => false
  }

  /** The driver's side of a call: only Dequeue adds to the clients to remove, and no call takes stock. */
  predicate CallFrame(d: State, d': State, pc: Pc) {
    d'.stock == d.stock && d'.dequeued == d.dequeued + if pc.Dequeue? then {pc.c} else {}
  }

  lemma EnqueueSums(k: Keys, c: Config, at: int)
    requires SumsOk(k)
    ensures SumsOk(AddStep(k, c, at).0)
  {
    var opens := !Live(k.addTimer, at);
    var latest := if opens then Some(k.latest.GetOr(0) + 1) else k.latest;
    if latest.Some? {
      SumOfBump(k.counts, latest.value, 1);
    }
  }

  lemma RemoveSums(k: Keys, bin: int)
    requires SumsOk(k)
    ensures SumsOk(RemoveStep(k, bin).0)
    ensures Emptied(k) ==> Emptied(RemoveStep(k, bin).0)
  {
    SumOfBump(k.counts, bin, -1);
    if Emptied(k) {
      var k' := RemoveStep(k, bin).0;
      forall b ensures Lookup(k'.counts, b).GetOr(0) <= 0 {
        assert Lookup(k.counts, b).GetOr(0) <= 0;
        assert Lookup(k.counts, bin).GetOr(0) <= 0;
      }
    }
  }

  lemma EnqueueTickets(c: Config, y: System, k: ClientId, at: int, d': State)
    requires Inv(c, y.h) && TicketsOk(y) && y.h.clock <= at
    requires k !in y.tickets && y.d.stock > 0 && CallFrame(y.d, d', Enqueue(k))
    ensures var y' := QueueStep(c, y, Enqueue(k), at).(d := d');
      Inv(c, y'.h) && TicketsOk(y') && y'.failed == y.failed && y'.cleared == y.cleared
  {
    hide Inv, Apply, AddStep;
    JoinIsApply(c, y.h, at);
    var y' := QueueStep(c, y, Enqueue(k), at).(d := d');
    assert forall l :: l in y.tickets ==> y'.h.log[y.tickets[l].slot] == y.h.log[y.tickets[l].slot];
  }

  lemma EnqueueCounts(c: Config, y: System, k: ClientId, at: int, d': State)
    requires Inv(c, y.h) && CountsOk(y) && y.h.clock <= at
    requires k !in y.tickets && k !in y.d.dequeued && y.d.stock > 0 && CallFrame(y.d, d', Enqueue(k))
    ensures CountsOk(QueueStep(c, y, Enqueue(k), at).(d := d'))
  {
    hide Inv, Apply, AddStep, Holders;
    JoinIsApply(c, y.h, at);
    var y' := QueueStep(c, y, Enqueue(k), at).(d := d');
    forall b ensures Lookup(y'.h.keys.counts, b).GetOr(0) == |Holders(y'.tickets, y'.d.dequeued, b)| {
      HoldersGain(y.tickets, y.d.dequeued, k, y'.tickets[k], b);
      assert Lookup(y.h.keys.counts, b).GetOr(0) == |Holders(y.tickets, y.d.dequeued, b)|;
    }
    assert y'.tickets.Keys == y.tickets.Keys + {k};
    assert |y'.tickets| == |y'.tickets.Keys| && |y.tickets| == |y.tickets.Keys|;
  }

  lemma EnqueueKeeps(c: Config, y: System, k: ClientId, at: int, d': State)
    requires StoreOk(c, y) && y.h.clock <= at && CallOk(y, Enqueue(k)) && CallFrame(y.d, d', Enqueue(k))
    ensures StoreOk(c, QueueStep(c, y, Enqueue(k), at).(d := d'))
  {
    hide Inv, TicketsOk, CountsOk, Emptied, SumsOk;
    var y' := QueueStep(c, y, Enqueue(k), at).(d := d');
    if y.d.stock > 0 {
      hide CallFrame;
      EnqueueTickets(c, y, k, at, d');
      EnqueueCounts(c, y, k, at, d');
      EnqueueSums(y.h.keys, c, at);
      assert y'.h.keys == AddStep(y.h.keys, c, at).0 by { hide AddStep; }
    } else {
      TicketsFrame(y, y');
      CountsFrame(y, y');
    }
  }

  /** A ticket holder's poll is a poll of the history, so it does not fail and changes no ticket or count. */
  lemma AskKeeps(c: Config, y: System, k: ClientId, at: int, d': State)
    requires StoreOk(c, y) && y.h.clock <= at && CallOk(y, AskQueue(k)) && CallFrame(y.d, d', AskQueue(k))
    ensures StoreOk(c, QueueStep(c, y, AskQueue(k), at).(d := d'))
  {
    hide Do, Inv, TicketsOk, Apply, Emptied, CountsOk, SumsOk;
    var y' := QueueStep(c, y, AskQueue(k), at).(d := d');
    if y.d.stock > 0 {
      TicketIsStamp(y, k);
      DoKeeps(c, y.h, Ask(at, y.tickets[k].slot));
      AskIsApply(c, y.h, at, y.tickets[k].slot);
      assert SumsOk(y'.h.keys) by { SumsFrame(y.h.keys, y'.h.keys); }
    }
    TicketsFrame(y, y');
    CountsFrame(y, y');
  }

  lemma SumsFrame(k: Keys, k': Keys)
    requires SumsOk(k) && k'.counts == k.counts && k'.total == k.total
    ensures SumsOk(k')
  {
  }

  lemma TicketIsStamp(y: System, k: ClientId)
    requires TicketsOk(y) && k in y.tickets
    ensures y.tickets[k].slot < |y.h.log| && y.h.log[y.tickets[k].slot].bin == y.tickets[k].bin
    ensures k !in y.d.dequeued ==> y.tickets[k].slot !in y.h.gone
  {
  }

  lemma TicketsFrame(y: System, y': System)
    requires y'.tickets == y.tickets && y'.h.log == y.h.log && y'.h.gone == y.h.gone && y'.d.dequeued == y.d.dequeued
    ensures TicketsOk(y) ==> TicketsOk(y')
  {
  }

  lemma CountsFrame(y: System, y': System)
    requires y'.tickets == y.tickets && y'.d.dequeued == y.d.dequeued
    requires y'.h.keys.counts == y.h.keys.counts && y'.h.keys.total == y.h.keys.total
    ensures CountsOk(y) ==> CountsOk(y')
  {
    hide Holders;
  }

  lemma AskIsApply(c: Config, h: History, at: int, slot: nat)
    requires h.clock <= at && slot < |h.log|
    ensures var h' := Apply(c, h, PollEvent(at, h.log[slot].bin), at, {});
      && Do(c, h, Ask(at, slot)) == h'
      && Reaction(c, h, Ask(at, slot)) == PollStep(h.keys, c, at, h.log[slot].bin).1
      && h'.log == h.log && h'.gone == h.gone
      && h'.keys.counts == h.keys.counts && h'.keys.total == h.keys.total
  {
    hide HoldMs, Waiting;
  }

  /** Removing a client that reached checkout is a leave of the history. */
  lemma DequeueTickets(c: Config, y: System, k: ClientId, rem: int, at: int, d': State)
    requires Inv(c, y.h) && TicketsOk(y) && y.h.clock <= at && y.d.stock >= 0
    requires k in y.tickets && k !in y.d.dequeued && CallFrame(y.d, d', Dequeue(k, rem))
    ensures var y' := QueueStep(c, y, Dequeue(k, rem), at).(d := d');
      Inv(c, y'.h) && TicketsOk(y')
  {
    hide Do, Inv, Apply;
    TicketIsStamp(y, k);
    var slot := y.tickets[k].slot;
    DoKeeps(c, y.h, Leave(at, slot));
    LeaveIsApply(c, y.h, at, slot);
  }

  lemma DequeueCounts(c: Config, y: System, k: ClientId, rem: int, at: int, d': State)
    requires CountsOk(y) && y.d.stock >= 0
    requires k in y.tickets && k !in y.d.dequeued && CallFrame(y.d, d', Dequeue(k, rem))
    ensures CountsOk(QueueStep(c, y, Dequeue(k, rem), at).(d := d'))
  {
    hide Holders;
    var y' := QueueStep(c, y, Dequeue(k, rem), at).(d := d');
    assert y'.h.keys == RemoveStep(y.h.keys, y.tickets[k].bin).0 && y'.tickets == y.tickets;
    forall b ensures Lookup(y'.h.keys.counts, b).GetOr(0) == |Holders(y'.tickets, y'.d.dequeued, b)| {
      HoldersLose(y.tickets, y.d.dequeued, k, b);
      assert Lookup(y.h.keys.counts, b).GetOr(0) == |Holders(y.tickets, y.d.dequeued, b)|;
    }
  }

  lemma DequeueKeeps(c: Config, y: System, k: ClientId, rem: int, at: int, d': State)
    requires StoreOk(c, y) && y.h.clock <= at && CallOk(y, Dequeue(k, rem)) && CallFrame(y.d, d', Dequeue(k, rem))
    ensures StoreOk(c, QueueStep(c, y, Dequeue(k, rem), at).(d := d'))
  {
    hide Inv, TicketsOk, CountsOk, Emptied, SumsOk, CallFrame;
    var y' := QueueStep(c, y, Dequeue(k, rem), at).(d := d');
    assert y'.d.stock == y.d.stock by { DequeueFrame(y.d, d', k, rem); }
    if y.d.stock >= 0 {
      RemoveSums(y.h.keys, y.tickets[k].bin);
      assert y'.h.keys == RemoveStep(y.h.keys, y.tickets[k].bin).0 by { hide RemoveStep; }
      if !y.cleared {
        DequeueTickets(c, y, k, rem, at, d');
        DequeueCounts(c, y, k, rem, at, d');
      }
    } else if !y.cleared {
      TicketsLeft(y, y', k, rem);
    }
  }

  lemma DequeueFrame(d: State, d': State, k: ClientId, rem: int)
    requires CallFrame(d, d', Dequeue(k, rem))
    ensures d'.stock == d.stock
  {
  }

  lemma TicketsLeft(y: System, y': System, k: ClientId, rem: int)
    requires TicketsOk(y) && y' == y.(d := y'.d) && CallFrame(y.d, y'.d, Dequeue(k, rem))
    ensures TicketsOk(y')
  {
  }

  lemma LeaveIsApply(c: Config, h: History, at: int, slot: nat)
    requires h.clock <= at && slot < |h.log| && slot !in h.gone
    ensures var h' := Apply(c, h, RemoveEvent(h.log[slot].bin), at, {slot});
      Do(c, h, Leave(at, slot)) == h' && h'.log == h.log && h'.gone == h.gone + {slot}
  {
    hide Waiting;
  }

  /** A call of the queue, whatever the driver's step does beside it. */
  lemma CallKeeps(c: Config, y: System, pc: Pc, at: int, d': State)
    requires StoreOk(c, y) && y.h.clock <= at && CallOk(y, pc) && CallFrame(y.d, d', pc)
    ensures StoreOk(c, QueueStep(c, y, pc, at).(d := d'))
  {
    hide StoreOk, QueueStep, CallFrame;
    match pc
    case Enqueue(k) => EnqueueKeeps(c, y, k, at, d');
    case AskQueue(k) => AskKeeps(c, y, k, at, d');
    case Dequeue(k, rem) => DequeueKeeps(c, y, k, rem, at, d');
    case ClearQueue(k) => ClearKeeps(c, y, k, at, d');
  }

  lemma ClearKeeps(c: Config, y: System, k: ClientId, at: int, d': State)
    requires StoreOk(c, y) && y.d.stock <= 0 && CallFrame(y.d, d', ClearQueue(k))
    ensures StoreOk(c, QueueStep(c, y, ClearQueue(k), at).(d := d'))
  {
  }

  /** The driver's step makes only such calls. */
  lemma CallsAreOk(p: Params, y: System, w: WorkerId, candidate: bool)
    requires Enabled(y.d, Work(w, candidate)) && CallsQueue(y.d.workers[w])
    requires DriverInv(p, y.d) && HoldersOk(y)
    ensures CallOk(y, y.d.workers[w]) && CallFrame(y.d, WorkStep(p, y.d, w, candidate), y.d.workers[w])
  {
    hide Observe, EverPassed, WindowsOk, StockOk, LocksOk;
    EachPcOk(y.d, w);
  }

  lemma SystemKeeps(c: Config, p: Params, y: System, s: SystemAction)
    requires SystemInv(c, p, y) && SystemEnabled(y, s)
    ensures SystemInv(c, p, SystemNext(c, p, y, s))
  {
    hide Next, WorkStep, QueueStep, DriverInv, HoldersOk, StoreOk, CallOk, CallFrame, CallsQueue;
    var a := DriverAction(c, y, s);
    NextKeeps(p, y.d, a);
    if s.a.Work? && CallsQueue(y.d.workers[s.a.w]) {
      CallsAreOk(p, y, s.a.w, a.candidate);
      CallIsQueueStep(c, p, y, s);
      CallKeeps(c, y, y.d.workers[s.a.w], s.at, WorkStep(p, y.d, s.a.w, a.candidate));
    } else {
      QuietKeeps(c, p, y, s);
      QuietStore(c, y, SystemNext(c, p, y, s));
    }
    NothingFailed(c, y);
    NothingFailed(c, SystemNext(c, p, y, s));
    NextHolders(c, p, y, s);
  }

  lemma NothingFailed(c: Config, y: System)
    requires StoreOk(c, y)
    ensures !y.failed
  {
  }

  lemma CallIsQueueStep(c: Config, p: Params, y: System, s: SystemAction)
    requires SystemEnabled(y, s) && s.a.Work?
    ensures SystemNext(c, p, y, s)
         == QueueStep(c, y, y.d.workers[s.a.w], s.at).(d := WorkStep(p, y.d, s.a.w, DriverAction(c, y, s).candidate))
  {
    hide QueueStep, WorkStep, Answer;
  }

  lemma QuietStore(c: Config, y: System, y': System)
    requires StoreOk(c, y) && y' == y.(d := y'.d) && y'.d.stock <= y.d.stock && y'.d.dequeued == y.d.dequeued
    ensures StoreOk(c, y')
  {
    hide Inv, TicketsOk, CountsOk;
    TicketsFrame(y, y');
    CountsFrame(y, y');
  }

  lemma {:induction false} EverySystemState(c: Config, p: Params, ys: seq<System>, acts: seq<SystemAction>, n: nat)
    requires IsSystemRun(c, p, ys, acts) && n < |ys|
    ensures SystemInv(c, p, ys[n])
  {
    hide SystemInv, SystemNext;
    if n == 0 {
      FirstSystemState(c, p, ys[0]);
    } else {
      EverySystemState(c, p, ys, acts, n - 1);
      assert SystemSteps(c, p, ys[n - 1], acts[n - 1], ys[n]);
      SystemKeeps(c, p, ys[n - 1], acts[n - 1]);
    }
  }

  lemma FirstSystemState(c: Config, p: Params, y: System)
    requires SystemStart(p, y)
    ensures SystemInv(c, p, y)
  {
    ReadyInv(p, y.d);
    StartInv(c, y.h.clock);
    forall b ensures |Holders(y.tickets, y.d.dequeued, b)| == 0 {
      assert Holders(y.tickets, y.d.dequeued, b) == {};
    }
  }

  // ---- what holds in every run ----

  /** Whatever the interleaving, the inventory guards keep the scripts from ever reading a missing value. */
  lemma ScriptsNeverFail(c: Config, p: Params, ys: seq<System>, acts: seq<SystemAction>, n: nat)
    requires IsSystemRun(c, p, ys, acts) && n < |ys|
    ensures !ys[n].failed
  {
    EverySystemState(c, p, ys, acts, n);
  }

  /** The total is the sum of all counts, in every state of every run. Until the queue is cleared, and while no stock
      is owed, each bin's count is the number of its clients not yet removed, and the total that of all clients added
      and not yet removed. Once the queue was cleared nobody is counted any more: late removes only take away. */
  lemma DriverConservation(c: Config, p: Params, ys: seq<System>, acts: seq<SystemAction>, n: nat, b: int)
    requires IsSystemRun(c, p, ys, acts) && n < |ys|
    ensures ys[n].h.keys.total.GetOr(0) == SumOf(ys[n].h.keys.counts)
    ensures !ys[n].cleared && ys[n].d.stock >= 0 ==>
      && Lookup(ys[n].h.keys.counts, b).GetOr(0) == |Holders(ys[n].tickets, ys[n].d.dequeued, b)|
      && ys[n].h.keys.total.GetOr(0) == |ys[n].tickets| - |ys[n].d.dequeued|
    ensures ys[n].d.stock > 0 ==> !ys[n].cleared && ys[n].tickets.Keys == ys[n].d.enqueued
    ensures ys[n].cleared ==>
      && ys[n].h.keys.latest.None? && ys[n].h.keys.working.None?
      && Lookup(ys[n].h.keys.counts, b).GetOr(0) <= 0 && ys[n].h.keys.total.GetOr(0) <= 0
  {
    hide Inv, DriverInv, Holders;
    EverySystemState(c, p, ys, acts, n);
  }

  /** Of two clients with tickets, the one added first has no later bin, and shares it only with clients added within
      the fairness interval. */
  lemma TicketsInOrder(c: Config, p: Params, ys: seq<System>, acts: seq<SystemAction>, n: nat,
                       k: ClientId, l: ClientId)
    requires IsSystemRun(c, p, ys, acts) && n < |ys| && !ys[n].cleared
    requires k in ys[n].tickets && l in ys[n].tickets && ys[n].tickets[k].slot < ys[n].tickets[l].slot
    ensures ys[n].tickets[l].slot < |ys[n].h.log|
    ensures var (first, second) := (ys[n].h.log[ys[n].tickets[k].slot], ys[n].h.log[ys[n].tickets[l].slot]);
      && first.bin == ys[n].tickets[k].bin <= ys[n].tickets[l].bin == second.bin
      && first.at <= second.at && (first.bin == second.bin ==> second.at - first.at <= c.maxUnfairMs)
  {
    hide Paced, Tallied, DriverInv, HoldMs;
    EverySystemState(c, p, ys, acts, n);
    TicketIsStamp(ys[n], k);
    TicketIsStamp(ys[n], l);
  }

  /** Between two Clears tickets stay, and the working bin does not move back. */
  predicate Proceeds(y: System, y': System) {
    !y'.cleared ==>
      && !y.cleared && Working(y.h) <= Working(y'.h)
      && forall k :: k in y.tickets ==> k in y'.tickets && y'.tickets[k] == y.tickets[k]
  }

  lemma StepProceeds(c: Config, p: Params, y: System, s: SystemAction)
    requires SystemInv(c, p, y) && SystemEnabled(y, s)
    ensures Proceeds(y, SystemNext(c, p, y, s))
  {
    hide WorkStep, DriverInv, HoldersOk, StoreOk, CallOk, CallFrame, QueueStep;
    if s.a.Work? {
      CallIsQueueStep(c, p, y, s);
      if CallsQueue(y.d.workers[s.a.w]) {
        CallsAreOk(p, y, s.a.w, false);
        CallProceeds(c, y, y.d.workers[s.a.w], s.at);
      } else {
        QuietKeeps(c, p, y, s);
      }
    }
  }

  lemma CallProceeds(c: Config, y: System, pc: Pc, at: int)
    requires StoreOk(c, y) && y.h.clock <= at && CallOk(y, pc)
    ensures Proceeds(y, QueueStep(c, y, pc, at))
  {
    hide Inv, Apply, AddStep, PollStep;
    if !y.cleared {
      match pc
      case Enqueue(k) => JoinProceeds(c, y.h, at);
      case AskQueue(k) =>
        if y.d.stock > 0 {
          TicketIsStamp(y, k);
          AskIsApply(c, y.h, at, y.tickets[k].slot);
          DoProceeds(c, y.h, Ask(at, y.tickets[k].slot));
        }
      case Dequeue(k, _) =>
        TicketIsStamp(y, k);
        LeaveIsApply(c, y.h, at, y.tickets[k].slot);
        DoProceeds(c, y.h, Leave(at, y.tickets[k].slot));
      case ClearQueue(_) =>
    }
  }

  lemma JoinProceeds(c: Config, h: History, at: int)
    requires Inv(c, h) && h.clock <= at
    ensures Working(h) <= Working(Apply(c, h, AddEvent(at), at, {}))
  {
    hide Inv, Apply;
    DoProceeds(c, h, Join(at));
  }

  lemma DoProceeds(c: Config, h: History, a: Act)
    requires Inv(c, h) && Can(h, a)
    ensures Working(h) <= Working(Do(c, h, a))
  {
    hide Inv, Do;
    DoKeeps(c, h, a);
  }

  lemma {:induction false} RunProceeds(
      c: Config, p: Params, ys: seq<System>, acts: seq<SystemAction>, m: nat, n: nat)
    requires IsSystemRun(c, p, ys, acts) && m <= n < |ys|
    ensures Proceeds(ys[m], ys[n])
    decreases n
  {
    hide SystemNext, SystemInv;
    if m < n {
      RunProceeds(c, p, ys, acts, m, n - 1);
      EverySystemState(c, p, ys, acts, n - 1);
      assert SystemSteps(c, p, ys[n - 1], acts[n - 1], ys[n]);
      StepProceeds(c, p, ys[n - 1], acts[n - 1]);
    }
  }

  /** The step is the queue being asked about client k. */
  predicate AsksAbout(y: System, s: SystemAction, k: ClientId) {
    s.a.Work? && s.a.w in y.d.workers && y.d.workers[s.a.w] == AskQueue(k)
  }

  /** No overtaking: once a client was let pass, while stock is left the queue lets pass every client added no later. */
  lemma SystemNoOvertaking(c: Config, p: Params, ys: seq<System>, acts: seq<SystemAction>, m: nat, n: nat,
                           k: ClientId, l: ClientId)
    requires IsSystemRun(c, p, ys, acts) && m <= n < |acts|
    requires AsksAbout(ys[m], acts[m], l) && AsksAbout(ys[n], acts[n], k)
    requires Answer(c, ys[m], AskQueue(l), acts[m].at) && ys[n].d.stock > 0
    requires k in ys[m].tickets && ys[m].tickets[k].slot <= ys[m].tickets[l].slot
    ensures Answer(c, ys[n], AskQueue(k), acts[n].at)
  {
    hide SystemNext, SystemInv, StoreOk, PollStep, Answer;
    EverySystemState(c, p, ys, acts, m);
    EverySystemState(c, p, ys, acts, n);
    StockMeansOpen(c, p, ys[n]);
    RunProceeds(c, p, ys, acts, m, n);
    assert SystemSteps(c, p, ys[m], acts[m], ys[m + 1]);
    BinsInOrder(c, p, ys[m], acts[m].at, k, l);
    if m < n {
      RunProceeds(c, p, ys, acts, m + 1, n);
      PassedIsWorking(c, p, ys[m], acts[m], l);
      PassesBehind(c, p, ys[n], acts[n].at, k);
    } else {
      PassesTogether(c, p, ys[m], acts[m].at, k, l);
    }
  }

  lemma StockMeansOpen(c: Config, p: Params, y: System)
    requires SystemInv(c, p, y)
    ensures y.d.stock > 0 ==> !y.cleared
  {
    hide DriverInv, HoldersOk, Inv;
  }

  /** A poll of an open store sees one working bin, whoever polls. */
  lemma PollSees(c: Config, k: Keys, at: int, bin: int)
    requires WellFormed(k) && k.latest.Some?
    ensures PollStep(k, c, at, bin).0 == PollStep(k, c, at, 0).0
    ensures PollStep(k, c, at, bin).1 == Verdict(bin, PollStep(k, c, at, 0).0.working.GetOr(-1))
    ensures k.working.GetOr(0) <= PollStep(k, c, at, 0).0.working.GetOr(0)
  {
    hide HoldMs;
  }

  lemma BinsInOrder(c: Config, p: Params, y: System, at: int, k: ClientId, l: ClientId)
    requires SystemInv(c, p, y) && !y.cleared && Answer(c, y, AskQueue(l), at)
    requires k in y.tickets && y.tickets[k].slot <= y.tickets[l].slot
    ensures 1 <= y.tickets[k].bin <= y.tickets[l].bin
  {
    hide Paced, Tallied, CountsOk, DriverInv, HoldersOk, PollStep;
    TicketIsStamp(y, k);
    TicketIsStamp(y, l);
  }

  lemma OpenStore(c: Config, p: Params, y: System, k: ClientId)
    requires SystemInv(c, p, y) && !y.cleared && k in y.tickets
    ensures WellFormed(y.h.keys) && y.h.keys.latest.Some?
  {
    hide Paced, Tallied, CountsOk, DriverInv, HoldersOk;
    TicketIsStamp(y, k);
  }

  lemma PassedIsWorking(c: Config, p: Params, y: System, s: SystemAction, l: ClientId)
    requires SystemInv(c, p, y) && !y.cleared && SystemEnabled(y, s) && AsksAbout(y, s, l)
    requires Answer(c, y, AskQueue(l), s.at) && y.tickets[l].bin >= 1
    ensures Working(SystemNext(c, p, y, s).h) >= y.tickets[l].bin
  {
    hide SystemInv, PollStep, WorkStep, Waiting, WellFormed;
    OpenStore(c, p, y, l);
    PollSees(c, y.h.keys, s.at, y.tickets[l].bin);
  }

  lemma PassesBehind(c: Config, p: Params, y: System, at: int, k: ClientId)
    requires SystemInv(c, p, y) && !y.cleared && y.d.stock > 0 && k in y.tickets
    requires 1 <= y.tickets[k].bin <= Working(y.h)
    ensures Answer(c, y, AskQueue(k), at)
  {
    hide SystemInv, PollStep, WellFormed;
    OpenStore(c, p, y, k);
    PollSees(c, y.h.keys, at, y.tickets[k].bin);
  }

  lemma PassesTogether(c: Config, p: Params, y: System, at: int, k: ClientId, l: ClientId)
    requires SystemInv(c, p, y) && !y.cleared && Answer(c, y, AskQueue(l), at)
    requires k in y.tickets && y.tickets[k].bin <= y.tickets[l].bin
    ensures Answer(c, y, AskQueue(k), at)
  {
    hide SystemInv, PollStep, WellFormed;
    OpenStore(c, p, y, k);
    PollSees(c, y.h.keys, at, y.tickets[k].bin);
    PollSees(c, y.h.keys, at, y.tickets[l].bin);
  }

  /** In every run a worker that asks the queue about a client goes on to the tracker exactly if stock is left and, with
      this poll, the working bin has reached the client's. */
  lemma SystemPassesIff(c: Config, p: Params, ys: seq<System>, acts: seq<SystemAction>, n: nat, k: ClientId)
    requires IsSystemRun(c, p, ys, acts) && n < |acts| && AsksAbout(ys[n], acts[n], k)
    ensures acts[n].a.w in ys[n + 1].d.workers
    ensures ys[n].d.stock > 0 ==> k in ys[n].tickets
    ensures ys[n + 1].d.workers[acts[n].a.w]
         == if ys[n].d.stock > 0 && ys[n].tickets[k].bin <= |ys[n + 1].h.advances| then AskTracker(k)
            else DriverProtocol.Respond(k)
  {
    EverySystemState(c, p, ys, acts, n);
    EverySystemState(c, p, ys, acts, n + 1);
    assert SystemSteps(c, p, ys[n], acts[n], ys[n + 1]);
    hide *;
    StepPassesIff(c, p, ys[n], acts[n], k, ys[n + 1]);
  }

  lemma StepPassesIff(c: Config, p: Params, y: System, s: SystemAction, k: ClientId, y': System)
    requires SystemInv(c, p, y) && SystemInv(c, p, y') && SystemSteps(c, p, y, s, y') && AsksAbout(y, s, k)
    ensures s.a.w in y'.d.workers && (y.d.stock > 0 ==> k in y.tickets)
    ensures y'.d.workers[s.a.w]
         == if y.d.stock > 0 && y.tickets[k].bin <= |y'.h.advances| then AskTracker(k) else DriverProtocol.Respond(k)
  {
    AskIsOk(c, p, y, s, k);
    AskedGoes(c, p, y, s, k);
    StockMeansOpen(c, p, y);
    StockMeansOpen(c, p, y');
    hide SystemInv, SystemNext, PollStep, WellFormed;
    if y.d.stock > 0 {
      OpenStore(c, p, y, k);
      PollSees(c, y.h.keys, s.at, y.tickets[k].bin);
      WorkingIsMoves(c, p, y');
      BinAtLeastOne(c, p, y, k);
    }
  }

  lemma AskIsOk(c: Config, p: Params, y: System, s: SystemAction, k: ClientId)
    requires SystemInv(c, p, y) && SystemEnabled(y, s) && AsksAbout(y, s, k)
    ensures y.d.stock > 0 ==> k in y.tickets
  {
    CallsAreOk(p, y, s.a.w, false);
    hide SystemInv, CallFrame;
  }

  lemma AskedGoes(c: Config, p: Params, y: System, s: SystemAction, k: ClientId)
    requires SystemEnabled(y, s) && AsksAbout(y, s, k)
    ensures var y' := SystemNext(c, p, y, s);
      && y'.d.stock == y.d.stock && s.a.w in y'.d.workers
      && y'.d.workers[s.a.w] == (if Answer(c, y, AskQueue(k), s.at) then AskTracker(k) else DriverProtocol.Respond(k))
      && (y.d.stock > 0 && k in y.tickets ==> y'.h.keys == PollStep(y.h.keys, c, s.at, y.tickets[k].bin).0)
  {
    hide PollStep, Waiting;
  }

  lemma WorkingIsMoves(c: Config, p: Params, y: System)
    requires SystemInv(c, p, y)
    ensures !y.cleared ==> |y.h.advances| == Working(y.h)
  {
    hide DriverInv, HoldersOk, Stamped, Tallied, CountsOk, TicketsOk;
  }

  lemma BinAtLeastOne(c: Config, p: Params, y: System, k: ClientId)
    requires SystemInv(c, p, y) && !y.cleared && k in y.tickets
    ensures y.tickets[k].bin >= 1
  {
    hide DriverInv, HoldersOk, Paced, Tallied, CountsOk;
    TicketIsStamp(y, k);
  }

  /** The system's driver is a run of the protocol, so everything proved of that holds here. */
  lemma DriverRunOf(c: Config, p: Params, ys: seq<System>, acts: seq<SystemAction>)
      returns (ss: seq<State>, as_: seq<Action>)
    requires IsSystemRun(c, p, ys, acts)
    ensures IsDriverRun(p, ss, as_) && |ss| == |ys| && forall i :: 0 <= i < |ys| ==> ss[i] == ys[i].d
  {
    hide Next, QueueStep, Enabled, Answer;
    forall i | 0 <= i < |acts| ensures SystemEnabled(ys[i], acts[i]) {
      assert SystemSteps(c, p, ys[i], acts[i], ys[i + 1]);
    }
    ss := seq(|ys|, i requires 0 <= i < |ys| => ys[i].d);
    as_ := seq(|acts|, i requires 0 <= i < |acts| && SystemEnabled(ys[i], acts[i]) => DriverAction(c, ys[i], acts[i]));
    forall i, j | 0 <= i < |as_| && j == i + 1 ensures Steps(p, ss[i], as_[i], ss[j]) {
      assert SystemSteps(c, p, ys[i], acts[i], ys[j]);
      DriverActionEnabled(c, ys[i], acts[i]);
    }
  }

  lemma DriverActionEnabled(c: Config, y: System, s: SystemAction)
    requires SystemEnabled(y, s)
    ensures Enabled(y.d, DriverAction(c, y, s))
  {
  }

  lemma StepClears(c: Config, p: Params, y: System, s: SystemAction)
    requires SystemEnabled(y, s) && (y.cleared <==> y.d.cancelled)
    ensures var y' := SystemNext(c, p, y, s); y'.cleared <==> y'.d.cancelled
  {
    hide Observe, Apply, AddStep, PollStep;
  }

  lemma {:induction false} ClearedIsCancelled(c: Config, p: Params, ys: seq<System>, acts: seq<SystemAction>, n: nat)
    requires IsSystemRun(c, p, ys, acts) && n < |ys|
    ensures ys[n].cleared <==> ys[n].d.cancelled
  {
    hide SystemNext;
    if n > 0 {
      ClearedIsCancelled(c, p, ys, acts, n - 1);
      assert SystemSteps(c, p, ys[n - 1], acts[n - 1], ys[n]);
      StepClears(c, p, ys[n - 1], acts[n - 1]);
    }
  }

  /** In every interleaving: whenever all workers are free, the store has been cleared exactly if somebody reached
      checkout and no stock is left; and never earlier than that. */
  lemma ClearedIffSoldOut(c: Config, p: Params, ys: seq<System>, acts: seq<SystemAction>, n: nat)
    requires IsSystemRun(c, p, ys, acts) && n < |ys|
    ensures ys[n].cleared ==> ys[n].d.reached != {} && ys[n].d.stock <= 0
    ensures AllIdle(ys[n].d) ==> (ys[n].cleared <==> ys[n].d.reached != {} && ys[n].d.stock <= 0)
  {
    ClearedIsCancelled(c, p, ys, acts, n);
    var ss, as_ := DriverRunOf(c, p, ys, acts);
    CancelledIffSoldOut(p, ss, as_, n);
  }

  // ---- one transition at a time ----

  /** A request is taken only when every worker is free. */
  ghost predicate OneAtATime(ys: seq<System>, acts: seq<SystemAction>) {
    |acts| <= |ys| && forall i :: 0 <= i < |acts| && acts[i].a.Pick? ==> AllIdle(ys[i].d)
  }

  predicate WantsStock(pc: Pc) {
    pc.AskTracker? || pc.AwaitStock? || pc.ReadStock? || pc.MarkCheckout? || pc.TakeStock?
  }

  /** At most one worker is busy, and one that the queue let pass will find stock. */
  ghost predicate SerialInv(y: System) {
    && (forall w, v :: w in y.d.workers && v in y.d.workers && !y.d.workers[w].Idle? && !y.d.workers[v].Idle? ==>
          w == v)
    && y.d.stock >= 0
    && (forall w :: w in y.d.workers && WantsStock(y.d.workers[w]) ==> y.d.stock > 0)
  }

  lemma StockWanted(p: Params, s: State, w: WorkerId, candidate: bool)
    requires Enabled(s, Work(w, candidate))
    ensures var s' := WorkStep(p, s, w, candidate); var pc := s.workers[w];
      && w in s'.workers
      && (WantsStock(s'.workers[w]) ==> (WantsStock(pc) && !pc.TakeStock?) || (pc.AskQueue? && candidate))
      && (pc.TakeStock? ==> WantsStock(pc))
  {
    hide Observe;
  }

  lemma SerialKeeps(c: Config, p: Params, y: System, s: SystemAction)
    requires SystemInv(c, p, y) && SystemEnabled(y, s) && SerialInv(y)
    requires s.a.Pick? ==> AllIdle(y.d)
    ensures SerialInv(SystemNext(c, p, y, s))
  {
    hide WorkStep, Inv, QueueStep, TicketsOk, CountsOk, PollStep, PcOk, WantsStock;
    if s.a.Work? {
      var answer := Answer(c, y, y.d.workers[s.a.w], s.at);
      EachPcOk(y.d, s.a.w);
      WorkShape(p, y.d, s.a.w, answer);
      StockWanted(p, y.d, s.a.w, answer);
      WorkTakes(p, y.d, s.a.w, answer);
      assert WantsStock(Idle) == false by { IdleWantsNothing(Idle); }
      forall v | v in y.d.workers && v != s.a.w ensures !WantsStock(y.d.workers[v]) {
        IdleWantsNothing(y.d.workers[v]);
      }
    } else if s.a.Pick? {
      forall v | v in y.d.workers ensures !WantsStock(y.d.workers[v]) {
        IdleWantsNothing(y.d.workers[v]);
      }
      IdleWantsNothing(Dispatch(s.a.c));
    }
  }

  lemma IdleWantsNothing(pc: Pc)
    requires pc.Idle? || pc.Dispatch?
    ensures !WantsStock(pc)
  {
  }

  lemma {:induction false} EverySerialState(c: Config, p: Params, ys: seq<System>, acts: seq<SystemAction>, n: nat)
    requires IsSystemRun(c, p, ys, acts) && OneAtATime(ys, acts) && n < |ys|
    ensures SerialInv(ys[n])
  {
    hide SystemInv, SystemNext, SerialInv;
    if n == 0 {
      assert SerialInv(ys[0]) by { FirstSerialState(p, ys[0]); }
    } else {
      EverySerialState(c, p, ys, acts, n - 1);
      EverySystemState(c, p, ys, acts, n - 1);
      assert SystemSteps(c, p, ys[n - 1], acts[n - 1], ys[n]);
      SerialKeeps(c, p, ys[n - 1], acts[n - 1]);
    }
  }

  lemma FirstSerialState(p: Params, y: System)
    requires Ready(p, y.d)
    ensures SerialInv(y)
  {
  }

  /** With the queue's own guard and whole transitions run one at a time, no more clients reach checkout than there
      is stock. */
  lemma SerialNeverOversells(c: Config, p: Params, ys: seq<System>, acts: seq<SystemAction>, n: nat)
    requires IsSystemRun(c, p, ys, acts) && OneAtATime(ys, acts) && n < |ys|
    ensures |ys[n].d.reached| <= p.stock && ys[n].d.stock >= 0
  {
    EverySerialState(c, p, ys, acts, n);
    EverySystemState(c, p, ys, acts, n);
    assert StockOk(p, ys[n].d);
    if BetweenMarkAndCount(ys[n].d) {
      var w := ys[n].d.stockOwner.value;
      assert w in ys[n].d.workers && WantsStock(ys[n].d.workers[w]);
      assert ys[n].d.stock > 0;
    }
  }
}

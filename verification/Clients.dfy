/** Simulated clients: throttle state, throttle cookie and the lock every change of them needs. */
module Clients {

  type ClientId = int

  datatype ThrottleState = Initial | Queued | InCheckout | Exited {
    function Rank(): nat {
      match this
      case Initial => 0
      case Queued => 1
      case InCheckout => 2
      case Exited => 3
    }
  }

  datatype CookieKey = ThrottleStateKey | UserBinKey | UserQueuePosKey

  datatype CookieVal = StateName(state: ThrottleState) | Number(n: int)

  datatype ClientView = ClientView(
    state: ThrottleState, cookie: map<CookieKey, CookieVal>, reachedCheckout: bool,
    entryTime: int, exitTime: int, advisedPollAfter: int)

  /** Past its initial state, a client's cookie always names the state the client is in. */
  predicate CookieMirrors(v: ClientView) {
    v.state.Initial? || (ThrottleStateKey in v.cookie && v.cookie[ThrottleStateKey] == StateName(v.state))
  }

  /** Before a client's first request. */
  const NEW_CLIENT := ClientView(Initial, map[], false, 0, 0, 0)

  /** What server, queue and client do to a client under its lock; queues store numbers under their own keys. */
  datatype ClientStep =
    | Queues(at: int)
    | EntersCheckout(at: int)
    | Leaves
    | Stores(key: CookieKey, n: int)
    | Advised(t: int)

  function StepClient(v: ClientView, s: ClientStep): ClientView {
    match s
    case Queues(at) => v.(state := Queued, entryTime := at, cookie := v.cookie[ThrottleStateKey := StateName(Queued)])
    case EntersCheckout(at) =>
      v.(state := InCheckout, exitTime := at, reachedCheckout := true,
         cookie := v.cookie[ThrottleStateKey := StateName(InCheckout)])
    case Leaves => v.(state := Exited, cookie := v.cookie[ThrottleStateKey := StateName(Exited)])
    case Stores(key, n) => v.(cookie := v.cookie[key := Number(n)])
    case Advised(t) => v.(advisedPollAfter := t)
  }

  ghost predicate IsClientRun(vs: seq<ClientView>, steps: seq<ClientStep>) {
    && |vs| == |steps| + 1
    && vs[0] == NEW_CLIENT
    && forall i, j :: 0 <= i < |steps| && j == i + 1 ==> vs[j] == StepClient(vs[i], steps[i])
  }

  /** In every sequence of such steps, in any order, the cookie names the state throughout exactly if no number was
      stored under the state's key after the last change of state; so it does if queues keep to their own keys. */
  lemma {:induction false} CookieAlwaysMirrors(vs: seq<ClientView>, steps: seq<ClientStep>, n: nat)
    requires IsClientRun(vs, steps) && n < |vs|
    ensures CookieMirrors(vs[n]) <==> vs[n].state.Initial? || !Overwritten(steps, n)
    ensures vs[n].state.Initial? <==> forall i :: 0 <= i < n ==> !ChangesState(steps[i])
  {
    if n > 0 {
      CookieAlwaysMirrors(vs, steps, n - 1);
      assert vs[n] == StepClient(vs[n - 1], steps[n - 1]);
    }
  }

  /** The time of the last of the first n steps that queued the client, 0 if none did. */
  function LastQueued(steps: seq<ClientStep>, n: nat): int
    requires n <= |steps|
  {
    if n == 0 then 0 else if steps[n - 1].Queues? then steps[n - 1].at else LastQueued(steps, n - 1)
  }

  /** The same for entering checkout. */
  function LastInCheckout(steps: seq<ClientStep>, n: nat): int
    requires n <= |steps|
  {
    if n == 0 then 0 else if steps[n - 1].EntersCheckout? then steps[n - 1].at else LastInCheckout(steps, n - 1)
  }

  /** The entry and exit times that the audit compares are those of queueing and of entering checkout; the checkout flag
      says whether the client ever did; and the state is that of the last change. */
  lemma {:induction false} TimesNoted(vs: seq<ClientView>, steps: seq<ClientStep>, n: nat)
    requires IsClientRun(vs, steps) && n < |vs|
    ensures vs[n].entryTime == LastQueued(steps, n) && vs[n].exitTime == LastInCheckout(steps, n)
    ensures vs[n].reachedCheckout <==> exists i :: 0 <= i < n && steps[i].EntersCheckout?
    ensures n < |steps| && ChangesState(steps[n]) ==>
      vs[n + 1].state == match steps[n] case Queues(_) => Queued case EntersCheckout(_) => InCheckout case _ => Exited
  {
    if n > 0 {
      TimesNoted(vs, steps, n - 1);
      assert vs[n] == StepClient(vs[n - 1], steps[n - 1]);
    }
    if n < |steps| {
      assert vs[n + 1] == StepClient(vs[n], steps[n]);
    }
  }

  predicate ChangesState(s: ClientStep) {
    s.Queues? || s.EntersCheckout? || s.Leaves?
  }

  /** The last of the first n steps to touch the state's cookie entry stored a number there. */
  predicate Overwritten(steps: seq<ClientStep>, n: nat)
    requires n <= |steps|
  {
    n > 0 && (
      if ChangesState(steps[n - 1]) then false
      else (steps[n - 1].Stores? && steps[n - 1].key == ThrottleStateKey) || Overwritten(steps, n - 1))
  }

  class BaseClient {
    const id: ClientId
    var isLocked: bool
    var state: ThrottleState
    var throttleCookie: map<CookieKey, CookieVal>
    var hitCheckoutStep: bool
    var queueEntryTime: int
    var queueExitTime: int
    var advisedPollAfter: int

    ghost function View(): ClientView
      reads this
    {
      ClientView(state, throttleCookie, hitCheckoutStep, queueEntryTime, queueExitTime, advisedPollAfter)
    }

    constructor (id: ClientId)
      ensures this.id == id && !isLocked && View() == NEW_CLIENT
    {
      this.id := id;
      isLocked, state, throttleCookie, hitCheckoutStep := false, Initial, map[], false;
      queueEntryTime, queueExitTime, advisedPollAfter := 0, 0, 0;
    }

    method Lock()
      requires !isLocked
      modifies this`isLocked
      ensures isLocked
    {
      isLocked := true;
    }

    method Unlock()
      requires isLocked
      modifies this`isLocked
      ensures !isLocked
    {
      isLocked := false;
    }

    method SetThrottleCookieVal(key: CookieKey, value: CookieVal) returns (ok: bool)
      modifies this`throttleCookie
      ensures ok == isLocked
      ensures throttleCookie == if ok then old(throttleCookie)[key := value] else old(throttleCookie)
      ensures ok && value.Number? ==> View() == StepClient(old(View()), Stores(key, value.n))
    {
      if !isLocked {
        return false;
      }
      throttleCookie := throttleCookie[key := value];
      ok := true;
    }

    /** A number kept in the cookie; unreadable without the lock. */
    method GetThrottleCookieNumber(key: CookieKey) returns (value: int, ok: bool)
      ensures ok <==> isLocked && key in throttleCookie && throttleCookie[key].Number?
      ensures ok ==> throttleCookie[key] == Number(value)
    {
      if !isLocked || key !in throttleCookie || !throttleCookie[key].Number? {
        return 0, false;
      }
      value, ok := throttleCookie[key].n, true;
    }

    method AdvisePollAfter(t: int) returns (ok: bool)
      modifies this`advisedPollAfter
      ensures ok == isLocked && advisedPollAfter == (if ok then t else old(advisedPollAfter))
      ensures View() == if ok then StepClient(old(View()), Advised(t)) else old(View())
    {
      if !isLocked {
        return false;
      }
      advisedPollAfter := t;
      ok := true;
    }

    /** Refused without the lock; otherwise the client is queued, its entry time noted and the cookie kept in step. */
    method MarkQueued(now: int) returns (ok: bool)
      modifies this`state, this`throttleCookie, this`queueEntryTime
      ensures ok == isLocked
      ensures View() == if ok then StepClient(old(View()), Queues(now)) else old(View())
      ensures ok ==> CookieMirrors(View())
    {
      if !isLocked {
        return false;
      }
      queueEntryTime := now;
      state := Queued;
      ok := SetThrottleCookieVal(ThrottleStateKey, StateName(Queued));
    }

    method MarkInCheckout(now: int) returns (ok: bool)
      modifies this`state, this`throttleCookie, this`queueExitTime, this`hitCheckoutStep
      ensures ok == isLocked
      ensures View() == if ok then StepClient(old(View()), EntersCheckout(now)) else old(View())
      ensures ok ==> CookieMirrors(View())
    {
      if !isLocked {
        return false;
      }
      state := InCheckout;
      ok := SetThrottleCookieVal(ThrottleStateKey, StateName(InCheckout));
      queueExitTime := now;
      hitCheckoutStep := true;
    }

    method MarkExited() returns (ok: bool)
      modifies this`state, this`throttleCookie
      ensures ok == isLocked
      ensures View() == if ok then StepClient(old(View()), Leaves) else old(View())
      ensures ok ==> CookieMirrors(View())
    {
      if !isLocked {
        return false;
      }
      state := Exited;
      ok := SetThrottleCookieVal(ThrottleStateKey, StateName(Exited));
    }
  }
}

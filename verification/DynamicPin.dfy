/**
 * CDynamicOutputPin's block protocol: an application blocks and unblocks the pin
 * while streaming threads start and stop using it.
 */
module DynamicPin {
  import opened Wrappers

  datatype BlockState = NOT_BLOCKED | PENDING | BLOCKED

  /** A caller's event handle. */
  type Handle = nat

  /** A notification sent to a caller: its request took effect, or was cancelled first. */
  datatype Notice = Notice(handle: Handle, blocked: bool)

  datatype Reply = S_OK | S_FALSE | E_INVALIDARG | VFW_E_PIN_ALREADY_BLOCKED | VFW_E_PIN_ALREADY_BLOCKED_ON_THIS_THREAD

  datatype Pin = Pin(
    state: BlockState,
    caller: nat,              // m_dwBlockCallerThreadID, 0 for none
    notify: Option<Handle>,   // m_hNotifyCallerPinBlockedEvent
    users: nat,               // m_dwNumOutstandingOutputPinUsers
    unblocked: bool,          // m_hUnblockOutputPinEvent is signalled
    notices: seq<Notice>
  )

  const INITIAL_PIN := Pin(NOT_BLOCKED, 0, None, 0, true, [])

  // ---- Regions under m_BlockStateLock ----

  function BlockNow(p: Pin): Pin
    requires p.notify.Some?
  {
    p.(state := BLOCKED, notify := None, unblocked := false, notices := p.notices + [Notice(p.notify.value, true)])
  }

  function AskBlock(p: Pin, thread: nat, h: Handle): (Pin, Reply) {
    if p.state != NOT_BLOCKED then
      (p, if p.caller == thread then VFW_E_PIN_ALREADY_BLOCKED_ON_THIS_THREAD else VFW_E_PIN_ALREADY_BLOCKED)
    else
      var r := p.(state := PENDING, caller := thread, notify := Some(h));
      (if r.users > 0 then r else BlockNow(r), S_OK)
  }

  function Unblock(p: Pin): (Pin, Reply) {
    if p.state == NOT_BLOCKED then (p, S_FALSE)
    else
      (p.(state := NOT_BLOCKED, caller := 0, notify := None, unblocked := true,
          notices := if p.notify.Some? then p.notices + [Notice(p.notify.value, false)] else p.notices), S_OK)
  }

  function StopUsing(p: Pin): Pin
    requires p.users > 0 && PinOk(p)
  {
    var r := p.(users := p.users - 1);
    if r.users == 0 && r.state != NOT_BLOCKED then BlockNow(r) else r
  }

  /** What AssertValid checks, with what it leaves open closed: PENDING needs a user. */
  predicate PinOk(p: Pin) {
    && (p.state == BLOCKED ==> p.users == 0)
    && (p.state == PENDING ==> p.users > 0)
    && (p.notify.Some? <==> p.state == PENDING)
    && (p.unblocked <==> p.state != BLOCKED)
    && (p.caller == 0 <==> p.state == NOT_BLOCKED)
  }

  // ---- The object ----

  class CDynamicOutputPin {
    var blockState: BlockState
    var blockCaller: nat
    var notifyCaller: Option<Handle>
    var outstandingUsers: nat
    var unblockEvent: bool
    var log: seq<Notice>

    function State(): Pin
      reads this
    {
      Pin(blockState, blockCaller, notifyCaller, outstandingUsers, unblockEvent, log)
    }

    constructor ()
      ensures State() == INITIAL_PIN && PinOk(State())
    {
      blockState, blockCaller, notifyCaller := NOT_BLOCKED, 0, None;
      outstandingUsers, unblockEvent, log := 0, true, [];
    }

    /** IPinFlowControl::Block, with the handle it is to signal; a synchronous caller brings its own. */
    method Block(flags: bv32, hEvent: Option<Handle>, own: Handle, thread: nat) returns (hr: Reply)
      requires PinOk(State()) && thread > 0
      modifies this
      ensures PinOk(State())
      ensures flags & !1 != 0 || (flags == 0 && hEvent.Some?) ==> hr == E_INVALIDARG && State() == old(State())
      ensures flags == 0 && hEvent.None? ==>
                (State(), hr) == (Unblock(old(State())).0, S_OK)
      ensures flags == 1 ==>
                (State(), hr) == AskBlock(old(State()), thread, if hEvent.None? then own else hEvent.value)
    {
      if flags & !1 != 0 {
        return E_INVALIDARG;
      }
      if flags == 0 && hEvent.Some? {
        return E_INVALIDARG;
      }
      if flags & 1 != 0 {
        hr := AsynchronousBlockOutputPin(if hEvent.None? then own else hEvent.value, thread);
      } else {
        hr := UnblockOutputPin();
        hr := S_OK;
      }
    }

    method AsynchronousBlockOutputPin(h: Handle, thread: nat) returns (hr: Reply)
      requires PinOk(State()) && thread > 0
      modifies this
      ensures PinOk(State()) && (State(), hr) == AskBlock(old(State()), thread, h)
    {
      if blockState != NOT_BLOCKED {
        if blockCaller == thread {
          return VFW_E_PIN_ALREADY_BLOCKED_ON_THIS_THREAD;
        } else {
          return VFW_E_PIN_ALREADY_BLOCKED;
        }
      }
      notifyCaller := Some(h);
      blockState := PENDING;
      blockCaller := thread;
      if !StreamingThreadUsingOutputPin() {
        BlockOutputPin();
      }
      hr := S_OK;
    }

    predicate StreamingThreadUsingOutputPin()
      reads this
    {
      outstandingUsers > 0
    }

    method BlockOutputPin()
      requires notifyCaller.Some? && !StreamingThreadUsingOutputPin()
      modifies this
      ensures State() == BlockNow(old(State()))
    {
      unblockEvent := false;
      log := log + [Notice(notifyCaller.value, true)];
      blockState := BLOCKED;
      notifyCaller := None;
    }

    method UnblockOutputPin() returns (hr: Reply)
      requires PinOk(State())
      modifies this
      ensures PinOk(State()) && (State(), hr) == Unblock(old(State()))
    {
      if blockState == NOT_BLOCKED {
        return S_FALSE;
      }
      unblockEvent := true;
      if notifyCaller.Some? {
        log := log + [Notice(notifyCaller.value, false)];
      }
      blockState := NOT_BLOCKED;
      blockCaller := 0;
      notifyCaller := None;
      hr := S_OK;
    }

    /** The test at the head of StartUsingOutputPin's loop, and what follows it when the pin is not blocked. */
    method TryStart() returns (started: bool)
      requires PinOk(State())
      modifies this`outstandingUsers
      ensures PinOk(State()) && started == (old(blockState) != BLOCKED)
      ensures State() == if started then old(State()).(users := old(outstandingUsers) + 1) else old(State())
    {
      started := blockState != BLOCKED;
      if started {
        outstandingUsers := outstandingUsers + 1;
      }
    }

    method StopUsingOutputPin()
      requires PinOk(State()) && outstandingUsers > 0
      modifies this
      ensures PinOk(State()) && State() == StopUsing(old(State()))
    {
      outstandingUsers := outstandingUsers - 1;
      if outstandingUsers == 0 && blockState != NOT_BLOCKED {
        BlockOutputPin();
      }
    }
  }

  // ---- Threads ----

  /** A thread inside StartUsingOutputPin waits outside the lock, then has been woken, by the stop event or not. */
  datatype Sys = Sys(
    pin: Pin,
    stopped: bool,             // m_hStopEvent is signalled
    using: multiset<nat>,      // successful starts not yet matched by a stop
    waiting: set<nat>,
    woken: map<nat, bool>,     // thread -> whether the stop event woke it
    accepted: seq<Handle>,     // block requests answered S_OK
    cancels: nat               // unblock requests answered S_OK
  )

  datatype Step =
    | AskBlockStep(thread: nat, handle: Handle)
    | UnblockStep
    | Start(thread: nat)
    | Wake(thread: nat)
    | Resume(thread: nat)
    | Stop(thread: nat)
    | SetStop(on: bool)

  const INITIAL := Sys(INITIAL_PIN, false, multiset{}, {}, map[], [], 0)

  predicate Enabled(s: Sys, step: Step) {
    match step
    case AskBlockStep(t, _) => t > 0
    case Start(t) => t !in s.waiting && t !in s.woken
    case Wake(t) => t in s.waiting && (s.pin.unblocked || s.stopped)
    case Resume(t) => t in s.woken
    case Stop(t) => t in s.using && s.pin.users > 0 && PinOk(s.pin)
    case _ => true
  }

  /** The loop test of StartUsingOutputPin: wait, or become a user. */
  function Enter(s: Sys, t: nat): Sys {
    if s.pin.state == BLOCKED then s.(waiting := s.waiting + {t})
    else s.(pin := s.pin.(users := s.pin.users + 1), using := s.using + multiset{t})
  }

  function Apply(s: Sys, step: Step): Sys
    requires Enabled(s, step)
  {
    match step
    case AskBlockStep(t, h) =>
      var (p, hr) := AskBlock(s.pin, t, h);
      s.(pin := p, accepted := if hr == S_OK then s.accepted + [h] else s.accepted)
    case UnblockStep =>
      var (p, hr) := Unblock(s.pin);
      s.(pin := p, cancels := if hr == S_OK then s.cancels + 1 else s.cancels)
    case Start(t) => Enter(s, t)
    case Wake(t) => s.(waiting := s.waiting - {t}, woken := s.woken[t := !s.pin.unblocked])
    case Resume(t) =>
      var r := s.(woken := s.woken - {t});
      if s.woken[t] then r else Enter(r, t)
    case Stop(t) => s.(pin := StopUsing(s.pin), using := s.using - multiset{t})
    case SetStop(on) => s.(stopped := on)
  }

  function Handles(notices: seq<Notice>): (r: seq<Handle>)
    ensures |r| == |notices| && forall i :: 0 <= i < |r| ==> r[i] == notices[i].handle
  {
    if notices == [] then [] else [notices[0].handle] + Handles(notices[1..])
  }

  /** Users are counted, and a thread inside StartUsingOutputPin is not one of them. */
  ghost predicate UseOk(s: Sys) {
    && PinOk(s.pin)
    && s.pin.users == |s.using|
    && OneRole(s)
  }

  /** A thread is waiting, woken or using the pin, or none of these, but no two of them. */
  ghost predicate OneRole(s: Sys) {
    && (forall t :: t in s.waiting || t in s.woken ==> t !in s.using)
    && (forall t :: t in s.waiting ==> t !in s.woken)
  }

  /** Requests accepted are those notified, then the one outstanding. */
  ghost predicate AccountOk(s: Sys) {
    && s.accepted == Requests(s.pin)
    && |s.accepted| == s.cancels + if s.pin.state == NOT_BLOCKED then 0 else 1
  }

  ghost predicate Inv(s: Sys) { UseOk(s) && AccountOk(s) }

  function Outstanding(p: Pin): seq<Handle> { if p.notify.Some? then [p.notify.value] else [] }

  lemma UseStep(s: Sys, step: Step)
    requires UseOk(s) && Enabled(s, step)
    ensures UseOk(Apply(s, step))
  {
    hide PinOk, AskBlock, Unblock, StopUsing, OneRole, Enter;
    PinStep(s, step);
    BlockedUnused(s);
    RoleStep(s, step);
  }

  lemma RoleStep(s: Sys, step: Step)
    requires OneRole(s) && Enabled(s, step) && (s.pin.state == BLOCKED ==> s.using == multiset{})
    ensures OneRole(Apply(s, step))
  {
    hide PinOk, AskBlock, Unblock, StopUsing, Enter;
    match step
    case Start(t) => EnterRole(s, t);
    case Resume(t) => EnterRole(s.(woken := s.woken - {t}), t);
    case Wake(t) => WakeRole(s, t, !s.pin.unblocked);
    case _ =>
  }

  lemma WakeRole(s: Sys, t: nat, aborted: bool)
    requires OneRole(s) && t in s.waiting
    ensures OneRole(s.(waiting := s.waiting - {t}, woken := s.woken[t := aborted]))
  {
  }

  lemma EnterRole(s: Sys, t: nat)
    requires OneRole(s) && t !in s.waiting && t !in s.woken && (s.pin.state == BLOCKED ==> s.using == multiset{})
    ensures OneRole(Enter(s, t))
  {
  }

  lemma BlockedUnused(s: Sys)
    requires UseOk(s)
    ensures s.pin.state == BLOCKED ==> s.using == multiset{}
    ensures s.pin.state == PENDING ==> s.using != multiset{}
  {
  }

  /** Each region keeps the block state consistent. */
  lemma RegionsKeepPinOk(p: Pin, thread: nat, h: Handle)
    requires PinOk(p)
    ensures thread > 0 ==> PinOk(AskBlock(p, thread, h).0) && AskBlock(p, thread, h).0.users == p.users
    ensures PinOk(Unblock(p).0) && Unblock(p).0.users == p.users
    ensures p.users > 0 ==> PinOk(StopUsing(p)) && StopUsing(p).users == p.users - 1
    ensures p.state != BLOCKED ==> PinOk(p.(users := p.users + 1))
  {
  }

  lemma PinStep(s: Sys, step: Step)
    requires UseOk(s) && Enabled(s, step)
    ensures PinOk(Apply(s, step).pin)
    ensures Apply(s, step).pin.users == s.pin.users + |Apply(s, step).using| - |s.using|
  {
    hide PinOk, AskBlock, Unblock, StopUsing;
    match step
    case AskBlockStep(t, h) => RegionsKeepPinOk(s.pin, t, h);
    case _ => RegionsKeepPinOk(s.pin, 0, 0);
  }

  /** Requests notified, then the one outstanding. */
  function Requests(p: Pin): seq<Handle> { Handles(p.notices) + Outstanding(p) }

  lemma AskSettles(p: Pin, thread: nat, h: Handle)
    requires PinOk(p)
    ensures var (r, hr) := AskBlock(p, thread, h);
      && Requests(r) == Requests(p) + (if hr == S_OK then [h] else [])
      && p.notices <= r.notices && (hr == S_OK <==> p.state == NOT_BLOCKED)
      && (hr == S_OK ==> r.state != NOT_BLOCKED) && (hr != S_OK ==> r == p)
  {
  }

  lemma UnblockSettles(p: Pin)
    requires PinOk(p)
    ensures var (r, hr) := Unblock(p);
      Requests(r) == Requests(p) && p.notices <= r.notices && r.state == NOT_BLOCKED && (hr == S_OK <==> p.state != NOT_BLOCKED)
  {
  }

  lemma StopSettles(p: Pin)
    requires PinOk(p) && p.users > 0
    ensures var r := StopUsing(p);
      Requests(r) == Requests(p) && p.notices <= r.notices && (r.state == NOT_BLOCKED <==> p.state == NOT_BLOCKED)
  {
  }

  lemma AccountStep(s: Sys, step: Step)
    requires UseOk(s) && AccountOk(s) && Enabled(s, step)
    ensures AccountOk(Apply(s, step)) && s.pin.notices <= Apply(s, step).pin.notices
  {
    hide Handles, PinOk, AskBlock, Unblock, StopUsing;
    match step
    case AskBlockStep(t, h) => AskSettles(s.pin, t, h);
    case UnblockStep => UnblockSettles(s.pin);
    case Stop(t) => StopSettles(s.pin);
    case _ =>
  }

  lemma {:induction false} InvStep(s: Sys, step: Step)
    requires Inv(s) && Enabled(s, step)
    ensures Inv(Apply(s, step)) && s.pin.notices <= Apply(s, step).pin.notices
  {
    hide UseOk, AccountOk, Apply, Enabled;
    UseStep(s, step);
    AccountStep(s, step);
  }

  // ---- Runs ----

  ghost predicate Possible(s: Sys, steps: seq<Step>)
    decreases |steps|
  {
    steps != [] ==> Enabled(s, steps[0]) && Possible(Apply(s, steps[0]), steps[1..])
  }

  ghost function Exec(s: Sys, steps: seq<Step>): Sys
    requires Possible(s, steps)
    decreases |steps|
  {
    if steps == [] then s else Exec(Apply(s, steps[0]), steps[1..])
  }

  lemma {:induction false} RunInv(s: Sys, steps: seq<Step>)
    requires Inv(s) && Possible(s, steps)
    ensures Inv(Exec(s, steps))
    decreases |steps|
  {
    hide Inv, Apply, Enabled;
    if steps == [] {
    } else {
      InvStep(s, steps[0]);
      RunInv(Apply(s, steps[0]), steps[1..]);
    }
  }

  ghost predicate Reachable(s: Sys) {
    exists steps :: Possible(INITIAL, steps) && Exec(INITIAL, steps) == s
  }

  lemma {:induction false} ReachableInv(s: Sys)
    requires Reachable(s)
    ensures Inv(s)
  {
    hide Apply, Enabled;
    var steps :| Possible(INITIAL, steps) && Exec(INITIAL, steps) == s;
    RunInv(INITIAL, steps);
  }

  /** The state the header describes, whenever the block lock is free. */
  lemma {:induction false} BlockStateConsistent(s: Sys)
    requires Reachable(s)
    ensures s.pin.state == BLOCKED ==> s.using == multiset{}
    ensures s.pin.state == PENDING ==> s.using != multiset{}
    ensures s.pin.notify.Some? <==> s.pin.state == PENDING
    ensures s.pin.unblocked <==> s.pin.state != BLOCKED
    ensures s.pin.caller == 0 <==> s.pin.state == NOT_BLOCKED
    ensures s.pin.users == |s.using|
  {
    hide Reachable, Handles;
    ReachableInv(s);
  }

  /**
   * Block requests are notified in the order they were accepted, each exactly once, save for
   * one still pending; and each accepted request but the current one was undone by one unblock.
   */
  lemma {:induction false} NotifiedExactlyOnce(s: Sys)
    requires Reachable(s)
    ensures s.accepted == Handles(s.pin.notices) + if s.pin.notify.Some? then [s.pin.notify.value] else []
    ensures |s.accepted| == s.cancels + if s.pin.state == NOT_BLOCKED then 0 else 1
  {
    hide Reachable, Handles;
    ReachableInv(s);
  }

  /** A thread that stays in StartUsingOutputPin's wait has a blocked pin and no stop request to thank. */
  lemma {:induction false} StuckOnlyWhileBlocked(s: Sys, t: nat)
    requires Reachable(s) && t in s.waiting
    ensures !Enabled(s, Wake(t)) <==> s.pin.state == BLOCKED && !s.stopped
  {
    hide Reachable, Handles;
    ReachableInv(s);
  }

  /** A thread already using the pin never waits for it, so nested use cannot deadlock. */
  lemma {:induction false} NestedUseNeverWaits(s: Sys, t: nat)
    requires Reachable(s) && t in s.using
    ensures Enabled(s, Start(t)) && t !in Apply(s, Start(t)).waiting
    ensures Apply(s, Start(t)).using == s.using + multiset{t}
  {
    hide Reachable, Handles;
    ReachableInv(s);
  }

  // ---- While the pin is blocked, and while a request is pending ----

  /** From blocking to the next unblock nobody starts using the pin, and no second request is accepted. */
  lemma {:induction false} NobodyStartsWhileBlocked(s: Sys, steps: seq<Step>)
    requires Inv(s) && s.pin.state == BLOCKED && Possible(s, steps)
    requires UnblockStep !in steps
    ensures var r := Exec(s, steps);
      r.pin.state == BLOCKED && r.using == multiset{} && r.accepted == s.accepted && r.pin.notices == s.pin.notices
    decreases |steps|
  {
    hide Handles;
    if steps != [] {
      StaysBlocked(s, steps[0]);
      InvStep(s, steps[0]);
      hide Apply, Enabled, Inv;
      NobodyStartsWhileBlocked(Apply(s, steps[0]), steps[1..]);
    } else {
      assert |s.using| == 0;
    }
  }

  lemma StaysBlocked(s: Sys, step: Step)
    requires Inv(s) && s.pin.state == BLOCKED && Enabled(s, step) && step != UnblockStep
    ensures Apply(s, step).pin == s.pin && Apply(s, step).accepted == s.accepted
  {
  }

  /** What a second request is told, by whether its thread made the first. */
  lemma {:induction false} RefusedUntilUnblocked(s: Sys, owner: nat, h: Handle, steps: seq<Step>, thread: nat, h2: Handle)
    requires Inv(s) && s.pin.state == NOT_BLOCKED && owner > 0
    requires Possible(Apply(s, AskBlockStep(owner, h)), steps) && UnblockStep !in steps
    ensures var r := Exec(Apply(s, AskBlockStep(owner, h)), steps);
      AskBlock(r.pin, thread, h2) ==
      (r.pin, if thread == owner then VFW_E_PIN_ALREADY_BLOCKED_ON_THIS_THREAD else VFW_E_PIN_ALREADY_BLOCKED)
  {
    InvStep(s, AskBlockStep(owner, h));
    OwnerKept(Apply(s, AskBlockStep(owner, h)), steps);
  }

  lemma {:induction false} OwnerKept(s: Sys, steps: seq<Step>)
    requires Inv(s) && s.pin.state != NOT_BLOCKED && Possible(s, steps) && UnblockStep !in steps
    ensures Exec(s, steps).pin.state != NOT_BLOCKED && Exec(s, steps).pin.caller == s.pin.caller
    decreases |steps|
  {
    hide Inv, Apply, Enabled;
    if steps == [] {
    } else {
      OwnerKeptOnce(s, steps[0]);
      InvStep(s, steps[0]);
      OwnerKept(Apply(s, steps[0]), steps[1..]);
    }
  }

  lemma OwnerKeptOnce(s: Sys, step: Step)
    requires Inv(s) && s.pin.state != NOT_BLOCKED && Enabled(s, step) && step != UnblockStep
    ensures Apply(s, step).pin.state != NOT_BLOCKED && Apply(s, step).pin.caller == s.pin.caller
  {
    hide Handles, AccountOk, PinOk, OneRole, Unblock, AskBlock, StopUsing, Enter;
    match step
    case AskBlockStep(t, h) => AskStays(s.pin, t, h);
    case Start(t) => EnterLeaves(s, t);
    case Resume(t) => EnterLeaves(s.(woken := s.woken - {t}), t);
    case Stop(t) => OwnerStays(s.pin);
    case _ =>
  }

  lemma AskStays(p: Pin, thread: nat, h: Handle)
    requires p.state != NOT_BLOCKED
    ensures AskBlock(p, thread, h).0 == p
  {
  }

  lemma OwnerStays(p: Pin)
    requires PinOk(p) && p.state != NOT_BLOCKED && p.users > 0
    ensures StopUsing(p).state != NOT_BLOCKED && StopUsing(p).caller == p.caller
  {
  }

  lemma EnterLeaves(s: Sys, t: nat)
    ensures Enter(s, t).pin.state == s.pin.state && Enter(s, t).pin.caller == s.pin.caller
    ensures Enter(s, t).woken == s.woken
  {
  }

  /** Until a woken thread goes on, nothing changes why it woke. */
  lemma {:induction false} StaysWoken(s: Sys, t: nat, steps: seq<Step>)
    requires Inv(s) && t in s.woken && Possible(s, steps) && Resume(t) !in steps
    ensures var e := Exec(s, steps); Inv(e) && t in e.woken && e.woken[t] == s.woken[t]
    decreases |steps|
  {
    hide PinOk, AskBlock, Unblock, StopUsing, AccountOk, Handles;
    if steps == [] {
    } else {
      InvStep(s, steps[0]);
      StillWoken(s, t, steps[0]);
      StaysWoken(Apply(s, steps[0]), t, steps[1..]);
    }
  }

  lemma StillWoken(s: Sys, t: nat, step: Step)
    requires OneRole(s) && t in s.woken && Enabled(s, step) && step != Resume(t)
    ensures t in Apply(s, step).woken && Apply(s, step).woken[t] == s.woken[t]
  {
    hide PinOk, AskBlock, Unblock, StopUsing, Enter, OneRole;
    match step
    case Start(u) => EnterLeaves(s, u);
    case Resume(u) => EnterLeaves(s.(woken := s.woken - {u}), u);
    case Wake(u) => NotBoth(s, t);
    case _ =>
  }

  lemma NotBoth(s: Sys, t: nat)
    requires OneRole(s) && t in s.woken
    ensures t !in s.waiting
  {
  }

  /**
   * How a wait ends, whatever other threads do between the wake-up and the thread's going on. A
   * thread the unblock event woke begins to use the pin, or waits again if the pin has been blocked
   * anew; one the stop event woke gives up, and does neither. Both events set, it is the first.
   */
  lemma {:induction false} HowAWaitEnds(s: Sys, t: nat, steps: seq<Step>)
    requires Inv(s) && Enabled(s, Wake(t))
    requires Possible(Apply(s, Wake(t)), steps) && Resume(t) !in steps
    ensures var e := Exec(Apply(s, Wake(t)), steps);
      && Enabled(e, Resume(t))
      && var r := Apply(e, Resume(t));
      && t !in r.woken && r.pin.state == e.pin.state && t !in e.using
      && (s.pin.unblocked && e.pin.state != BLOCKED ==>
            r.using == e.using + multiset{t} && r.pin.users == e.pin.users + 1 && t !in r.waiting)
      && (s.pin.unblocked && e.pin.state == BLOCKED ==> r.using == e.using && t in r.waiting)
      && (!s.pin.unblocked ==> s.stopped && r.using == e.using && r.pin == e.pin && t !in r.waiting)
  {
    hide PinOk, AskBlock, Unblock, StopUsing, AccountOk, Handles, Exec, Possible;
    InvStep(s, Wake(t));
    StaysWoken(Apply(s, Wake(t)), t, steps);
  }

  /** Once the stop event is set, and until it is reset, no thread is stuck waiting for the pin. */
  lemma {:induction false} StopFreesWaiters(s: Sys, steps: seq<Step>, t: nat)
    requires Possible(Apply(s, SetStop(true)), steps) && SetStop(false) !in steps
    ensures var e := Exec(Apply(s, SetStop(true)), steps); t in e.waiting ==> Enabled(e, Wake(t))
  {
    StaysStopped(Apply(s, SetStop(true)), steps);
  }

  lemma {:induction false} StaysStopped(s: Sys, steps: seq<Step>)
    requires s.stopped && Possible(s, steps) && SetStop(false) !in steps
    ensures Exec(s, steps).stopped
    decreases |steps|
  {
    hide PinOk, AskBlock, Unblock, StopUsing;
    if steps == [] {
    } else {
      StaysStopped(Apply(s, steps[0]), steps[1..]);
    }
  }

  /** The number of users never falls to zero in a run from s. */
  ghost predicate AlwaysUsed(s: Sys, steps: seq<Step>)
    requires Possible(s, steps)
    decreases |steps|
  {
    s.using != multiset{} && (steps != [] ==> AlwaysUsed(Apply(s, steps[0]), steps[1..]))
  }

  lemma PendingRegions(p: Pin, thread: nat, h: Handle)
    requires PinOk(p) && p.state == PENDING
    ensures AskBlock(p, thread, h).0 == p
    ensures Unblock(p).0.state == NOT_BLOCKED && Unblock(p).0.notices == p.notices + [Notice(p.notify.value, false)]
    ensures var r := StopUsing(p);
      if p.users == 1 then r.state == BLOCKED && r.notices == p.notices + [Notice(p.notify.value, true)]
      else r.state == PENDING && r.notices == p.notices && r.notify == p.notify
  {
  }

  /** What settles a pending request: the last user leaving, or an unblock. */
  lemma StillPending(s: Sys, step: Step)
    requires Inv(s) && s.pin.state == PENDING && Enabled(s, step)
    ensures var r := Apply(s, step);
      && (r.pin.state == PENDING <==> step != UnblockStep && r.using != multiset{})
      && (r.pin.state == PENDING ==> r.pin.notices == s.pin.notices && r.pin.notify == s.pin.notify)
      && (r.pin.state != PENDING ==>
            r.pin.notices == s.pin.notices + [Notice(s.pin.notify.value, step != UnblockStep)])
  {
    hide PinOk, AskBlock, Unblock, StopUsing, AccountOk;
    BlockedUnused(s);
    match step
    case AskBlockStep(t, h) => PendingRegions(s.pin, t, h);
    case _ => PendingRegions(s.pin, 0, 0);
  }

  lemma {:induction false} NoticesGrow(s: Sys, steps: seq<Step>)
    requires Inv(s) && Possible(s, steps)
    ensures s.pin.notices <= Exec(s, steps).pin.notices
    decreases |steps|
  {
    hide Inv, Apply, Enabled;
    if steps == [] {
    } else {
      InvStep(s, steps[0]);
      NoticesGrow(Apply(s, steps[0]), steps[1..]);
    }
  }

  /** A pending request is left unnotified by a run exactly when the pin was in use throughout it and nobody unblocked. */
  lemma {:induction false} PendingUntilUnused(s: Sys, steps: seq<Step>)
    requires Inv(s) && s.pin.state == PENDING && Possible(s, steps)
    ensures Exec(s, steps).pin.notices == s.pin.notices <==> AlwaysUsed(s, steps) && UnblockStep !in steps
    decreases |steps|
  {
    PendingIsUsed(s);
    hide Inv, Apply, Enabled, Handles;
    if steps == [] {
    } else {
      var r := Apply(s, steps[0]);
      StillPending(s, steps[0]);
      InvStep(s, steps[0]);
      if r.pin.state == PENDING {
        PendingUntilUnused(r, steps[1..]);
      } else {
        NoticesGrow(r, steps[1..]);
        if steps[0] != UnblockStep {
          assert !AlwaysUsed(r, steps[1..]);
        }
      }
    }
  }

  lemma PendingIsUsed(s: Sys)
    requires Inv(s) && s.pin.state == PENDING
    ensures s.using != multiset{}
  {
  }

  lemma {:induction false} AcceptedGrows(s: Sys, steps: seq<Step>)
    requires Possible(s, steps)
    ensures s.accepted <= Exec(s, steps).accepted
    decreases |steps|
  {
    hide Enabled, PinOk, AskBlock, Unblock, StopUsing;
    if steps == [] {
    } else {
      AcceptedGrows(Apply(s, steps[0]), steps[1..]);
    }
  }

  /**
   * A synchronous caller waits for an event of its own. Over any run after its request was
   * accepted it is still waiting exactly when the pin was in use throughout and nobody unblocked.
   */
  lemma {:induction false} SynchronousCallerWaits(s: Sys, owner: nat, own: Handle, steps: seq<Step>)
    requires Inv(s) && s.pin.state == NOT_BLOCKED && owner > 0 && own !in s.accepted
    requires Possible(Apply(s, AskBlockStep(owner, own)), steps)
    ensures var r := Apply(s, AskBlockStep(owner, own));
      own !in Handles(Exec(r, steps).pin.notices) <==> AlwaysUsed(r, steps) && UnblockStep !in steps
  {
    var step := AskBlockStep(owner, own);
    var r := Apply(s, step);
    var e := Exec(r, steps);
    InvStep(s, step);
    RunInv(r, steps);
    NoticesGrow(r, steps);
    AcceptedGrows(r, steps);
    AskedLast(s, owner, own);
    var k := |s.accepted|;
    hide Inv, Apply, Enabled, Exec, Possible;
    if r.pin.state == PENDING {
      PendingUntilUnused(r, steps);
      NotifiedMeans(e);
      if e.pin.notices == r.pin.notices {
        assert Handles(e.pin.notices) == s.accepted;
      } else {
        assert |Handles(e.pin.notices)| > k;
        assert Handles(e.pin.notices)[k] == e.accepted[k] == r.accepted[k] == own;
      }
    } else {
      NotifiedMeans(e);
      assert |Handles(e.pin.notices)| > k;
      assert Handles(e.pin.notices)[k] == e.accepted[k] == r.accepted[k] == own;
    }
  }

  lemma NotifiedMeans(s: Sys)
    requires Inv(s)
    ensures s.accepted == Handles(s.pin.notices) + Outstanding(s.pin)
    ensures s.pin.state == BLOCKED ==> s.using == multiset{}
  {
    hide Handles;
    BlockedUnused(s);
  }

  lemma AskedLast(s: Sys, owner: nat, own: Handle)
    requires Inv(s) && s.pin.state == NOT_BLOCKED && owner > 0
    ensures var r := Apply(s, AskBlockStep(owner, own));
      && r.accepted == s.accepted + [own]
      && (if r.pin.state == PENDING then Handles(r.pin.notices) == s.accepted
          else r.pin.state == BLOCKED && Handles(r.pin.notices) == s.accepted + [own] && r.using == multiset{})
  {
    var r := Apply(s, AskBlockStep(owner, own));
    InvStep(s, AskBlockStep(owner, own));
    NotifiedMeans(s);
    NotifiedMeans(r);
    hide Handles;
  }
}

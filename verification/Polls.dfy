/**
 Waiting for several kernel objects at once (kernel/poll.c), for pollers in MODE_POLL.
 Every critical section is a step; signals, timeouts and the steps of other threads fall
 between them in any order.
 */
module Polls {
  import opened Options
  import opened Sequences
  import opened WaitQueues

  type Obj = nat

  /** `K_POLL_TYPE_IGNORE`, or any type that watches an object. */
  datatype Kind = Ignore | Watch(obj: Obj)

  /**
   `struct k_poll_event`: `polled` says whether `poller` is set, `state` which state bits are.
   `before` and `raised` note the bits there were when the call began, and those set since.
   */
  datatype Event = Event(kind: Kind, state: set<nat>, polled: bool, before: set<nat>, raised: set<nat>)

  datatype Code = Ok | EAgain | EIntr

  /** Where a call of `k_poll` stands. */
  datatype Phase =
    | Register(next: nat)           // in register_events
    | Decide                        // about to look at is_polling
    | Pended
    | Woken(code: Code)
    | Clear(left: nat, code: Code)  // in clear_event_registrations
    | Return(code: Code)

  datatype Poll = Poll(events: seq<Event>, phase: Phase, isPolling: bool, registered: nat, noWait: bool, prio: int)

  /** An object: whether its condition holds, and its list of registered events. */
  datatype Object = Object(ready: bool, list: seq<Waiter<nat>>)

  datatype State = State(polls: map<Thread, Poll>, objs: map<Obj, Object>)

  const CANCELLED: nat := 0x2

  function Link(t: Thread, p: Poll, i: nat): Waiter<nat> {
    Waiter(t, p.prio, i)
  }

  // ----- what every reachable state keeps -----

  /** Number of leading events that may still be registered. */
  function Bound(p: Poll): nat {
    match p.phase
    case Clear(left, _) => left
    case Return(_) => 0
    case _ => p.registered
  }

  /** Nothing has happened yet to a call that is going to wait, or waits. */
  predicate Quiet(p: Poll) {
    match p.phase
    case Register(_) => p.isPolling && !p.noWait
    case Decide => p.isPolling && !p.noWait
    case Pended => true
    case _ => false
  }

  /** Number of events a quiet call has registered. */
  function Reached(p: Poll): nat {
    match p.phase
    case Register(next) => next
    case _ => |p.events|
  }

  /** Some event has become ready during this call. */
  ghost predicate SomeReady(p: Poll) {
    exists i :: 0 <= i < |p.events| && p.events[i].raised != {}
  }

  /** Some event is ready whenever the call is bound to report success. */
  ghost predicate Justified(p: Poll) {
    match p.phase
    case Register(_) => p.isPolling || SomeReady(p)
    case Decide => p.isPolling || SomeReady(p)
    case Pended => true
    case Woken(code) => code == Ok ==> SomeReady(p)
    case Clear(_, code) => code == Ok ==> SomeReady(p)
    case Return(code) => code == Ok ==> SomeReady(p)
  }

  ghost predicate Linked(s: State, t: Thread, i: nat)
    requires t in s.polls && i < |s.polls[t].events|
  {
    var e := s.polls[t].events[i];
    e.kind.Watch? ==> e.kind.obj in s.objs && Link(t, s.polls[t], i) in s.objs[e.kind.obj].list
  }

  ghost predicate PollOk(s: State, t: Thread)
    requires t in s.polls
  {
    var p := s.polls[t];
    && p.registered <= |p.events| && Bound(p) <= p.registered && (p.noWait ==> p.registered == 0)
    && (p.phase.Register? ==> p.phase.next <= |p.events| && p.registered <= p.phase.next)
    && (forall i :: 0 <= i < |p.events| && p.events[i].polled ==> i < Bound(p))
    && (Quiet(p) ==> p.registered == Reached(p) && forall i :: 0 <= i < Reached(p) ==> Linked(s, t, i) && p.events[i].polled)
    && (forall i :: 0 <= i < |p.events| ==> p.events[i].state == p.events[i].before + p.events[i].raised)
    && Justified(p)
  }

  /** What is on an object's list is a registered event of that object. */
  ghost predicate LinkOk(s: State, o: Obj, w: Waiter<nat>) {
    && w.thread in s.polls && w.info < |s.polls[w.thread].events|
    && w.prio == s.polls[w.thread].prio
    && s.polls[w.thread].events[w.info].kind == Watch(o) && s.polls[w.thread].events[w.info].polled
  }

  ghost predicate Inv(s: State) {
    && (forall t :: t in s.polls ==> PollOk(s, t))
    && (forall o, w :: o in s.objs && w in s.objs[o].list ==> LinkOk(s, o, w))
    && (forall o :: o in s.objs ==> ListOk(s.objs[o].list))
    && (forall t, i :: t in s.polls && 0 <= i < |s.polls[t].events| && s.polls[t].events[i].kind.Watch? ==>
          s.polls[t].events[i].kind.obj in s.objs)
  }

  // ----- steps -----

  function SetPoll(s: State, t: Thread, p: Poll): State {
    s.(polls := s.polls[t := p])
  }

  /** `set_event_ready`. */
  function Ready(e: Event, bit: nat): Event {
    e.(state := e.state + {bit}, polled := false, raised := e.raised + {bit})
  }

  /** One round of `register_events`. `bit` is the state the condition would set. */
  function RegisterStep(s: State, t: Thread, bit: nat): State
    requires t in s.polls && s.polls[t].phase.Register? && s.polls[t].phase.next < |s.polls[t].events|
  {
    var p := s.polls[t];
    var i := p.phase.next;
    var e := p.events[i];
    var p1 := p.(phase := if i + 1 == |p.events| then Decide else Register(i + 1));
    if e.kind.Watch? && e.kind.obj in s.objs && s.objs[e.kind.obj].ready then
      SetPoll(s, t, p1.(events := p.events[i := Ready(e, bit)], isPolling := false))
    else if !p.noWait && p.isPolling then
      var s1 := SetPoll(s, t, p1.(events := p.events[i := e.(polled := true)], registered := p.registered + 1));
      if e.kind.Watch? && e.kind.obj in s.objs then
        s1.(objs := s.objs[e.kind.obj := s.objs[e.kind.obj].(list := Pend(s.objs[e.kind.obj].list, Link(t, p, i)))])
      else s1
    else SetPoll(s, t, p1)
  }

  /** A call whose own record and links are untouched is unaffected. */
  lemma OtherPoll(s: State, s': State, t: Thread)
    requires t in s.polls && t in s'.polls && s'.polls[t] == s.polls[t] && PollOk(s, t) && s.objs.Keys <= s'.objs.Keys
    requires forall o, i: nat :: o in s.objs && Link(t, s.polls[t], i) in s.objs[o].list ==> Link(t, s.polls[t], i) in s'.objs[o].list
    ensures PollOk(s', t)
  {
    var p := s.polls[t];
    if Quiet(p) {
      forall i | 0 <= i < Reached(p) ensures Linked(s', t, i) {
        assert Linked(s, t, i);
      }
    }
  }

  /** The first look at `is_polling`: done, nothing to wait for, or wait. */
  function DecideStep(s: State, t: Thread): State
    requires t in s.polls
  {
    var p := s.polls[t];
    if !p.isPolling then SetPoll(s, t, p.(phase := StartClear(p.registered, Ok)))
    else SetPoll(s, t, p.(isPolling := false, phase := if p.noWait then Return(EAgain) else Pended))
  }

  function StartClear(registered: nat, code: Code): Phase {
    if registered == 0 then Return(code) else Clear(registered, code)
  }

  /** `z_handle_obj_poll_events`: the first registered event is taken off the list, its
      poller told and, when it waits, woken. */
  function SignalStep(s: State, o: Obj, bit: nat): State
    requires o in s.objs
  {
    var q := s.objs[o].list;
    if q == [] || q[0].thread !in s.polls || q[0].info >= |s.polls[q[0].thread].events| then s
    else
      var t, i := q[0].thread, q[0].info;
      var p := s.polls[t];
      var phase := if p.phase.Pended? then Woken(if bit == CANCELLED then EIntr else Ok) else p.phase;
      s.(polls := s.polls[t := p.(events := p.events[i := Ready(p.events[i], bit)], isPolling := false, phase := phase)],
         objs := s.objs[o := s.objs[o].(list := q[1..])])
  }

  /** One round of `clear_event_registrations`. */
  function ClearStep(s: State, t: Thread): State
    requires t in s.polls && s.polls[t].phase.Clear? && 0 < s.polls[t].phase.left <= |s.polls[t].events|
  {
    var p := s.polls[t];
    var i := p.phase.left - 1;
    var e := p.events[i];
    var s1 := SetPoll(s, t, p.(events := p.events[i := e.(polled := false)], phase := StartClear(i, p.phase.code)));
    if e.kind.Watch? && e.kind.obj in s.objs && Link(t, p, i) in s.objs[e.kind.obj].list then
      var q := s.objs[e.kind.obj].list;
      s1.(objs := s.objs[e.kind.obj := s.objs[e.kind.obj].(list := RemoveAt(q, IndexOf(q, Link(t, p, i))))])
    else s1
  }

  /** An event that has no poller is on no list. */
  lemma Unlisted(s: State, t: Thread, i: nat, o: Obj)
    requires Inv(s) && t in s.polls && i < |s.polls[t].events| && !s.polls[t].events[i].polled && o in s.objs
    ensures Link(t, s.polls[t], i) !in s.objs[o].list
  {
    assert Link(t, s.polls[t], i) in s.objs[o].list ==> LinkOk(s, o, Link(t, s.polls[t], i));
  }

  /** A call stops polling only when some event has become ready. */
  lemma RegisterJustified(s: State, t: Thread, bit: nat)
    requires t in s.polls && s.polls[t].phase.Register? && s.polls[t].phase.next < |s.polls[t].events|
    requires Justified(s.polls[t])
    ensures Justified(RegisterStep(s, t, bit).polls[t])
  {
    hide Pend;
    var p, p' := s.polls[t], RegisterStep(s, t, bit).polls[t];
    var i := p.phase.next;
    if SomeReady(p) {
      var j :| 0 <= j < |p.events| && p.events[j].raised != {};
      assert p'.events[j].raised != {};
    } else if !p'.isPolling {
      assert p'.events[i].raised != {};
    }
  }

  lemma RegisterOwn(s: State, t: Thread, bit: nat)
    requires Inv(s) && t in s.polls && s.polls[t].phase.Register? && s.polls[t].phase.next < |s.polls[t].events|
    ensures PollOk(RegisterStep(s, t, bit), t)
  {
    hide ListOk, Pend, Justified;
    var s' := RegisterStep(s, t, bit);
    var p, p' := s.polls[t], s'.polls[t];
    var i := p.phase.next;
    var e := p.events[i];
    assert PollOk(s, t);
    RegisterJustified(s, t, bit);
    if Quiet(p') {
      if e.kind.Watch? {
        Unlisted(s, t, i, e.kind.obj);
        PendList(s.objs[e.kind.obj].list, Link(t, p, i));
      }
      forall j | 0 <= j < Reached(p') ensures Linked(s', t, j) && p'.events[j].polled {
        if j < i { assert Linked(s, t, j); }
      }
    }
  }

  lemma RegisterKeeps(s: State, t: Thread, bit: nat)
    requires Inv(s) && t in s.polls && s.polls[t].phase.Register? && s.polls[t].phase.next < |s.polls[t].events|
    ensures Inv(RegisterStep(s, t, bit))
  {
    hide ListOk, Pend, PollOk;
    RegisterOwn(s, t, bit);
    var s' := RegisterStep(s, t, bit);
    var p := s.polls[t];
    var i := p.phase.next;
    var e := p.events[i];
    NotYet(s, t);
    forall o | o in s.objs ensures Link(t, p, i) !in s.objs[o].list {
      Unlisted(s, t, i, o);
    }
    if e.kind.Watch? { PendList(s.objs[e.kind.obj].list, Link(t, p, i)); }
    forall u | u in s'.polls && u != t ensures PollOk(s', u) {
      OtherPoll(s, s', u);
    }
    forall o, w | o in s'.objs && w in s'.objs[o].list ensures LinkOk(s', o, w) {
      if w != Link(t, p, i) { assert LinkOk(s, o, w); }
    }
  }

  lemma NotYet(s: State, t: Thread)
    requires Inv(s) && t in s.polls && s.polls[t].phase.Register? && s.polls[t].phase.next < |s.polls[t].events|
    ensures !s.polls[t].events[s.polls[t].phase.next].polled
  {
    assert PollOk(s, t);
  }

  /** Changing where a call stands, when the call itself stays in order. */
  lemma PhaseKeeps(s: State, t: Thread, p: Poll)
    requires Inv(s) && t in s.polls && p.events == s.polls[t].events && p.prio == s.polls[t].prio && PollOk(SetPoll(s, t, p), t)
    ensures Inv(SetPoll(s, t, p))
  {
    hide ListOk, PollOk;
    var s' := SetPoll(s, t, p);
    forall u | u in s'.polls && u != t ensures PollOk(s', u) {
      OtherPoll(s, s', u);
    }
    forall o, w | o in s'.objs && w in s'.objs[o].list ensures LinkOk(s', o, w) {
      assert LinkOk(s, o, w);
    }
  }

  lemma SamePoll(s: State, t: Thread, p: Poll)
    requires t in s.polls && PollOk(s, t) && p.events == s.polls[t].events && p.prio == s.polls[t].prio
    requires p.registered == s.polls[t].registered && p.noWait == s.polls[t].noWait && Bound(p) == Bound(s.polls[t]) && !p.phase.Register?
    requires Quiet(p) ==> Quiet(s.polls[t]) && Reached(p) == Reached(s.polls[t])
    requires Justified(p)
    ensures PollOk(SetPoll(s, t, p), t)
  {
    var s' := SetPoll(s, t, p);
    if Quiet(p) {
      forall i | 0 <= i < Reached(p) ensures Linked(s', t, i) {
        assert Linked(s, t, i);
      }
    }
  }

  lemma DecideKeeps(s: State, t: Thread)
    requires Inv(s) && t in s.polls && s.polls[t].phase == Decide
    ensures Inv(DecideStep(s, t))
  {
    var p' := DecideStep(s, t).polls[t];
    assert PollOk(s, t) && s.polls[t].events == p'.events;
    SamePoll(s, t, p');
    PhaseKeeps(s, t, p');
  }

  lemma MoveKeeps(s: State, t: Thread, phase: Phase)
    requires Inv(s) && t in s.polls
    requires (s.polls[t].phase == Pended && phase == Woken(EAgain))
      || (s.polls[t].phase.Woken? && phase == StartClear(s.polls[t].registered, s.polls[t].phase.code))
    ensures Inv(SetPoll(s, t, s.polls[t].(phase := phase)))
  {
    assert PollOk(s, t);
    SamePoll(s, t, s.polls[t].(phase := phase));
    PhaseKeeps(s, t, s.polls[t].(phase := phase));
  }

  lemma SignalOwn(s: State, o: Obj, bit: nat)
    requires Inv(s) && o in s.objs && s.objs[o].list != [] && LinkOk(s, o, s.objs[o].list[0])
    ensures PollOk(SignalStep(s, o, bit), s.objs[o].list[0].thread)
  {
    hide ListOk;
    var s' := SignalStep(s, o, bit);
    var t, i := s.objs[o].list[0].thread, s.objs[o].list[0].info;
    assert PollOk(s, t);
    assert s'.polls[t].events[i].raised != {};
  }

  lemma SignalKeeps(s: State, o: Obj, bit: nat)
    requires Inv(s) && o in s.objs
    ensures Inv(SignalStep(s, o, bit))
  {
    hide ListOk, PollOk;
    var q := s.objs[o].list;
    if q != [] {
      assert LinkOk(s, o, q[0]);
      SignalOwn(s, o, bit);
      UnpendList(q, 0);
      assert RemoveAt(q, 0) == q[1..];
      var s' := SignalStep(s, o, bit);
      forall u | u in s'.polls && u != q[0].thread ensures PollOk(s', u) {
        OtherPoll(s, s', u);
      }
      forall r, w | r in s'.objs && w in s'.objs[r].list ensures LinkOk(s', r, w) {
        assert LinkOk(s, r, w);
      }
    }
  }

  lemma ClearOwn(s: State, t: Thread)
    requires Inv(s) && t in s.polls && s.polls[t].phase.Clear? && 0 < s.polls[t].phase.left <= |s.polls[t].events|
    ensures PollOk(ClearStep(s, t), t)
  {
    hide ListOk, RemoveAt, IndexOf;
    var s' := ClearStep(s, t);
    var p, p' := s.polls[t], s'.polls[t];
    assert PollOk(s, t);
    if SomeReady(p) {
      var j :| 0 <= j < |p.events| && p.events[j].raised != {};
      assert p'.events[j].raised != {};
    }
  }

  lemma ClearKeeps(s: State, t: Thread)
    requires Inv(s) && t in s.polls && s.polls[t].phase.Clear? && 0 < s.polls[t].phase.left <= |s.polls[t].events|
    ensures Inv(ClearStep(s, t))
  {
    hide ListOk, PollOk, RemoveAt, IndexOf;
    ClearOwn(s, t);
    var s' := ClearStep(s, t);
    var p := s.polls[t];
    var i := p.phase.left - 1;
    var e := p.events[i];
    if e.kind.Watch? && Link(t, p, i) in s.objs[e.kind.obj].list {
      UnpendList(s.objs[e.kind.obj].list, IndexOf(s.objs[e.kind.obj].list, Link(t, p, i)));
    }
    forall u | u in s'.polls && u != t ensures PollOk(s', u) {
      OtherPoll(s, s', u);
    }
    forall o, w | o in s'.objs && w in s'.objs[o].list ensures LinkOk(s', o, w) {
      assert LinkOk(s, o, w);
    }
  }

  /** The events as a call finds them: whatever bits they have were there before. */
  function Opened(events: seq<Event>): seq<Event> {
    seq(|events|, i requires 0 <= i < |events| => events[i].(before := events[i].state, raised := {}))
  }

  /** A call begins, or a thread calls again after its last call returned. */
  function StartStep(s: State, t: Thread, events: seq<Event>, noWait: bool, prio: int): State {
    SetPoll(s, t, Poll(Opened(events), if events == [] then Decide else Register(0), true, 0, noWait, prio))
  }

  ghost predicate CanStart(s: State, t: Thread, events: seq<Event>) {
    && (t in s.polls ==> s.polls[t].phase.Return?)
    && forall i :: 0 <= i < |events| ==> !events[i].polled && (events[i].kind.Watch? ==> events[i].kind.obj in s.objs)
  }

  lemma StartKeeps(s: State, t: Thread, events: seq<Event>, noWait: bool, prio: int)
    requires Inv(s) && CanStart(s, t, events)
    ensures Inv(StartStep(s, t, events, noWait, prio))
  {
    hide ListOk;
    var s' := StartStep(s, t, events, noWait, prio);
    forall o, w | o in s'.objs && w in s'.objs[o].list ensures LinkOk(s', o, w) {
      assert LinkOk(s, o, w) && PollOk(s, w.thread);
    }
    forall u | u in s'.polls && u != t ensures PollOk(s', u) {
      OtherPoll(s, s', u);
    }
  }

  /** An object's condition starts or stops holding. */
  lemma ConditionKeeps(s: State, o: Obj, ready: bool)
    requires Inv(s) && o in s.objs
    ensures Inv(s.(objs := s.objs[o := s.objs[o].(ready := ready)]))
  {
    hide ListOk, PollOk;
    var s' := s.(objs := s.objs[o := s.objs[o].(ready := ready)]);
    forall u | u in s'.polls ensures PollOk(s', u) {
      OtherPoll(s, s', u);
    }
    forall r, w | r in s'.objs && w in s'.objs[r].list ensures LinkOk(s', r, w) {
      assert LinkOk(s, r, w);
    }
  }

  /** `k_poll_signal_raise`: the condition and the signal in one critical section. */
  function RaiseStep(s: State, o: Obj, bit: nat): State
    requires o in s.objs
  {
    SignalStep(s.(objs := s.objs[o := s.objs[o].(ready := true)]), o, bit)
  }

  lemma RaiseKeeps(s: State, o: Obj, bit: nat)
    requires Inv(s) && o in s.objs
    ensures Inv(RaiseStep(s, o, bit))
  {
    hide Inv, SignalStep;
    ConditionKeeps(s, o, true);
    SignalKeeps(s.(objs := s.objs[o := s.objs[o].(ready := true)]), o, bit);
  }

  // ----- every run -----

  datatype Step =
    | DoStart(t: Thread, events: seq<Event>, noWait: bool, prio: int)
    | DoRegister(t: Thread, bit: nat)
    | DoDecide(t: Thread)
    | DoExpire(t: Thread)
    | DoResume(t: Thread)
    | DoClear(t: Thread)
    | DoSignal(o: Obj, bit: nat)
    | DoCondition(o: Obj, ready: bool)
    | DoRaise(o: Obj, bit: nat)

  ghost predicate Enabled(s: State, step: Step) {
    match step
    case DoStart(t, events, _, _) => CanStart(s, t, events)
    case DoRegister(t, _) => t in s.polls && s.polls[t].phase.Register? && s.polls[t].phase.next < |s.polls[t].events|
    case DoDecide(t) => t in s.polls && s.polls[t].phase == Decide
    case DoExpire(t) => t in s.polls && s.polls[t].phase == Pended
    case DoResume(t) => t in s.polls && s.polls[t].phase.Woken?
    case DoClear(t) => t in s.polls && s.polls[t].phase.Clear? && 0 < s.polls[t].phase.left <= |s.polls[t].events|
    case DoSignal(o, _) => o in s.objs
    case DoCondition(o, _) => o in s.objs
    case DoRaise(o, _) => o in s.objs
  }

  ghost function Do(s: State, step: Step): State {
    if !Enabled(s, step) then s
    else
      match step
      case DoStart(t, events, noWait, prio) => StartStep(s, t, events, noWait, prio)
      case DoRegister(t, bit) => RegisterStep(s, t, bit)
      case DoDecide(t) => DecideStep(s, t)
      case DoExpire(t) => SetPoll(s, t, s.polls[t].(phase := Woken(EAgain)))
      case DoResume(t) => SetPoll(s, t, s.polls[t].(phase := StartClear(s.polls[t].registered, s.polls[t].phase.code)))
      case DoClear(t) => ClearStep(s, t)
      case DoSignal(o, bit) => SignalStep(s, o, bit)
      case DoCondition(o, ready) => s.(objs := s.objs[o := s.objs[o].(ready := ready)])
      case DoRaise(o, bit) => RaiseStep(s, o, bit)
  }

  lemma StepKeeps(s: State, step: Step)
    requires Inv(s)
    ensures Inv(Do(s, step))
  {
    hide Inv, RegisterStep, DecideStep, ClearStep, SignalStep, RaiseStep, StartStep;
    if Enabled(s, step) {
      match step
      case DoStart(t, events, noWait, prio) => StartKeeps(s, t, events, noWait, prio);
      case DoRegister(t, bit) => RegisterKeeps(s, t, bit);
      case DoDecide(t) => DecideKeeps(s, t);
      case DoExpire(t) => MoveKeeps(s, t, Woken(EAgain));
      case DoResume(t) => MoveKeeps(s, t, StartClear(s.polls[t].registered, s.polls[t].phase.code));
      case DoClear(t) => ClearKeeps(s, t);
      case DoSignal(o, bit) => SignalKeeps(s, o, bit);
      case DoCondition(o, ready) => ConditionKeeps(s, o, ready);
      case DoRaise(o, bit) => RaiseKeeps(s, o, bit);
    }
  }

  ghost function RunAll(s: State, steps: seq<Step>): State
    decreases |steps|
  {
    if steps == [] then s else RunAll(Do(s, steps[0]), steps[1..])
  }

  lemma {:induction false} RunKeeps(s: State, steps: seq<Step>)
    requires Inv(s)
    ensures Inv(RunAll(s, steps))
    decreases |steps|
  {
    hide Inv, Do;
    if steps != [] {
      StepKeeps(s, steps[0]);
      RunKeeps(Do(s, steps[0]), steps[1..]);
    }
  }

  /** No wake-up is lost: whatever happened before, a thread that waits in `k_poll` has
      every event it asked for on the list of that event's object, so the next signal of
      any of those objects that gets to it wakes it. */
  lemma NoLostWakeup(s: State, steps: seq<Step>, t: Thread, i: nat)
    requires Inv(s)
    ensures var s' := RunAll(s, steps);
      t in s'.polls && s'.polls[t].phase == Pended && i < |s'.polls[t].events| && s'.polls[t].events[i].kind.Watch? ==>
        var o := s'.polls[t].events[i].kind.obj; o in s'.objs && Link(t, s'.polls[t], i) in s'.objs[o].list
  {
    RunKeeps(s, steps);
    var s' := RunAll(s, steps);
    if t in s'.polls && s'.polls[t].phase == Pended && i < |s'.polls[t].events| {
      assert PollOk(s', t) && Linked(s', t, i);
    }
  }

  /** The registered events are the first ones: over every run no event beyond those counted
      as registered has a poller, and while nothing has happened yet all of them have one. */
  lemma RegisteredPrefix(s: State, steps: seq<Step>, t: Thread, i: nat)
    requires Inv(s)
    ensures var s' := RunAll(s, steps);
      t in s'.polls && i < |s'.polls[t].events| ==>
        && (s'.polls[t].events[i].polled ==> i < s'.polls[t].registered)
        && (Quiet(s'.polls[t]) && i < s'.polls[t].registered ==> s'.polls[t].events[i].polled)
  {
    RunKeeps(s, steps);
    var s' := RunAll(s, steps);
    assert t in s'.polls ==> PollOk(s', t);
  }

  lemma SignalWakes(s: State, o: Obj, bit: nat)
    requires Inv(s) && o in s.objs && s.objs[o].list != []
    ensures var w := s.objs[o].list[0]; var s' := SignalStep(s, o, bit);
      && w.thread in s.polls && w.thread in s'.polls && w.info < |s'.polls[w.thread].events|
      && bit in s'.polls[w.thread].events[w.info].state && !s'.polls[w.thread].isPolling
      && (s.polls[w.thread].phase == Pended ==> s'.polls[w.thread].phase == Woken(if bit == CANCELLED then EIntr else Ok))
  {
    assert LinkOk(s, o, s.objs[o].list[0]);
  }

  /** When a call has returned none of its events is on a list or has a poller; each has the
      state bits it had before and those set during the call, and a result of success means
      that there are some of these. */
  lemma ReturnsClean(s: State, steps: seq<Step>, t: Thread)
    requires Inv(s)
    ensures var s' := RunAll(s, steps);
      t in s'.polls && s'.polls[t].phase.Return? ==>
        && (forall i :: 0 <= i < |s'.polls[t].events| ==> !s'.polls[t].events[i].polled)
        && (forall o, w :: o in s'.objs && w in s'.objs[o].list ==> w.thread != t)
        && (forall i :: 0 <= i < |s'.polls[t].events| ==>
              s'.polls[t].events[i].state == s'.polls[t].events[i].before + s'.polls[t].events[i].raised)
        && (s'.polls[t].phase.code == Ok ==> SomeReady(s'.polls[t]))
  {
    RunKeeps(s, steps);
    var s' := RunAll(s, steps);
    if t in s'.polls && s'.polls[t].phase.Return? {
      assert PollOk(s', t);
      forall o, w | o in s'.objs && w in s'.objs[o].list ensures w.thread != t {
        assert LinkOk(s', o, w);
      }
    }
  }

  // ----- nobody waits for what is there -----

  /** No event is registered with an object whose condition holds, unless whoever made it
      hold still owes the signal. */
  ghost predicate Idle(s: State, owed: set<Obj>) {
    forall o :: o in s.objs && s.objs[o].ready && o !in owed ==> s.objs[o].list == []
  }

  /** Semaphores and queues make their condition hold under their own lock and signal it
      afterwards; a poll signal does both at once. */
  function Owed(owed: set<Obj>, step: Step): set<Obj> {
    match step
    case DoCondition(o, true) => owed + {o}
    case DoSignal(o, _) => owed - {o}
    case DoRaise(o, _) => owed - {o}
    case _ => owed
  }

  /** The signal for a condition that holds gets to every event registered with the object. */
  ghost predicate Served(s: State, owed: set<Obj>, step: Step) {
    match step
    case DoSignal(o, _) => o in s.objs && s.objs[o].ready && o in owed ==> |s.objs[o].list| <= 1
    case DoRaise(o, _) => o in s.objs ==> |s.objs[o].list| <= 1
    case _ => true
  }

  lemma SignalPops(s: State, o: Obj, bit: nat)
    requires Inv(s) && o in s.objs
    ensures var q := s.objs[o].list;
      SignalStep(s, o, bit).objs == s.objs[o := s.objs[o].(list := if q == [] then [] else q[1..])]
  {
    hide PollOk, ListOk;
    if s.objs[o].list != [] { assert LinkOk(s, o, s.objs[o].list[0]); }
  }

  lemma RaisePops(s: State, o: Obj, bit: nat)
    requires Inv(s) && o in s.objs
    ensures var q := s.objs[o].list;
      RaiseStep(s, o, bit).objs == s.objs[o := Object(true, if q == [] then [] else q[1..])]
  {
    hide Inv, SignalStep;
    ConditionKeeps(s, o, true);
    SignalPops(s.(objs := s.objs[o := s.objs[o].(ready := true)]), o, bit);
  }

  /** Clearing takes events off lists and adds none. */
  lemma ClearIdle(s: State, t: Thread, owed: set<Obj>)
    requires Inv(s) && Idle(s, owed) && Enabled(s, DoClear(t))
    ensures Idle(ClearStep(s, t), owed)
  {
    hide PollOk, LinkOk, ListOk;
  }

  /** A step leaves nobody waiting for what is there exactly if its signal, if there is one,
      gets to everybody. */
  lemma StepIdle(s: State, owed: set<Obj>, step: Step)
    requires Inv(s) && Idle(s, owed) && Enabled(s, step)
    ensures Idle(Do(s, step), Owed(owed, step)) <==> Served(s, owed, step)
  {
    hide Inv, CanStart, SignalStep, RaiseStep, ClearStep, Pend;
    var s' := Do(s, step);
    match step {
      case DoSignal(o, bit) =>
        SignalPops(s, o, bit);
        assert forall r :: r in s.objs && r != o ==> s'.objs[r] == s.objs[r];
      case DoRaise(o, bit) =>
        RaisePops(s, o, bit);
        assert s'.objs[o].ready;
      case DoClear(t) => ClearIdle(s, t, owed);
      case _ =>
    }
  }

  /** Every signal of the run gets to everybody. */
  ghost predicate ServedAll(s: State, owed: set<Obj>, steps: seq<Step>)
    decreases |steps|
  {
    steps == [] || (Served(s, owed, steps[0]) && ServedAll(Do(s, steps[0]), OwedBy(s, owed, steps[0]), steps[1..]))
  }

  /** What is owed after a step that is taken if it can be. */
  ghost function OwedBy(s: State, owed: set<Obj>, step: Step): set<Obj> {
    if Enabled(s, step) then Owed(owed, step) else owed
  }

  ghost function OwedAll(s: State, owed: set<Obj>, steps: seq<Step>): set<Obj>
    decreases |steps|
  {
    if steps == [] then owed else OwedAll(Do(s, steps[0]), OwedBy(s, owed, steps[0]), steps[1..])
  }

  lemma {:induction false} RunIdle(s: State, owed: set<Obj>, steps: seq<Step>)
    requires Inv(s) && Idle(s, owed) && ServedAll(s, owed, steps)
    ensures Idle(RunAll(s, steps), OwedAll(s, owed, steps))
    decreases |steps|
  {
    hide Inv, Idle, Served, Enabled, Owed;
    if steps != [] {
      StepKeeps(s, steps[0]);
      if Enabled(s, steps[0]) { StepIdle(s, owed, steps[0]); }
      RunIdle(Do(s, steps[0]), OwedBy(s, owed, steps[0]), steps[1..]);
    }
  }

  /** In a run whose signals get to everybody no thread waits in `k_poll` while the condition
      of an object it asked for holds and its signal has been sent. */
  lemma NoWaitForReady(s: State, owed: set<Obj>, steps: seq<Step>, t: Thread, i: nat)
    requires Inv(s) && Idle(s, owed) && ServedAll(s, owed, steps)
    ensures var s' := RunAll(s, steps);
      t in s'.polls && s'.polls[t].phase == Pended && i < |s'.polls[t].events| && s'.polls[t].events[i].kind.Watch? ==>
        var o := s'.polls[t].events[i].kind.obj; o in s'.objs && (s'.objs[o].ready ==> o in OwedAll(s, owed, steps))
  {
    hide Inv;
    RunIdle(s, owed, steps);
    NoLostWakeup(s, steps, t, i);
  }

  function Asks(o: Obj, polled: bool): Event {
    Event(Watch(o), {}, polled, {}, {})
  }

  /** A call that watches one object, from its beginning until it waits. */
  function Wait(t: Thread, o: Obj): seq<Step> {
    [DoStart(t, [Asks(o, false)], false, 0), DoRegister(t, 1), DoDecide(t)]
  }

  lemma WaitRuns(s: State, t: Thread, o: Obj)
    requires t !in s.polls && o in s.objs && !s.objs[o].ready
    ensures RunAll(s, Wait(t, o)) ==
      State(s.polls[t := Poll([Asks(o, true)], Pended, false, 1, false, 0)],
            s.objs[o := Object(false, Pend(s.objs[o].list, Waiter(t, 0, 0)))])
  {
    hide Pend;
    var steps := Wait(t, o);
    var p0 := Poll([Asks(o, false)], Register(0), true, 0, false, 0);
    var p1 := Poll([Asks(o, true)], Decide, true, 1, false, 0);
    var objs := s.objs[o := Object(false, Pend(s.objs[o].list, Waiter(t, 0, 0)))];
    assert Opened([Asks(o, false)]) == [Asks(o, false)];
    assert Do(s, steps[0]) == SetPoll(s, t, p0);
    assert Do(SetPoll(s, t, p0), steps[1]) == State(s.polls[t := p1], objs) by {
      assert [Asks(o, false)][0 := Asks(o, true)] == [Asks(o, true)];
      assert s.polls[t := p0][t := p1] == s.polls[t := p1];
      assert RegisterStep(SetPoll(s, t, p0), t, 1).polls[t] == p1;
    }
    var s2 := State(s.polls[t := p1], objs);
    assert Do(s2, steps[2]).polls == s.polls[t := Poll([Asks(o, true)], Pended, false, 1, false, 0)];
    assert steps[1..][1..] == [steps[2]];
    assert RunAll(Do(SetPoll(s, t, p0), steps[1]), [steps[2]]) == Do(s2, steps[2]);
  }

  /** Two threads that wait for an object, and then its signal. */
  lemma RaiseForTwo(s: State, o: Obj)
    requires o in s.objs && s.objs[o].list == [Waiter(1, 0, 0), Waiter(2, 0, 0)]
    requires 1 in s.polls && |s.polls[1].events| == 1 && s.polls[1].phase == Pended
    ensures var s' := RunAll(s, [DoRaise(o, 1)]);
      && 1 in s'.polls && s'.polls[1].phase == Woken(Ok) && o in s'.objs && s'.objs[o] == Object(true, [Waiter(2, 0, 0)])
      && (2 in s.polls ==> 2 in s'.polls && s'.polls[2] == s.polls[2])
  {
    assert RunAll(s, [DoRaise(o, 1)]) == RaiseStep(s, o, 1);
  }

  /** Two threads wait for the same object: its signal wakes one, and the other goes on
      waiting although the condition holds. */
  lemma SecondWaitsOn(o: Obj)
    ensures var s0 := State(map[], map[o := Object(false, [])]);
      var s := RunAll(RunAll(RunAll(s0, Wait(1, o)), Wait(2, o)), [DoRaise(o, 1)]);
      && Inv(s0) && Idle(s0, {})
      && 1 in s.polls && s.polls[1].phase == Woken(Ok) && 2 in s.polls && s.polls[2].phase == Pended
      && o in s.objs && s.objs[o] == Object(true, [Waiter(2, 0, 0)])
  {
    hide Wait, Do, RunAll, PollOk, LinkOk;
    var s0 := State(map[], map[o := Object(false, [])]);
    WaitRuns(s0, 1, o);
    var s1 := RunAll(s0, Wait(1, o));
    assert s1.objs[o].list == [Waiter(1, 0, 0)];
    WaitRuns(s1, 2, o);
    var s2 := RunAll(s1, Wait(2, o));
    assert s2.objs[o].list == [Waiter(1, 0, 0), Waiter(2, 0, 0)];
    RaiseForTwo(s2, o);
  }

  // ----- what a call returns -----

  /** A call still polls exactly if none of its events has become ready; it waits only if none
      has; and one that may not wait succeeds exactly if some has. */
  ghost predicate Told(p: Poll) {
    match p.phase
    case Register(_) => p.isPolling <==> !SomeReady(p)
    case Decide => p.isPolling <==> !SomeReady(p)
    case Pended => !p.noWait && !SomeReady(p)
    case Woken(_) => !p.noWait
    case Clear(_, _) => !p.noWait
    case Return(code) => p.noWait ==> code != EIntr && (code == Ok <==> SomeReady(p))
  }

  ghost predicate AllTold(s: State) {
    forall t :: t in s.polls ==> Told(s.polls[t])
  }

  lemma RegisterTold(s: State, t: Thread, bit: nat)
    requires Inv(s) && AllTold(s) && Enabled(s, DoRegister(t, bit))
    ensures AllTold(RegisterStep(s, t, bit))
  {
    hide ListOk, Pend, PollOk, LinkOk;
    var p, p' := s.polls[t], RegisterStep(s, t, bit).polls[t];
    var i := p.phase.next;
    assert Told(p);
    if SomeReady(p) {
      var j :| 0 <= j < |p.events| && p.events[j].raised != {};
      assert p'.events[j].raised != {};
    } else if !p'.isPolling {
      assert p'.events[i].raised != {};
    }
  }

  lemma SignalTold(s: State, o: Obj, bit: nat)
    requires Inv(s) && AllTold(s) && o in s.objs
    ensures AllTold(SignalStep(s, o, bit))
  {
    hide ListOk;
    var q := s.objs[o].list;
    if q != [] {
      assert LinkOk(s, o, q[0]);
      var t := q[0].thread;
      assert PollOk(s, t) && Told(s.polls[t]);
      assert SignalStep(s, o, bit).polls[t].events[q[0].info].raised != {};
    }
  }

  lemma ClearTold(s: State, t: Thread)
    requires Inv(s) && AllTold(s) && Enabled(s, DoClear(t))
    ensures AllTold(ClearStep(s, t))
  {
    hide ListOk, RemoveAt, IndexOf, LinkOk;
    assert PollOk(s, t) && Told(s.polls[t]);
  }

  lemma MoveTold(s: State, step: Step)
    requires Inv(s) && AllTold(s) && Enabled(s, step) && (step.DoStart? || step.DoDecide? || step.DoExpire? || step.DoResume?)
    ensures AllTold(Do(s, step))
  {
    hide ListOk, LinkOk;
    if !step.DoStart? { assert PollOk(s, step.t) && Told(s.polls[step.t]); }
  }

  lemma StepTold(s: State, step: Step)
    requires Inv(s) && AllTold(s)
    ensures AllTold(Do(s, step))
  {
    hide Inv, AllTold, RegisterStep, ClearStep, SignalStep, DecideStep, StartStep, CanStart;
    if Enabled(s, step) {
      match step
      case DoRegister(t, bit) => RegisterTold(s, t, bit);
      case DoSignal(o, bit) => SignalTold(s, o, bit);
      case DoRaise(o, bit) =>
        ConditionTold(s, o, true);
        ConditionKeeps(s, o, true);
        SignalTold(s.(objs := s.objs[o := s.objs[o].(ready := true)]), o, bit);
      case DoClear(t) => ClearTold(s, t);
      case DoCondition(o, ready) => ConditionTold(s, o, ready);
      case _ => MoveTold(s, step);
    }
  }

  lemma ConditionTold(s: State, o: Obj, ready: bool)
    requires AllTold(s) && o in s.objs
    ensures AllTold(s.(objs := s.objs[o := s.objs[o].(ready := ready)]))
  {
  }

  /** Over every run: a call waits only while none of its events has become ready, and one that
      may not wait returns success exactly if some has, -EAGAIN otherwise. */
  lemma {:induction false} RunTold(s: State, steps: seq<Step>)
    requires Inv(s) && AllTold(s)
    ensures AllTold(RunAll(s, steps))
    decreases |steps|
  {
    hide Inv, AllTold, Do;
    if steps != [] {
      StepKeeps(s, steps[0]);
      StepTold(s, steps[0]);
      RunTold(Do(s, steps[0]), steps[1..]);
    }
  }

  /** What a call is going to return, once that is settled. */
  function Settled(phase: Phase): Option<Code> {
    match phase
    case Woken(code) => Some(code)
    case Clear(_, code) => Some(code)
    case Return(code) => Some(code)
    case _ => None
  }

  /** Looking at `is_polling` settles it: success if some event is ready, else -EAGAIN if the
      call may not wait; otherwise it waits. */
  lemma DecideSettles(s: State, t: Thread)
    requires t in s.polls && s.polls[t].phase == Decide && Told(s.polls[t])
    ensures Settled(DecideStep(s, t).polls[t].phase) ==
      if SomeReady(s.polls[t]) then Some(Ok) else if s.polls[t].noWait then Some(EAgain) else None
  {
  }

  lemma CodeStays(s: State, step: Step, t: Thread)
    requires t in s.polls && Settled(s.polls[t].phase).Some? && !(step.DoStart? && step.t == t)
    ensures var s' := Do(s, step); t in s'.polls && Settled(s'.polls[t].phase) == Settled(s.polls[t].phase)
  {
    hide Pend, RemoveAt, IndexOf, CanStart;
  }

  /** And then nothing changes it, whatever happens before the call has returned. */
  lemma {:induction false} ReturnsWhatWasSettled(s: State, steps: seq<Step>, t: Thread)
    requires t in s.polls && Settled(s.polls[t].phase).Some?
    requires forall k :: 0 <= k < |steps| ==> !(steps[k].DoStart? && steps[k].t == t)
    ensures var s' := RunAll(s, steps);
      t in s'.polls && (s'.polls[t].phase.Return? ==> Some(s'.polls[t].phase.code) == Settled(s.polls[t].phase))
      && Settled(s'.polls[t].phase) == Settled(s.polls[t].phase)
    decreases |steps|
  {
    hide Do;
    if steps != [] {
      CodeStays(s, steps[0], t);
      ReturnsWhatWasSettled(Do(s, steps[0]), steps[1..], t);
    }
  }

  /** A step makes an event ready: its object's condition holds when it is registered, or its
      object is signalled and it is the first one on the list. */
  ghost predicate Raises(s: State, step: Step, t: Thread, i: nat) {
    match step
    case DoRegister(u, _) =>
      && u == t && t in s.polls && s.polls[t].phase == Register(i) && i < |s.polls[t].events|
      && s.polls[t].events[i].kind.Watch? && s.polls[t].events[i].kind.obj in s.objs && s.objs[s.polls[t].events[i].kind.obj].ready
    case DoSignal(o, _) => o in s.objs && s.objs[o].list != [] && s.objs[o].list[0].thread == t && s.objs[o].list[0].info == i
    case DoRaise(o, _) => o in s.objs && s.objs[o].list != [] && s.objs[o].list[0].thread == t && s.objs[o].list[0].info == i
    case _ => false
  }

  /** Nothing else makes an event ready, and the right bit is set. */
  lemma ReadyExactly(s: State, step: Step, t: Thread, i: nat)
    requires Inv(s) && t in s.polls && i < |s.polls[t].events| && Enabled(s, step) && !(step.DoStart? && step.t == t)
    ensures var s' := Do(s, step);
      && t in s'.polls && |s'.polls[t].events| == |s.polls[t].events|
      && s'.polls[t].events[i].raised == s.polls[t].events[i].raised +
           (match step
            case DoRegister(_, bit) => if Raises(s, step, t, i) then {bit} else {}
            case DoSignal(_, bit) => if Raises(s, step, t, i) then {bit} else {}
            case DoRaise(_, bit) => if Raises(s, step, t, i) then {bit} else {}
            case _ => {})
  {
    hide PollOk, ListOk, Pend, RemoveAt, IndexOf, CanStart;
    if (step.DoSignal? || step.DoRaise?) && s.objs[step.o].list != [] {
      assert LinkOk(s, step.o, s.objs[step.o].list[0]);
    }
  }

  /** Some event of the call is made ready in the course of the run. */
  ghost predicate SomeRaise(s: State, steps: seq<Step>, t: Thread)
    decreases |steps|
  {
    steps != [] && ((Enabled(s, steps[0]) && exists i :: Raises(s, steps[0], t, i)) || SomeRaise(Do(s, steps[0]), steps[1..], t))
  }

  lemma {:induction false} ReadyOnlyIfRaised(s: State, steps: seq<Step>, t: Thread)
    requires Inv(s) && t in s.polls && !SomeReady(s.polls[t]) && !SomeRaise(s, steps, t)
    requires forall k :: 0 <= k < |steps| ==> !(steps[k].DoStart? && steps[k].t == t)
    ensures var s' := RunAll(s, steps); t in s'.polls && !SomeReady(s'.polls[t])
    decreases |steps|
  {
    hide Inv, Do, Enabled, Raises;
    if steps != [] {
      var s' := Do(s, steps[0]);
      StepKeeps(s, steps[0]);
      StillNotReady(s, steps[0], t);
      ReadyOnlyIfRaised(s', steps[1..], t);
    }
  }

  lemma StillNotReady(s: State, step: Step, t: Thread)
    requires Inv(s) && t in s.polls && !SomeReady(s.polls[t]) && !(step.DoStart? && step.t == t)
    requires Enabled(s, step) ==> forall i: nat :: !Raises(s, step, t, i)
    ensures t in Do(s, step).polls && !SomeReady(Do(s, step).polls[t])
  {
    hide Inv, RegisterStep, ClearStep, SignalStep, RaiseStep, DecideStep, StartStep, CanStart, Raises;
    if Enabled(s, step) {
      var s' := Do(s, step);
      SameLength(s, step, t);
      forall i | 0 <= i < |s'.polls[t].events| ensures s'.polls[t].events[i].raised == {} {
        ReadyExactly(s, step, t, i);
        assert s.polls[t].events[i].raised == {};
      }
    }
  }

  lemma SameLength(s: State, step: Step, t: Thread)
    requires t in s.polls && Enabled(s, step) && !(step.DoStart? && step.t == t)
    ensures t in Do(s, step).polls && |Do(s, step).polls[t].events| == |s.polls[t].events|
  {
    hide Pend, RemoveAt, IndexOf, CanStart;
  }

  /** Success is never reported for nothing: over every run, when a call returns it, the
      condition of one of its objects held when the call looked, or a signal of one of them
      got to the call. */
  lemma SuccessMeansReady(s: State, t: Thread, events: seq<Event>, noWait: bool, prio: int, steps: seq<Step>)
    requires Inv(s) && CanStart(s, t, events)
    requires forall k :: 0 <= k < |steps| ==> !(steps[k].DoStart? && steps[k].t == t)
    ensures var s1 := StartStep(s, t, events, noWait, prio); var s' := RunAll(s1, steps);
      t in s'.polls && s'.polls[t].phase == Return(Ok) ==> SomeRaise(s1, steps, t)
  {
    hide RunAll, SomeRaise, CanStart, ListOk, LinkOk;
    var s1 := StartStep(s, t, events, noWait, prio);
    StartKeeps(s, t, events, noWait, prio);
    RunKeeps(s1, steps);
    if !SomeRaise(s1, steps, t) {
      ReadyOnlyIfRaised(s1, steps, t);
      var s' := RunAll(s1, steps);
      assert PollOk(s', t);
    }
  }

  // ----- the source's operations -----

  class PollSystem {
    var polls: map<Thread, Poll>
    var objs: map<Obj, Object>

    ghost function Abs(): State
      reads this
    {
      State(polls, objs)
    }

    ghost predicate Valid()
      reads this
    {
      Inv(Abs()) && AllTold(Abs())
    }

    constructor (ids: set<Obj>)
      ensures Valid() && polls == map[] && objs.Keys == ids
    {
      polls := map[];
      objs := map o | o in ids :: Object(false, []);
    }

    /** `add_event`: after every registered event whose poller is at least as urgent. */
    static method AddEvent(list: seq<Waiter<nat>>, w: Waiter<nat>) returns (list': seq<Waiter<nat>>)
      requires ByPriority(list)
      ensures list' == Pend(list, w)
    {
      if list == [] || list[|list| - 1].prio < w.prio {
        RankIs(list, w.prio, |list|);
        return list + [w];
      }
      var k := 0;
      while k < |list|
        invariant k <= |list| && forall j :: 0 <= j < k ==> list[j].prio <= w.prio
      {
        if w.prio < list[k].prio {
          RankIs(list, w.prio, k);
          return list[..k] + [w] + list[k..];
        }
        k := k + 1;
      }
      RankIs(list, w.prio, k);
      list' := list + [w];
    }

    /** One round of `register_events`. */
    method RegisterNext(t: Thread, bit: nat)
      requires Valid() && Enabled(Abs(), DoRegister(t, bit))
      modifies this
      ensures Valid() && Abs() == RegisterStep(old(Abs()), t, bit)
    {
      hide PollOk, LinkOk, Pend, AllTold;
      RegisterTold(Abs(), t, bit);
      RegisterKeeps(Abs(), t, bit);
      var p := polls[t];
      var i := p.phase.next;
      var e := p.events[i];
      if e.kind.Watch? && objs[e.kind.obj].ready {
        p := p.(events := p.events[i := Ready(e, bit)], isPolling := false);
      } else if !p.noWait && p.isPolling {
        if e.kind.Watch? {
          var list := AddEvent(objs[e.kind.obj].list, Link(t, p, i));
          objs := objs[e.kind.obj := objs[e.kind.obj].(list := list)];
        }
        p := p.(events := p.events[i := e.(polled := true)], registered := p.registered + 1);
      }
      polls := polls[t := p.(phase := if i + 1 == |p.events| then Decide else Register(i + 1))];
    }

    /** `z_handle_obj_poll_events`. */
    method HandleObjPollEvents(o: Obj, bit: nat)
      requires Valid() && o in objs
      modifies this
      ensures Valid() && Abs() == SignalStep(old(Abs()), o, bit)
    {
      hide PollOk, ListOk, AllTold;
      SignalTold(Abs(), o, bit);
      SignalKeeps(Abs(), o, bit);
      var q := objs[o].list;
      if q != [] {
        assert LinkOk(Abs(), o, q[0]);
        objs := objs[o := objs[o].(list := q[1..])];
        var t, i := q[0].thread, q[0].info;
        var p := polls[t];
        if p.phase.Pended? {
          p := p.(phase := Woken(if bit == CANCELLED then EIntr else Ok));
        }
        p := p.(isPolling := false);
        polls := polls[t := p.(events := p.events[i := Ready(p.events[i], bit)])];
      }
    }

    /** `k_poll_signal_raise`. */
    method SignalRaise(o: Obj, bit: nat)
      requires Valid() && o in objs
      modifies this
      ensures Valid() && Abs() == RaiseStep(old(Abs()), o, bit)
    {
      hide Inv, SignalStep, AllTold;
      ConditionKeeps(Abs(), o, true);
      ConditionTold(Abs(), o, true);
      objs := objs[o := objs[o].(ready := true)];
      HandleObjPollEvents(o, bit);
    }

    /** `clear_event_registrations`, one event at a time: the lock is given up in between. */
    method ClearLast(t: Thread)
      requires Valid() && Enabled(Abs(), DoClear(t))
      modifies this
      ensures Valid() && Abs() == ClearStep(old(Abs()), t)
    {
      hide PollOk, LinkOk, ListOk, IndexOf, AllTold;
      ClearTold(Abs(), t);
      ClearKeeps(Abs(), t);
      var p := polls[t];
      var i := p.phase.left - 1;
      var e := p.events[i];
      if e.kind.Watch? && Link(t, p, i) in objs[e.kind.obj].list {
        var q := objs[e.kind.obj].list;
        var k := IndexOf(q, Link(t, p, i));
        objs := objs[e.kind.obj := objs[e.kind.obj].(list := q[..k] + q[k + 1..])];
      }
      polls := polls[t := p.(events := p.events[i := e.(polled := false)], phase := StartClear(i, p.phase.code))];
    }

    /** The start of `k_poll`. */
    method Start(t: Thread, events: seq<Event>, noWait: bool, prio: int)
      requires Valid() && CanStart(Abs(), t, events)
      modifies this
      ensures Valid() && Abs() == StartStep(old(Abs()), t, events, noWait, prio)
    {
      hide Inv, CanStart, AllTold;
      StartKeeps(Abs(), t, events, noWait, prio);
      MoveTold(Abs(), DoStart(t, events, noWait, prio));
      polls := polls[t := Poll(Opened(events), if events == [] then Decide else Register(0), true, 0, noWait, prio)];
    }

    /** `k_poll` once its events are registered: give up what was registered, refuse, or wait. */
    method LookAtPolling(t: Thread)
      requires Valid() && Enabled(Abs(), DoDecide(t))
      modifies this
      ensures Valid() && Abs() == DecideStep(old(Abs()), t)
      ensures Settled(polls[t].phase) ==
        if old(SomeReady(polls[t])) then Some(Ok) else if polls[t].noWait then Some(EAgain) else None
    {
      hide Inv;
      DecideKeeps(Abs(), t);
      MoveTold(Abs(), DoDecide(t));
      DecideSettles(Abs(), t);
      var p := polls[t];
      if !p.isPolling {
        polls := polls[t := p.(phase := StartClear(p.registered, Ok))];
      } else {
        p := p.(isPolling := false);
        if p.noWait {
          polls := polls[t := p.(phase := Return(EAgain))];
        } else {
          polls := polls[t := p.(phase := Pended)];
        }
      }
    }
  }
}

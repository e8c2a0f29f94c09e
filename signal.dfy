/**
 * The one-shot, timeout-guarded result slot of fbs.go: `channelSingle` and
 * its constructor `WithChannel`.
 *
 * Every method of `channelSingle` runs under the slot's mutex, so each one is
 * one atomic step here. The timer created by `time.AfterFunc` is not
 * scheduled: its firing is the explicit step `Timeout`, which anybody may
 * take at any time, before or after `ToBack`, any number of times.
 *
 * The pure part (Slot, Apply, Run) is the specification; the class
 * ChannelSingle updates its fields in place and is proved against it.
 */
module Signal {
  import opened Wrappers
  import opened Channels

  /** The two errors the file creates: the timeout result and the panic of WithChannel. */
  datatype ErrorTag = Timeout | MustSetOvertime

  /** `backInfo`: the payload (nil when absent) and the error (nil when absent). */
  datatype BackInfo<T> = BackInfo(backVal: Option<T>, err: Option<ErrorTag>)

  /** `backInfo{val, nil}`, sent by ToBack. */
  function Delivered<T>(val: T): BackInfo<T>
  {
    BackInfo(Some(val), None)
  }

  /** `backInfo{nil, errors.New("timeout")}`, sent by timeout. */
  function TimedOut<T>(): BackInfo<T>
  {
    BackInfo(None, Some(Timeout))
  }

  /**
   * The state of a slot. `resolved` is the Go field `in`; `timerStopped`
   * records `s.timer.Stop()`; `back` is what the result channel buffers and
   * `sent` every message ever sent on it (a proof device, not in the source).
   */
  datatype Slot<T> = Slot(
    source: T,
    back: seq<BackInfo<T>>,
    sent: seq<BackInfo<T>>,
    resolved: bool,
    timerStopped: bool)

  /**
   * The exactly-once invariant: at most one message is ever sent, one was
   * sent exactly when the slot is resolved, the buffer holds what was sent
   * and not yet received, and a stopped timer means the value won.
   */
  ghost predicate Inv<T>(s: Slot<T>)
  {
    && |s.sent| <= 1
    && (s.resolved <==> |s.sent| == 1)
    && Buffered(s.back, s.sent)
    && (s.timerStopped ==> s.resolved && s.sent[0].err == None)
  }

  /** The steps a slot can take: a call of ToBack, the timer firing, a receive on FeedBack(). */
  datatype Event<T> = Deliver(val: T) | Fire | Take

  /** The slot WithChannel makes: the given source, nothing sent, the timer running. */
  function Init<T>(source: T): (s: Slot<T>)
    ensures Inv(s)
    ensures s.source == source && !s.resolved && s.back == [] && !s.timerStopped
  {
    Slot(source, [], [], false, false)
  }

  /**
   * One atomic step. Whichever of Deliver and Fire comes first resolves the
   * slot; every later one is a no-op. Each send fits in the capacity-1
   * buffer (Send's precondition), so it never blocks. A receive on an empty
   * buffer would block and so is no step.
   */
  function Apply<T>(s: Slot<T>, e: Event<T>): (r: Slot<T>)
    requires Inv(s)
    ensures Inv(r)
    ensures r.source == s.source
    ensures !e.Take? ==> r.resolved && (s.resolved ==> r == s)
    ensures e.Deliver? && !s.resolved ==> r.sent == [Delivered(e.val)] && r.back == r.sent && r.timerStopped
    ensures e.Fire? && !s.resolved ==> r.sent == [TimedOut()] && r.back == r.sent && !r.timerStopped
    ensures e.Take? ==> r.sent == s.sent && r.resolved == s.resolved && r.timerStopped == s.timerStopped
    ensures e.Take? ==> r.back == if s.back == [] then [] else s.back[1..]
  {
    match e
    case Deliver(val) =>
      if s.resolved then s
      else s.(back := Send(s.back, Delivered(val)), sent := s.sent + [Delivered(val)],
              timerStopped := true, resolved := true)
    case Fire =>
      if s.resolved then s
      else s.(back := Send(s.back, TimedOut()), sent := s.sent + [TimedOut()], resolved := true)
    case Take =>
      if s.back == [] then s else s.(back := s.back[1..])
  }

  /** Any interleaving of the three steps, in order. */
  function Run<T>(s: Slot<T>, evs: seq<Event<T>>): (r: Slot<T>)
    requires Inv(s)
    ensures Inv(r)
    ensures r.source == s.source
    decreases |evs|
  {
    if evs == [] then s else Run(Apply(s, evs[0]), evs[1..])
  }

  /** The outcome the first resolving step of a trace would deliver, if there is one. */
  function FirstOutcome<T>(evs: seq<Event<T>>): (o: seq<BackInfo<T>>)
    ensures |o| <= 1
  {
    if evs == [] then []
    else match evs[0]
      case Deliver(val) => [Delivered(val)]
      case Fire => [TimedOut()]
      case Take => FirstOutcome(evs[1..])
  }

  /** The messages the consumer has already received. */
  function Received<T>(s: Slot<T>): (m: seq<BackInfo<T>>)
    requires Inv(s)
    ensures m + s.back == s.sent
    ensures m == [] || (m == s.sent && s.back == [])
  {
    if s.back == [] then s.sent else []
  }

  /** Once resolved, no later step of any kind sends again or unstops the timer. */
  lemma {:induction false} SettledStaysSettled<T>(s: Slot<T>, evs: seq<Event<T>>)
    requires Inv(s) && s.resolved
    ensures Run(s, evs).resolved
    ensures Run(s, evs).sent == s.sent
    ensures Run(s, evs).timerStopped == s.timerStopped
    decreases |evs|
  {
    if evs != [] {
      SettledStaysSettled(Apply(s, evs[0]), evs[1..]);
    }
  }

  /** From an unresolved slot, the channel ends up holding exactly what the first resolving step sends. */
  lemma {:induction false} FirstStepWins<T>(s: Slot<T>, evs: seq<Event<T>>)
    requires Inv(s) && !s.resolved
    ensures Run(s, evs).sent == FirstOutcome(evs)
    ensures Run(s, evs).resolved <==> FirstOutcome(evs) != []
    ensures Run(s, evs).timerStopped <==> FirstOutcome(evs) != [] && FirstOutcome(evs)[0].err == None
    decreases |evs|
  {
    if evs != [] {
      var s' := Apply(s, evs[0]);
      if evs[0].Take? {
        FirstStepWins(s', evs[1..]);
      } else {
        SettledStaysSettled(s', evs[1..]);
      }
    }
  }

  /**
   * Exactly-once delivery for a slot made by WithChannel: whatever the
   * interleaving of ToBack calls, timer firings and receives, at most one
   * message is ever sent; it is the value of the first ToBack when that call
   * comes before the timer, the timeout error otherwise; and the consumer
   * receives nothing else.
   */
  lemma {:induction false} ExactlyOnce<T>(source: T, evs: seq<Event<T>>)
    ensures Run(Init(source), evs).sent == FirstOutcome(evs)
    ensures Received(Run(Init(source), evs)) != [] ==> Received(Run(Init(source), evs)) == FirstOutcome(evs)
  {
    var s := Init(source);
    FirstStepWins(s, evs);
    var r := Run(s, evs);
    assert r.sent == FirstOutcome(evs);
  }

  /** A ToBack that comes first is what the consumer gets: a later timeout does not replace it. */
  lemma {:induction false} DeliveredBeforeTimeout<T>(source: T, val: T, later: seq<Event<T>>)
    ensures Run(Init(source), [Deliver(val)] + later).sent == [Delivered(val)]
    ensures Run(Init(source), [Deliver(val)] + later).timerStopped
  {
    var evs := [Deliver(val)] + later;
    assert evs[0] == Deliver(val) && evs[1..] == later;
    FirstStepWins(Init(source), evs);
  }

  /** `channelSingle`: the slot whose fields its methods update under its mutex. */
  class ChannelSingle<T> {
    const source: T
    var back: seq<BackInfo<T>>
    var resolved: bool
    var timerStopped: bool
    ghost var sent: seq<BackInfo<T>>

    ghost function State(): Slot<T>
      reads this
    {
      Slot(source, back, sent, resolved, timerStopped)
    }

    ghost predicate Valid()
      reads this
    {
      Inv(State())
    }

    /** The allocation part of WithChannel; the timer is running. */
    constructor (val: T)
      ensures Valid() && State() == Init(val)
    {
      source := val;
      back := [];
      sent := [];
      resolved := false;
      timerStopped := false;
    }

    /** `GetSingle`: the source, on every call; it changes nothing. */
    method GetSingle() returns (v: T)
      ensures v == source
    {
      v := source;
    }

    /** `ToBack`: deliver a value if the slot is still unresolved, and stop the timer. */
    method ToBack(val: T)
      requires Valid()
      modifies this
      ensures Valid()
      ensures State() == Apply(old(State()), Deliver(val))
      ensures old(resolved) ==> unchanged(this)
      ensures !old(resolved) ==> back == old(back) + [Delivered(val)] && resolved && timerStopped
    {
      if !resolved {
        back := Send(back, Delivered(val));
        sent := sent + [Delivered(val)];
        timerStopped := true;
        resolved := true;
      }
    }

    /** `timeout`, the timer's callback: deliver the timeout error if the slot is still unresolved. */
    method Timeout()
      requires Valid()
      modifies this
      ensures Valid()
      ensures State() == Apply(old(State()), Fire)
      ensures old(resolved) ==> unchanged(this)
      ensures !old(resolved) ==> back == old(back) + [TimedOut()] && resolved && timerStopped == old(timerStopped)
    {
      if !resolved {
        back := Send(back, TimedOut());
        sent := sent + [TimedOut()];
        resolved := true;
      }
    }

    /**
     * `FeedBack`: the receive-only result channel, seen as the messages it
     * buffers. It holds at most one message, and one only once resolved.
     */
    method FeedBack() returns (pending: seq<BackInfo<T>>)
      requires Valid()
      ensures pending == back
      ensures |pending| <= Capacity
      ensures pending != [] ==> resolved && pending == sent
    {
      pending := back;
    }

    /** A receive on the FeedBack() channel that has a message to take. */
    method Receive() returns (m: BackInfo<T>)
      requires Valid() && back != []
      modifies this
      ensures Valid()
      ensures State() == Apply(old(State()), Take)
      ensures m == old(back)[0] && [m] == sent && back == []
    {
      m := back[0];
      back := back[1..];
    }
  }

  /**
   * `WithChannel`: panics with "must set overtime" when `d <= 0`; otherwise
   * a fresh, unresolved slot holding `val` whose timer runs.
   */
  method WithChannel<T>(val: T, d: int) returns (r: Result<ChannelSingle<T>, ErrorTag>)
    ensures r.Failure? <==> d <= 0
    ensures r.Failure? ==> r.error == MustSetOvertime
    ensures r.Success? ==> fresh(r.value) && r.value.Valid() && r.value.State() == Init(val)
  {
    if d <= 0 {
      r := Failure(MustSetOvertime);
    } else {
      var s := new ChannelSingle(val);
      r := Success(s);
    }
  }
}

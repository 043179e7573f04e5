/**
 FiberChannel (internal/sync/channel.go): a bounded FIFO channel with direct handoff
 between queued senders and receivers.

 A send call gets a ticket when it is accepted (delivered or buffered) or queued; its
 value is `sends[ticket]`.  A receive call gets a ticket when it is served or queued.
 Steps are the source's lock regions; the two Cancel steps are the re-checks that a parked
 SendCtx or ReceiveCtx makes when its context is done.
 */
module Channel {
  import opened Sequences
  import opened Tickets

  datatype State<V> = State(
    capacity: nat,
    closed: bool,
    buffer: seq<V>,
    senders: seq<Ticket>,
    receivers: seq<Ticket>,
    sends: seq<V>,               // value of every send accepted or queued, in lock order
    delivered: seq<Ticket>,      // sends whose value was received, in order
    buffered: seq<Ticket>,       // sends whose value is in the buffer
    sendGone: set<Ticket>,       // sends cancelled or rejected by Close
    receives: nat,               // receives served or queued
    served: seq<Ticket>,         // receives that got a value: served[i] got the value of delivered[i]
    receiveGone: set<Ticket>)    // receives cancelled or rejected by Close

  datatype Op<V> =
    | Send(value: V, hasFiber: bool)
    | TrySend(value: V)
    | Receive(hasFiber: bool)
    | TryReceive
    | CancelSend(ticket: Ticket)
    | CancelReceive(ticket: Ticket)
    | Close

  datatype Outcome<V> =
    | Sent
    | Received(value: V)
    | Parked(ticket: Ticket)
    | Full
    | Empty
    | ChannelClosed
    | NeedsFiber
    | ContextDone
    | Rejected          // the waiter was woken by Close
    | Done

  /** NewFiberChannel: a negative capacity is taken as 0. */
  function Init<V>(capacity: int): State<V> {
    State(if capacity < 0 then 0 else capacity, false, [], [], [], [], [], [], {}, 0, [], {})
  }

  function ToReceiver<V>(s: State<V>, v: V): State<V>
    requires s.receivers != []
  {
    s.(receivers := s.receivers[1..], served := s.served + [s.receivers[0]],
       sends := s.sends + [v], delivered := s.delivered + [|s.sends|])
  }

  function ToBuffer<V>(s: State<V>, v: V): State<V> {
    s.(buffer := s.buffer + [v], buffered := s.buffered + [|s.sends|], sends := s.sends + [v])
  }

  /** Every ticket of `q` is below `n`. */
  ghost predicate Under(q: seq<Ticket>, n: nat) {
    forall i :: 0 <= i < |q| ==> q[i] < n
  }

  /** The buffer holds the values of the buffered sends. */
  ghost predicate Mirrors<V>(s: State<V>) {
    && Under(s.senders, |s.sends|) && Under(s.delivered, |s.sends|) && Under(s.buffered, |s.sends|)
    && |s.buffer| == |s.buffered|
    && (forall i :: 0 <= i < |s.buffer| ==> s.buffer[i] == s.sends[s.buffered[i]])
  }

  /** Who may wait when. */
  ghost predicate QueueShape<V>(s: State<V>) {
    && |s.buffer| <= s.capacity
    && (s.receivers != [] ==> s.buffer == [] && s.senders == [] && !s.closed)
    && (s.senders != [] ==> |s.buffer| == s.capacity && !s.closed)
  }

  ghost predicate SendBook<V>(s: State<V>) {
    Lists(s.delivered + (s.buffered + s.senders), |s.sends|, s.sendGone)
  }

  ghost predicate ReceiveBook<V>(s: State<V>) {
    Lists(s.served + s.receivers, s.receives, s.receiveGone) && |s.served| == |s.delivered|
  }

  ghost predicate Inv<V>(s: State<V>) {
    Mirrors(s) && QueueShape(s) && SendBook(s) && ReceiveBook(s)
  }

  /** admitSenderLocked: moves the oldest queued sender's value into a free buffer slot. */
  function AdmitSender<V>(s: State<V>): State<V>
    requires Under(s.senders, |s.sends|)
  {
    if s.senders == [] || s.closed || |s.buffer| >= s.capacity then s
    else
      var t := s.senders[0];
      s.(senders := s.senders[1..], buffer := s.buffer + [s.sends[t]], buffered := s.buffered + [t])
  }

  /** A receive served at once, by the buffer or by a queued sender. */
  function TakeValue<V>(s: State<V>): (r: (State<V>, V))
    requires Mirrors(s) && (s.buffer != [] || s.senders != [])
  {
    var s0 := s.(receives := s.receives + 1, served := s.served + [s.receives]);
    if s.buffer != [] then
      (AdmitSender(s0.(buffer := s.buffer[1..], buffered := s.buffered[1..],
                       delivered := s.delivered + [s.buffered[0]])), s.buffer[0])
    else
      (s0.(senders := s.senders[1..], delivered := s.delivered + [s.senders[0]]), s.sends[s.senders[0]])
  }

  function Apply<V>(s: State<V>, op: Op<V>): (r: (State<V>, Outcome<V>))
    requires Inv(s)
  {
    match op
    case Send(v, hasFiber) =>
      if s.closed then (s, ChannelClosed)
      else if s.receivers != [] then (ToReceiver(s, v), Sent)
      else if |s.buffer| < s.capacity then (ToBuffer(s, v), Sent)
      else if !hasFiber then (s, NeedsFiber)
      else (s.(sends := s.sends + [v], senders := s.senders + [|s.sends|]), Parked(|s.sends|))
    case TrySend(v) =>
      if s.closed then (s, ChannelClosed)
      else if s.receivers != [] then (ToReceiver(s, v), Sent)
      else if |s.buffer| >= s.capacity then (s, Full)
      else (ToBuffer(s, v), Sent)
    case Receive(hasFiber) =>
      if |s.buffer| > 0 || |s.senders| > 0 then
        var (s', v) := TakeValue(s);
        (s', Received(v))
      else if s.closed then (s, ChannelClosed)
      else if !hasFiber then (s, NeedsFiber)
      else (s.(receives := s.receives + 1, receivers := s.receivers + [s.receives]), Parked(s.receives))
    case TryReceive =>
      if |s.buffer| > 0 || |s.senders| > 0 then
        var (s', v) := TakeValue(s);
        (s', Received(v))
      else (s, Empty)
    case CancelSend(t) =>
      if t in s.senders then (s.(senders := Without(s.senders, t), sendGone := s.sendGone + {t}), ContextDone)
      else if t in s.delivered || t in s.buffered then (s, Sent)
      else (s, Rejected)
    case CancelReceive(t) =>
      if t in s.receivers then
        (s.(receivers := Without(s.receivers, t), receiveGone := s.receiveGone + {t}), ContextDone)
      else if t in s.served then (s, Received(ValueFor(s, t)))
      else (s, Rejected)
    case Close =>
      if s.closed then (s, Done)
      else
        (s.(closed := true, receivers := [], senders := [], sendGone := s.sendGone + Elements(s.senders),
            receiveGone := s.receiveGone + Elements(s.receivers)), Done)
  }

  /** The value handed to a served receive. */
  function ValueFor<V>(s: State<V>, t: Ticket): V
    requires Inv(s) && t in s.served
  {
    s.sends[s.delivered[Position(s.served, t)]]
  }

  lemma InitIsInv<V>(capacity: int)
    ensures Inv(Init<V>(capacity))
  {
    EmptyBook();
    var nobody: seq<Ticket> := [];
    assert nobody + (nobody + nobody) == nobody + nobody;
  }

  lemma ToReceiverKeepsInv<V>(s: State<V>, v: V)
    requires Inv(s) && s.receivers != []
    ensures Inv(ToReceiver(s, v))
  {
    var s' := ToReceiver(s, v);
    ListsAppend(s.delivered + (s.buffered + s.senders), |s.sends|, s.sendGone);
    assert s'.delivered + (s'.buffered + s'.senders) == s.delivered + (s.buffered + s.senders) + [|s.sends|];
    assert s.served + [s.receivers[0]] + s.receivers[1..] == s.served + s.receivers;
  }

  lemma ToBufferKeepsInv<V>(s: State<V>, v: V)
    requires Inv(s) && s.receivers == [] && !s.closed && |s.buffer| < s.capacity
    ensures Inv(ToBuffer(s, v))
  {
    var s' := ToBuffer(s, v);
    ListsAppend(s.delivered + (s.buffered + s.senders), |s.sends|, s.sendGone);
    assert s'.delivered + (s'.buffered + s'.senders) == s.delivered + (s.buffered + s.senders) + [|s.sends|];
  }

  lemma TakeValueKeepsInv<V>(s: State<V>)
    requires Inv(s) && (s.buffer != [] || s.senders != [])
    ensures Inv(TakeValue(s).0)
  {
    var s' := TakeValue(s).0;
    ListsAppend(s.served + s.receivers, s.receives, s.receiveGone);
    assert s'.served + s'.receivers == s.served + s.receivers + [s.receives];
    assert s'.delivered + (s'.buffered + s'.senders) == s.delivered + (s.buffered + s.senders);
  }

  lemma ParkSenderKeepsInv<V>(s: State<V>, v: V)
    requires Inv(s) && !s.closed && s.receivers == [] && |s.buffer| == s.capacity
    ensures Inv(s.(sends := s.sends + [v], senders := s.senders + [|s.sends|]))
  {
    ListsAppend(s.delivered + (s.buffered + s.senders), |s.sends|, s.sendGone);
    assert s.delivered + (s.buffered + (s.senders + [|s.sends|]))
      == s.delivered + (s.buffered + s.senders) + [|s.sends|];
  }

  lemma ParkReceiverKeepsInv<V>(s: State<V>)
    requires Inv(s) && !s.closed && s.buffer == [] && s.senders == []
    ensures Inv(s.(receives := s.receives + 1, receivers := s.receivers + [s.receives]))
  {
    ListsAppend(s.served + s.receivers, s.receives, s.receiveGone);
    assert s.served + (s.receivers + [s.receives]) == s.served + s.receivers + [s.receives];
  }

  lemma CancelKeepsInv<V>(s: State<V>, t: Ticket)
    requires Inv(s)
    ensures t in s.senders ==> Inv(s.(senders := Without(s.senders, t), sendGone := s.sendGone + {t}))
    ensures t in s.receivers ==> Inv(s.(receivers := Without(s.receivers, t), receiveGone := s.receiveGone + {t}))
  {
    if t in s.senders {
      assert s.delivered + (s.buffered + s.senders) == s.delivered + s.buffered + s.senders;
      CoversCancel(s.delivered + s.buffered, s.senders, t, |s.sends|, s.sendGone);
      var w := Without(s.senders, t);
      assert s.delivered + (s.buffered + w) == s.delivered + s.buffered + w;
    }
    if t in s.receivers { CoversCancel(s.served, s.receivers, t, s.receives, s.receiveGone); }
  }

  lemma CloseKeepsInv<V>(s: State<V>)
    requires Inv(s)
    ensures Inv(Apply(s, Close).0)
  {
    assert s.delivered + (s.buffered + s.senders) == s.delivered + s.buffered + s.senders;
    CoversDrop(s.delivered + s.buffered, s.senders, |s.sends|, s.sendGone);
    assert s.delivered + (s.buffered + []) == s.delivered + s.buffered;
    CoversDrop(s.served, s.receivers, s.receives, s.receiveGone);
    assert s.served + [] == s.served;
  }

  lemma SendKeepsInv<V>(s: State<V>, op: Op<V>)
    requires Inv(s) && (op.Send? || op.TrySend?)
    ensures Inv(Apply(s, op).0)
  {
    if !s.closed {
      if s.receivers != [] {
        ToReceiverKeepsInv(s, op.value);
      } else if |s.buffer| < s.capacity {
        ToBufferKeepsInv(s, op.value);
      } else {
        ParkSenderKeepsInv(s, op.value);
      }
    }
  }

  lemma ReceiveKeepsInv<V>(s: State<V>, op: Op<V>)
    requires Inv(s) && (op.Receive? || op.TryReceive?)
    ensures Inv(Apply(s, op).0)
  {
    if s.buffer != [] || s.senders != [] {
      TakeValueKeepsInv(s);
    } else if !s.closed {
      ParkReceiverKeepsInv(s);
    }
  }

  lemma StepKeepsInv<V>(s: State<V>, op: Op<V>)
    requires Inv(s)
    ensures Inv(Apply(s, op).0)
  {
    match op {
      case Send(_, _) => SendKeepsInv(s, op);
      case TrySend(_) => SendKeepsInv(s, op);
      case Receive(_) => ReceiveKeepsInv(s, op);
      case TryReceive => ReceiveKeepsInv(s, op);
      case CancelSend(t) => CancelKeepsInv(s, t);
      case CancelReceive(t) => CancelKeepsInv(s, t);
      case Close => CloseKeepsInv(s);
    }
  }

  function After<V>(s: State<V>, ops: seq<Op<V>>): (s': State<V>)
    requires Inv(s)
    ensures Inv(s')
    decreases |ops|
  {
    if ops == [] then s
    else
      StepKeepsInv(s, ops[0]);
      After(Apply(s, ops[0]).0, ops[1..])
  }

  /** The sends accepted so far: those received, then those in the buffer. */
  function Accepted<V>(s: State<V>): seq<Ticket> { s.delivered + s.buffered }

  /** Calls, acceptances, services, cancellations and rejections are only ever added to. */
  ghost predicate Extends<V>(s: State<V>, s': State<V>) {
    && s.sends <= s'.sends
    && Accepted(s) <= Accepted(s')
    && s.delivered <= s'.delivered
    && s.served <= s'.served
    && s.sendGone <= s'.sendGone
    && s.receiveGone <= s'.receiveGone
    && s.capacity == s'.capacity
  }

  lemma TakeValueExtends<V>(s: State<V>)
    requires Inv(s) && (s.buffer != [] || s.senders != [])
    ensures Extends(s, TakeValue(s).0)
  {
    if s.buffer != [] {
      assert s.delivered + [s.buffered[0]] + s.buffered[1..] == s.delivered + s.buffered;
    }
  }

  lemma SendExtends<V>(s: State<V>, op: Op<V>)
    requires Inv(s) && (op.Send? || op.TrySend?)
    ensures Extends(s, Apply(s, op).0)
  {
    if s.receivers != [] { assert s.buffered == []; }
    assert s.delivered + (s.buffered + [|s.sends|]) == s.delivered + s.buffered + [|s.sends|];
  }

  lemma ReceiveExtends<V>(s: State<V>, op: Op<V>)
    requires Inv(s) && (op.Receive? || op.TryReceive?)
    ensures Extends(s, Apply(s, op).0)
  {
    if s.buffer != [] || s.senders != [] {
      TakeValueExtends(s);
      hide TakeValue; hide Extends;
    }
  }

  lemma StepExtends<V>(s: State<V>, op: Op<V>)
    requires Inv(s)
    ensures Extends(s, Apply(s, op).0)
  {
    if op.Send? || op.TrySend? {
      SendExtends(s, op);
      hide Apply;
    } else if op.Receive? || op.TryReceive? {
      ReceiveExtends(s, op);
      hide Apply;
    }
  }

  lemma {:induction false} RunExtends<V>(s: State<V>, ops: seq<Op<V>>)
    requires Inv(s)
    ensures Extends(s, After(s, ops))
    decreases |ops|
  {
    if ops != [] {
      StepKeepsInv(s, ops[0]);
      StepExtends(s, ops[0]);
      RunExtends(Apply(s, ops[0]).0, ops[1..]);
    }
  }

  /** The run of a new channel. */
  function Run<V>(capacity: int, ops: seq<Op<V>>): (s: State<V>)
    ensures Inv(s)
  {
    InitIsInv<V>(capacity);
    After(Init(capacity), ops)
  }

  /** The values sent by the calls `ts`. */
  function Values<V>(sends: seq<V>, ts: seq<Ticket>): (vs: seq<V>)
    requires Under(ts, |sends|)
  {
    seq(|ts|, i requires 0 <= i < |ts| => sends[ts[i]])
  }

  lemma {:induction false} SurvivorsUnder(n: nat, gone: set<Ticket>)
    ensures Under(Survivors(n, gone), n)
  {
    if n > 0 { SurvivorsUnder(n - 1, gone); }
  }

  /** The values of the sends that were neither cancelled nor rejected, in lock order. */
  function Surviving<V>(s: State<V>): seq<V> {
    SurvivorsUnder(|s.sends|, s.sendGone);
    Values(s.sends, Survivors(|s.sends|, s.sendGone))
  }

  lemma InvConserves<V>(s: State<V>)
    requires Inv(s)
    ensures Surviving(s) == Values(s.sends, s.delivered) + s.buffer + Values(s.sends, s.senders)
  {
    var all := s.delivered + (s.buffered + s.senders);
    ListsAreSurvivors(all, |s.sends|, s.sendGone);
    SurvivorsUnder(|s.sends|, s.sendGone);
    assert s.buffer == Values(s.sends, s.buffered);
    assert Values(s.sends, all) ==
      Values(s.sends, s.delivered) + Values(s.sends, s.buffered) + Values(s.sends, s.senders);
  }

  /**
   FIFO and conservation over every run: the values of the send calls in lock order,
   minus those cancelled or rejected by Close, are the values delivered, then the buffer,
   then the values of the queued senders, in that order; nothing is lost, duplicated or
   reordered, and the buffer stays within its capacity.  Receives are served in call
   order too, one per value delivered.
   */
  lemma FifoConservation<V>(capacity: int, ops: seq<Op<V>>)
    ensures var s := Run(capacity, ops);
      && Surviving(s) == Values(s.sends, s.delivered) + s.buffer + Values(s.sends, s.senders)
      && |s.buffer| <= s.capacity == (if capacity < 0 then 0 else capacity)
      && s.served + s.receivers == Survivors(s.receives, s.receiveGone)
      && |s.served| == |s.delivered|
  {
    var s := Run(capacity, ops);
    InitIsInv<V>(capacity);
    RunExtends(Init(capacity), ops);
    InvConserves(s);
    ListsAreSurvivors(s.served + s.receivers, s.receives, s.receiveGone);
  }

  /** The value a receive returns at once is the one the delivery log holds for it. */
  lemma ReceivedIsDelivered<V>(s: State<V>, op: Op<V>)
    requires Inv(s) && (op.Receive? || op.TryReceive?) && Apply(s, op).1.Received?
    ensures var (s', outcome) := Apply(s, op);
      Inv(s') && s'.served == s.served + [s.receives] && outcome.value == ValueFor(s', s.receives)
  {
    StepKeepsInv(s, op);
    var s' := Apply(s, op).0;
    Placed(s.served, s.receivers, s.receives, s.receiveGone, s.receives);
    AppendedPosition(s.served, s.receives);
  }

  // ---- What callers pass in and are told ----

  /** The value that the step takes on: that of a send told `Sent` or `Parked`. */
  function TakenOn<V>(op: Op<V>, outcome: Outcome<V>): seq<V> {
    if (op.Send? || op.TrySend?) && (outcome.Sent? || outcome.Parked?) then [op.value] else []
  }

  /** The values that callers passed to sends told `Sent` or `Parked`, in the order of the calls. */
  function SentValues<V>(s: State<V>, ops: seq<Op<V>>): seq<V>
    requires Inv(s)
    decreases |ops|
  {
    if ops == [] then []
    else
      StepKeepsInv(s, ops[0]);
      TakenOn(ops[0], Apply(s, ops[0]).1) + SentValues(Apply(s, ops[0]).0, ops[1..])
  }

  lemma StepTakesOn<V>(s: State<V>, op: Op<V>)
    requires Inv(s)
    ensures Apply(s, op).0.sends == s.sends + TakenOn(op, Apply(s, op).1)
  {
    assert s.sends + [] == s.sends;
  }

  /** The log of sends holds just what callers passed in. */
  lemma {:induction false} SendsArePassedIn<V>(s: State<V>, ops: seq<Op<V>>)
    requires Inv(s)
    ensures After(s, ops).sends == s.sends + SentValues(s, ops)
    decreases |ops|
  {
    hide Inv; hide Apply; hide TakenOn;
    if ops == [] {
      assert s.sends + [] == s.sends;
    } else {
      StepKeepsInv(s, ops[0]);
      StepTakesOn(s, ops[0]);
      SendsArePassedIn(Apply(s, ops[0]).0, ops[1..]);
      var first, rest := TakenOn(ops[0], Apply(s, ops[0]).1), SentValues(Apply(s, ops[0]).0, ops[1..]);
      assert s.sends + first + rest == s.sends + (first + rest);
    }
  }

  /** How many values are taken on, not withdrawn and not received. */
  function Pending<V>(s: State<V>): int { |Surviving(s)| - |s.delivered| }

  lemma PendingIs<V>(s: State<V>)
    requires Inv(s)
    ensures Pending(s) == |s.buffer| + |s.senders|
    ensures s.buffer != [] ==> Surviving(s)[|s.delivered|] == s.buffer[0]
    ensures s.buffer == [] && s.senders != [] ==> Surviving(s)[|s.delivered|] == s.sends[s.senders[0]]
  {
    InvConserves(s);
  }

  /**
   What a send reports.  `ChannelClosed` exactly when the channel is closed.  Otherwise `Sent`
   exactly when a receiver waits or fewer values than the capacity are pending; the value is then
   accepted, for the longest waiting receiver if there is one.  Otherwise Send parks the caller
   under its own ticket, given a fiber, and TrySend reports `Full`.
   */
  lemma SendTells<V>(s: State<V>, op: Op<V>)
    requires Inv(s) && (op.Send? || op.TrySend?)
    ensures var (s', outcome) := Apply(s, op);
      var room := s.receivers != [] || Pending(s) < s.capacity;
      && outcome == (if s.closed then ChannelClosed else if room then Sent else if op.TrySend? then Full
                     else if op.hasFiber then Parked(|s.sends|) else NeedsFiber)
      && (outcome == Sent ==> Accepted(s') == Accepted(s) + [|s.sends|])
      && (outcome == Sent && s.receivers != [] ==> s'.served == s.served + [s.receivers[0]])
      && (outcome.Parked? ==> s'.senders == s.senders + [|s.sends|])
      && (outcome != Sent && !outcome.Parked? ==> s' == s)
  {
    PendingIs(s);
    assert s.delivered + (s.buffered + [|s.sends|]) == s.delivered + s.buffered + [|s.sends|];
    if s.receivers != [] { assert s.buffered == []; }
    hide Surviving;
  }

  /**
   What a receive reports: the oldest pending value, exactly when one is pending.  Otherwise
   `Empty` for TryReceive; for Receive `ChannelClosed` on a closed channel, and on an open one it
   parks the caller under its own ticket, given a fiber.
   */
  lemma ReceiveTells<V>(s: State<V>, op: Op<V>)
    requires Inv(s) && (op.Receive? || op.TryReceive?)
    ensures var (s', outcome) := Apply(s, op);
      && (outcome.Received? <==> Pending(s) > 0)
      && (Pending(s) > 0 ==> outcome.value == Surviving(s)[|s.delivered|])
      && (Pending(s) == 0 ==>
            outcome == if op.TryReceive? then Empty else if s.closed then ChannelClosed
                       else if op.hasFiber then Parked(s.receives) else NeedsFiber)
      && (outcome.Parked? ==> s'.receivers == s.receivers + [s.receives])
      && (!outcome.Received? && !outcome.Parked? ==> s' == s)
  {
    PendingIs(s);
    hide Surviving;
  }

  /** Calls are withdrawn only from the queues: one by its own context, all of them by Close. */
  lemma WithdrawnTells<V>(s: State<V>, op: Op<V>)
    requires Inv(s)
    ensures var (s', outcome) := Apply(s, op);
      && s'.sendGone == s.sendGone + (if op.Close? then Elements(s.senders)
                                      else if op.CancelSend? && op.ticket in s.senders then {op.ticket} else {})
      && s'.receiveGone == s.receiveGone + (if op.Close? then Elements(s.receivers)
                                            else if op.CancelReceive? && op.ticket in s.receivers then {op.ticket}
                                            else {})
      && (op.CancelSend? ==> (outcome == ContextDone <==> op.ticket in s.senders))
      && (op.CancelReceive? ==> (outcome == ContextDone <==> op.ticket in s.receivers))
      && (op.Close? ==> s'.closed && s'.senders == [] && s'.receivers == [] && s'.buffer == s.buffer)
      && (s'.closed <==> s.closed || op.Close?)
  {
    hide Mirrors; hide SendBook; hide ReceiveBook;
    if s.closed { assert s.senders == [] && s.receivers == []; }
  }

  /** A served receive keeps its value. */
  lemma ValueStays<V>(s: State<V>, s': State<V>, t: Ticket)
    requires Inv(s) && Inv(s') && Extends(s, s') && t in s.served
    ensures t in s'.served && ValueFor(s', t) == ValueFor(s, t)
  {
    var k := Position(s.served, t);
    assert s'.served[k] == t && s'.delivered[k] == s.delivered[k];
    SamePosition(s.served, s'.served, t);
  }

  lemma SamePosition(a: seq<Ticket>, b: seq<Ticket>, t: Ticket)
    requires t in a && a <= b
    ensures Position(b, t) == Position(a, t)
  {
    var k := Position(a, t);
    assert b[k] == t && forall j :: 0 <= j < k ==> b[j] == a[j];
  }

  /** The k-th receive served has the k-th surviving value. */
  lemma ServedInOrder<V>(s: State<V>, t: Ticket)
    requires Inv(s) && t in s.served
    ensures var k := Position(s.served, t); k < |Surviving(s)| && ValueFor(s, t) == Surviving(s)[k]
  {
    InvConserves(s);
  }

  /** The ticket of the receive that the step tells a value. */
  function ToldTo<V>(s: State<V>, op: Op<V>): Ticket { if op.CancelReceive? then op.ticket else s.receives }

  lemma ToldIsServed<V>(s: State<V>, op: Op<V>)
    requires Inv(s) && Apply(s, op).1.Received?
    ensures var (s', outcome) := Apply(s, op);
      Inv(s') && ToldTo(s, op) in s'.served && outcome.value == ValueFor(s', ToldTo(s, op))
  {
    StepKeepsInv(s, op);
    if !op.CancelReceive? {
      ReceivedIsDelivered(s, op);
      var s' := Apply(s, op).0;
      assert s'.served[|s.served|] == s.receives;
    }
  }

  /**
   FIFO as callers see it, over every run: take the values passed to sends that were told `Sent` or
   `Parked`, in call order, and drop those withdrawn by a context or by Close.  Whatever value any
   receive is told, at once or on its re-check, the receive that is served k-th is told the k-th of
   these; and receives are served in call order (`FifoConservation`).
   */
  lemma CallersFifo<V>(capacity: int, before: seq<Op<V>>, op: Op<V>, later: seq<Op<V>>)
    ensures var s := Run(capacity, before);
      var (s', outcome) := Apply(s, op);
      Inv(s') && After(s', later).sends == SentValuesOf(capacity, before + [op] + later)
    ensures var s := Run(capacity, before);
      var (s', outcome) := Apply(s, op);
      Inv(s') &&
      var end := After(s', later);
      outcome.Received? ==>
        && ToldTo(s, op) in end.served
        && Position(end.served, ToldTo(s, op)) < |Surviving(end)|
        && outcome.value == Surviving(end)[Position(end.served, ToldTo(s, op))]
  {
    var s := Run(capacity, before);
    StepKeepsInv(s, op);
    var (s', outcome) := Apply(s, op);
    var end := After(s', later);
    InitIsInv<V>(capacity);
    AfterJoins(Init(capacity), before, op, later);
    SendsArePassedIn(Init(capacity), before + [op] + later);
    assert Init<V>(capacity).sends == [];
    hide Apply; hide Inv;
    if outcome.Received? {
      ToldIsServed(s, op);
      RunExtends(s', later);
      ValueStays(s', end, ToldTo(s, op));
      ServedInOrder(end, ToldTo(s, op));
    }
  }

  /** The values that callers passed in along a run of a new channel. */
  function SentValuesOf<V>(capacity: int, ops: seq<Op<V>>): seq<V> {
    InitIsInv<V>(capacity);
    SentValues(Init(capacity), ops)
  }

  lemma {:induction false} AfterJoins<V>(s: State<V>, before: seq<Op<V>>, op: Op<V>, later: seq<Op<V>>)
    requires Inv(s)
    ensures Inv(Apply(After(s, before), op).0)
    ensures After(s, before + [op] + later) == After(Apply(After(s, before), op).0, later)
    decreases |before|
  {
    hide Inv; hide Apply;
    StepKeepsInv(After(s, before), op);
    var all := before + [op] + later;
    if before == [] {
      assert all[0] == op && all[1..] == later;
    } else {
      StepKeepsInv(s, before[0]);
      AfterJoins(Apply(s, before[0]).0, before[1..], op, later);
      assert all[0] == before[0] && all[1..] == before[1..] + [op] + later;
    }
  }

  /** Shape over every run: receivers wait only on an empty open channel, senders only on a full open one. */
  lemma WaitingShape<V>(capacity: int, ops: seq<Op<V>>)
    ensures var s := Run(capacity, ops);
      && (s.receivers != [] ==> s.buffer == [] && s.senders == [] && !s.closed)
      && (s.senders != [] ==> |s.buffer| == s.capacity && !s.closed)
  {
    InitIsInv<V>(capacity);
  }

  /** What one step may do to a closed channel: take buffered values in order, nothing else. */
  lemma ClosedStep<V>(s: State<V>, op: Op<V>)
    requires Inv(s) && s.closed
    ensures var (s', outcome) := Apply(s, op);
      && s'.closed && s'.senders == [] && s'.receivers == [] && s'.sends == s.sends
      && Accepted(s') == Accepted(s)
      && ((op.Receive? || op.TryReceive?) && s.buffer != [] ==>
            outcome == Received(s.buffer[0]) && s'.buffer == s.buffer[1..])
      && (op.Receive? && s.buffer == [] ==> outcome == ChannelClosed && s' == s)
      && ((op.Send? || op.TrySend?) ==> outcome == ChannelClosed && s' == s)
  {
    if s.buffer != [] {
      assert s.delivered + [s.buffered[0]] + s.buffered[1..] == s.delivered + s.buffered;
    }
  }

  /**
   After Close both wait queues stay empty, no send is accepted, and exactly the values
   buffered at that point are still received, in order, before ErrChannelClosed.
   */
  lemma {:induction false} ClosedDrainsInOrder<V>(s: State<V>, ops: seq<Op<V>>)
    requires Inv(s) && s.closed
    ensures var s' := After(s, ops);
      && s'.closed && s'.senders == [] && s'.receivers == [] && s'.sends == s.sends
      && s'.delivered + s'.buffered == s.delivered + s.buffered
    decreases |ops|
  {
    if ops != [] {
      StepKeepsInv(s, ops[0]);
      ClosedStep(s, ops[0]);
      ClosedDrainsInOrder(Apply(s, ops[0]).0, ops[1..]);
    }
  }

  /** In `s'` a send whose context was done in `s` stands accepted for good, or gone for good. */
  ghost predicate SendSettled<V>(s: State<V>, t: Ticket, s': State<V>)
    requires Inv(s)
  {
    var (next, outcome) := Apply(s, CancelSend(t));
    && (outcome == Sent ==> next == s && multiset(Accepted(s'))[t] == 1 && t !in s'.sendGone)
    && (outcome == ContextDone ==>
          && t in s.senders && t in s'.sendGone
          && t !in s'.delivered && t !in s'.buffered && t !in s'.senders)
    && (outcome == Rejected && t < |s.sends| ==> next == s && t in s.sendGone && t !in Accepted(s') && t !in s'.senders)
    && (outcome == Sent || outcome == ContextDone || outcome == Rejected)
  }

  lemma SendPlaced<V>(s: State<V>, t: Ticket)
    requires Inv(s)
    ensures t in Accepted(s) ==> multiset(Accepted(s))[t] == 1 && t !in s.senders && t !in s.sendGone
    ensures t in s.senders ==> t !in Accepted(s) && t !in s.sendGone
    ensures t < |s.sends| && t !in s.sendGone ==> t in Accepted(s) || t in s.senders
  {
    assert s.delivered + (s.buffered + s.senders) == Accepted(s) + s.senders;
    Placed(Accepted(s), s.senders, |s.sends|, s.sendGone, t);
  }

  lemma CancelSendSettles<V>(s: State<V>, t: Ticket, later: seq<Op<V>>)
    requires Inv(s)
    ensures Inv(Apply(s, CancelSend(t)).0)
    ensures SendSettled(s, t, After(Apply(s, CancelSend(t)).0, later))
  {
    StepKeepsInv(s, CancelSend(t));
    var next := Apply(s, CancelSend(t)).0;
    RunExtends(next, later);
    SendPlaced(s, t);
    SendPlaced(After(next, later), t);
  }

  /**
   Cancellation and handoff of sends are atomic: at any point of any run, a parked send
   whose context is done was accepted exactly once, or was rejected by Close, or leaves the
   queue and its value is never delivered, then or later.
   */
  lemma CancelSendIsFinal<V>(capacity: int, before: seq<Op<V>>, t: Ticket, later: seq<Op<V>>)
    ensures var s := Run(capacity, before);
      Inv(Apply(s, CancelSend(t)).0) && SendSettled(s, t, After(Apply(s, CancelSend(t)).0, later))
  {
    CancelSendSettles(Run(capacity, before), t, later);
  }

  /** In `s'` a receive whose context was done in `s` keeps the one value it got, or is gone for good. */
  ghost predicate ReceiveSettled<V>(s: State<V>, t: Ticket, s': State<V>)
    requires Inv(s) && Inv(s')
  {
    var (next, outcome) := Apply(s, CancelReceive(t));
    && (outcome.Received? ==>
          next == s && multiset(s'.served)[t] == 1 && t !in s'.receiveGone && outcome.value == ValueFor(s', t))
    && (outcome == ContextDone ==>
          t in s.receivers && t in s'.receiveGone && t !in s'.served && t !in s'.receivers)
    && (outcome == Rejected && t < s.receives ==>
          next == s && t in s.receiveGone && t !in s'.served && t !in s'.receivers)
    && (outcome.Received? || outcome == ContextDone || outcome == Rejected)
  }

  lemma CancelReceiveSettles<V>(s: State<V>, t: Ticket, later: seq<Op<V>>)
    requires Inv(s)
    ensures Inv(Apply(s, CancelReceive(t)).0)
    ensures ReceiveSettled(s, t, After(Apply(s, CancelReceive(t)).0, later))
  {
    StepKeepsInv(s, CancelReceive(t));
    var next := Apply(s, CancelReceive(t)).0;
    var end := After(next, later);
    RunExtends(next, later);
    Placed(s.served, s.receivers, s.receives, s.receiveGone, t);
    Placed(end.served, end.receivers, end.receives, end.receiveGone, t);
    if t in s.served && t !in s.receivers { SamePosition(s.served, end.served, t); }
  }

  /** At any point of any run, a parked receive whose context is done got one value, or never gets one. */
  lemma CancelReceiveIsFinal<V>(capacity: int, before: seq<Op<V>>, t: Ticket, later: seq<Op<V>>)
    ensures var s := Run(capacity, before);
      Inv(Apply(s, CancelReceive(t)).0) && ReceiveSettled(s, t, After(Apply(s, CancelReceive(t)).0, later))
  {
    CancelReceiveSettles(Run(capacity, before), t, later);
  }

  /** The channel object; a waiter's value and result are read off the logs. */
  class FiberChannel<V> {
    var buffer: seq<V>
    const capacity: nat
    var closed: bool
    var senders: seq<Ticket>
    var receivers: seq<Ticket>
    var sends: seq<V>
    var delivered: seq<Ticket>
    var buffered: seq<Ticket>
    var receives: nat
    var served: seq<Ticket>
    ghost var sendGone: set<Ticket>
    ghost var receiveGone: set<Ticket>

    ghost function View(): State<V> reads this {
      State(capacity, closed, buffer, senders, receivers, sends, delivered, buffered, sendGone,
            receives, served, receiveGone)
    }

    ghost predicate Valid() reads this { Inv(View()) }

    constructor (n: int)
      ensures Valid() && View() == Init(n)
    {
      capacity := if n < 0 then 0 else n;
      buffer, closed, senders, receivers := [], false, [], [];
      sends, delivered, buffered, receives, served := [], [], [], 0, [];
      sendGone, receiveGone := {}, {};
      new;
      assert View() == Init(n);
      InitIsInv<V>(n);
    }

    /** Hands `v` to the oldest queued receiver. */
    method HandToReceiver(v: V)
      requires Valid() && receivers != []
      modifies this
      ensures View() == ToReceiver(old(View()), v)
    {
      var t := |sends|;
      sends := sends + [v];
      served := served + [receivers[0]];
      receivers := receivers[1..];
      delivered := delivered + [t];
    }

    method Send(v: V, hasFiber: bool) returns (outcome: Outcome<V>)
      requires Valid()
      modifies this
      ensures Valid() && (View(), outcome) == Apply(old(View()), Op.Send(v, hasFiber))
      ensures sends == old(sends) + if outcome.Sent? || outcome.Parked? then [v] else []
      ensures outcome.Sent? && old(receivers) == [] ==> buffer == old(buffer) + [v]
    {
      StepKeepsInv(View(), Op.Send(v, hasFiber));
      if closed { return ChannelClosed; }
      if |receivers| > 0 {
        HandToReceiver(v);
        return Sent;
      }
      var t := |sends|;
      if |buffer| < capacity {
        buffer, buffered, sends := buffer + [v], buffered + [t], sends + [v];
        return Sent;
      }
      if !hasFiber { return NeedsFiber; }
      senders, sends := senders + [t], sends + [v];
      return Parked(t);
    }

    method TrySend(v: V) returns (outcome: Outcome<V>)
      requires Valid()
      modifies this
      ensures Valid() && (View(), outcome) == Apply(old(View()), Op.TrySend(v))
      ensures sends == old(sends) + if outcome.Sent? then [v] else []
      ensures outcome.Sent? && old(receivers) == [] ==> buffer == old(buffer) + [v]
    {
      StepKeepsInv(View(), Op.TrySend(v));
      if closed { return ChannelClosed; }
      if |receivers| > 0 {
        HandToReceiver(v);
        return Sent;
      }
      if |buffer| >= capacity { return Full; }
      buffer, buffered, sends := buffer + [v], buffered + [|sends|], sends + [v];
      return Sent;
    }

    /** admitSenderLocked. */
    method Admit()
      requires Under(senders, |sends|)
      modifies this
      ensures View() == AdmitSender(old(View()))
    {
      if |senders| == 0 || closed || |buffer| >= capacity { return; }
      var t := senders[0];
      senders := senders[1..];
      buffer := buffer + [sends[t]];
      buffered := buffered + [t];
    }

    /** The part of Receive and TryReceive that takes a value at hand. */
    method Take() returns (v: V)
      requires Valid() && (buffer != [] || senders != [])
      modifies this
      ensures (View(), v) == TakeValue(old(View()))
    {
      served := served + [receives];
      receives := receives + 1;
      if |buffer| > 0 {
        v := buffer[0];
        delivered := delivered + [buffered[0]];
        buffer, buffered := buffer[1..], buffered[1..];
        Admit();
      } else {
        var t := senders[0];
        senders := senders[1..];
        delivered := delivered + [t];
        v := sends[t];
      }
    }

    method Receive(hasFiber: bool) returns (outcome: Outcome<V>)
      requires Valid()
      modifies this
      ensures Valid() && (View(), outcome) == Apply(old(View()), Op.Receive(hasFiber))
    {
      StepKeepsInv(View(), Op.Receive(hasFiber));
      if |buffer| > 0 || |senders| > 0 {
        var v := Take();
        return Received(v);
      }
      if closed { return ChannelClosed; }
      if !hasFiber { return NeedsFiber; }
      var t := ParkReceiver();
      return Parked(t);
    }

    method ParkReceiver() returns (t: Ticket)
      modifies this
      ensures t == old(receives)
      ensures View() == old(View()).(receives := t + 1, receivers := old(receivers) + [t])
    {
      t := receives;
      receivers, receives := receivers + [t], receives + 1;
    }

    method TryReceive() returns (outcome: Outcome<V>)
      requires Valid()
      modifies this
      ensures Valid() && (View(), outcome) == Apply(old(View()), Op.TryReceive)
    {
      StepKeepsInv(View(), Op.TryReceive);
      if |buffer| > 0 || |senders| > 0 {
        var v := Take();
        return Received(v);
      }
      return Empty;
    }

    /** The re-check of a parked SendCtx after its context is done. */
    method CancelSend(t: Ticket) returns (outcome: Outcome<V>)
      requires Valid()
      modifies this
      ensures Valid() && (View(), outcome) == Apply(old(View()), Op.CancelSend(t))
    {
      StepKeepsInv(View(), Op.CancelSend(t));
      if t in senders {
        senders := RemoveFirst(senders, t);
        sendGone := sendGone + {t};
        return ContextDone;
      }
      return if t in delivered || t in buffered then Sent else Rejected;
    }

    /** The re-check of a parked ReceiveCtx after its context is done. */
    method CancelReceive(t: Ticket) returns (outcome: Outcome<V>)
      requires Valid()
      modifies this
      ensures Valid() && (View(), outcome) == Apply(old(View()), Op.CancelReceive(t))
    {
      StepKeepsInv(View(), Op.CancelReceive(t));
      hide SendBook; hide ReceiveBook; hide QueueShape;
      if t in receivers {
        receivers := RemoveFirst(receivers, t);
        receiveGone := receiveGone + {t};
        return ContextDone;
      }
      if t in served { return Received(sends[delivered[Position(served, t)]]); }
      return Rejected;
    }

    method Close()
      requires Valid()
      modifies this
      ensures Valid() && View() == Apply(old(View()), Op.Close).0
    {
      StepKeepsInv(View(), Op.Close);
      if closed { return; }
      closed := true;
      RejectReceivers();
      RejectSenders();
    }

    method RejectReceivers()
      modifies this
      ensures View() == old(View()).(receivers := [], receiveGone := old(receiveGone) + Elements(old(receivers)))
    {
      ghost var start := View();
      for i := 0 to |receivers|
        invariant i <= |receivers|
        invariant View() == start.(receiveGone := start.receiveGone + Elements(start.receivers[..i]))
      {
        ElementsNext(receivers, i);
        receiveGone := receiveGone + {receivers[i]};
      }
      assert receivers[..|receivers|] == receivers;
      receivers := [];
    }

    method RejectSenders()
      modifies this
      ensures View() == old(View()).(senders := [], sendGone := old(sendGone) + Elements(old(senders)))
    {
      ghost var start := View();
      for i := 0 to |senders|
        invariant i <= |senders|
        invariant View() == start.(sendGone := start.sendGone + Elements(start.senders[..i]))
      {
        ElementsNext(senders, i);
        sendGone := sendGone + {senders[i]};
      }
      assert senders[..|senders|] == senders;
      senders := [];
    }
  }
}

/** Deliver all or drop: a connected client misses nothing it is due, and a dropped client
    misses exactly the one message that found its channel full. */
module Delivery {
  import opened Protocol
  import opened Clients
  import opened Machine
  import opened Safety
  import opened Ordering

  /** The accepted messages whose room held `c` at acceptance and which `c` did not send. */
  function Due(log: seq<Entry>, c: Client): seq<Message> {
    if log == [] then []
    else
      var rest := Due(log[..|log| - 1], c);
      if c in log[|log| - 1].to then rest + [log[|log| - 1].m] else rest
  }

  /** The frames of `k` are all that is due, or all but the last when that is still in
      delivery or overflowed. */
  ghost predicate Given(log: seq<Entry>, pending: bool, c: Client, k: Conn) {
    var due := Due(log, c);
    && (if pending || k.overflow then due != [] && Got(k) == due[..|due| - 1] else Got(k) == due)
    && (pending ==> !k.overflow && due[|due| - 1] == log[|log| - 1].m)
  }

  ghost predicate AllGiven(s: State) {
    forall c | c in s.conns :: Given(s.log, c in s.hub.ctl.deliver, c, s.conns[c])
  }

  /** Only a client on its way out, or out, has overflowed. */
  ghost predicate OverflowOk(s: State) {
    && (forall c | c in s.conns && s.conns[c].overflow ::
          !s.conns[c].reader.Fresh? && (c in s.hub.ctl.slow || c !in s.hub.clients))
    && (forall c | c in s.hub.ctl.slow :: c in s.conns && s.conns[c].overflow)
  }

  ghost predicate ToKnown(log: seq<Entry>, known: set<Client>) {
    forall i | 0 <= i < |log| :: log[i].to <= known
  }

  ghost predicate Delivered(s: State) {
    AllGiven(s) && OverflowOk(s) && ToKnown(s.log, s.conns.Keys)
  }

  // ---------------------------------------------------------------------------

  lemma DueAppend(log: seq<Entry>, e: Entry, c: Client)
    ensures Due(log + [e], c) == if c in e.to then Due(log, c) + [e.m] else Due(log, c)
  {
    assert (log + [e])[..|log|] == log;
  }

  lemma {:induction false} NothingDue(log: seq<Entry>, c: Client, known: set<Client>)
    requires ToKnown(log, known) && c !in known
    ensures Due(log, c) == []
  {
    if log != [] { NothingDue(log[..|log| - 1], c, known); }
  }

  lemma SameGiven(log: seq<Entry>, pending: bool, c: Client, k: Conn, k': Conn)
    requires Given(log, pending, c, k) && Got(k') == Got(k) && k'.overflow == k.overflow
    ensures Given(log, pending, c, k')
  {
  }

  /** What else is kept when no delivery, registration or acceptance happens. */
  lemma SideKept(s: State, s': State)
    requires OverflowOk(s) && s'.conns.Keys == s.conns.Keys && s'.hub.clients <= s.hub.clients
    requires s'.hub.ctl.slow == s.hub.ctl.slow
    requires forall d | d in s.conns :: s'.conns[d].overflow == s.conns[d].overflow
               && (s'.conns[d].reader.Fresh? ==> s.conns[d].reader.Fresh?)
    ensures OverflowOk(s')
  {
  }

  lemma PumpDelivered(s: State, c: Client, p: PumpAction)
    requires Safe(s) && Delivered(s) && Enabled(s, Pump(c, p))
    ensures Delivered(Apply(s, Pump(c, p)))
  {
    hide Given, RoomsOk, CtlOk, ToKnown;
    var s' := Apply(s, Pump(c, p));
    if p.Connect? {
      ConnectGiven(s, c);
      MoreKnown(s.log, s'.log, s.conns.Keys, s'.conns.Keys);
    } else {
      SideKept(s, s');
      assert s'.conns.Keys == s.conns.Keys;
      PumpGot(c, s.conns[c], p);
      SameGiven(s.log, c in s.hub.ctl.deliver, c, s.conns[c], s'.conns[c]);
    }
  }

  lemma ConnectGiven(s: State, c: Client)
    requires Safe(s) && Delivered(s) && c !in s.conns
    ensures c !in s.hub.ctl.deliver && Given(s.log, false, c, NewConn())
  {
    NothingDue(s.log, c, s.conns.Keys);
    assert c !in s.hub.clients;
  }

  lemma AcceptGiven(log: seq<Entry>, e: Entry, c: Client, k: Conn)
    requires Given(log, false, c, k) && (c in e.to ==> !k.overflow)
    ensures Given(log + [e], c in e.to, c, k)
  {
    DueAppend(log, e, c);
  }

  /** Between events no room member has overflowed. */
  lemma MembersKeptUp(s: State, room: string)
    requires RoomsOk(s.hub) && OverflowOk(s) && Idle(s.hub.ctl) && room in s.hub.rooms
    ensures forall d | d in s.hub.rooms[room] && d in s.conns :: !s.conns[d].overflow
  {
  }

  lemma HandleGiven(s: State, c: Client, at: int, order: seq<Client>)
    requires AllGiven(s) && RoomsOk(s.hub) && OverflowOk(s) && Enabled(s, Actor(Handle(c, at, order)))
    ensures AllGiven(HandleApply(s, c, at, order))
  {
    hide Given, OverflowOk, RoomsOk, HandleApply, HubEnabled;
    Accepts(s, c, at, order);
    HandleLeaves(s, c, at, order);
    var s' := HandleApply(s, c, at, order);
    SameGiven(s.log, false, c, s.conns[c], s'.conns[c]);
    if s'.log != s.log {
      var room := s.conns[c].reader.cmd.room;
      MembersKeptUp(s, room);
      var e := s'.log[|s.log|];
      forall d | d in s'.conns ensures Given(s'.log, d in s'.hub.ctl.deliver, d, s'.conns[d]) {
        AcceptGiven(s.log, e, d, s'.conns[d]);
      }
    }
  }

  lemma HandleOverflow(s: State, c: Client, at: int, order: seq<Client>)
    requires OverflowOk(s) && Enabled(s, Actor(Handle(c, at, order)))
    requires Known(s) && ToKnown(s.log, s.conns.Keys)
    ensures OverflowOk(HandleApply(s, c, at, order))
    ensures ToKnown(HandleApply(s, c, at, order).log, HandleApply(s, c, at, order).conns.Keys)
  {
    hide OverflowOk, ToKnown, HandleApply, HubEnabled;
    Accepts(s, c, at, order);
    HandleLeaves(s, c, at, order);
    var s' := HandleApply(s, c, at, order);
    SideKept(s, s');
    MoreKnown(s.log, s'.log, s.conns.Keys, s'.conns.Keys);
  }

  lemma MoreKnown(log: seq<Entry>, log': seq<Entry>, known: set<Client>, known': set<Client>)
    requires ToKnown(log, known) && known <= known'
    requires log' == log || (|log'| == |log| + 1 && log'[..|log|] == log && log'[|log|].to <= known)
    ensures ToKnown(log', known')
  {
  }

  lemma HandleDelivered(s: State, c: Client, at: int, order: seq<Client>)
    requires Safe(s) && Known(s) && Delivered(s) && Enabled(s, Actor(Handle(c, at, order)))
    ensures Delivered(HandleApply(s, c, at, order))
  {
    hide AllGiven, OverflowOk, RoomsOk, CtlOk, ChannelsOk, Known, ToKnown;
    HandleGiven(s, c, at, order);
    HandleOverflow(s, c, at, order);
  }

  lemma PushGiven(log: seq<Entry>, c: Client, k: Conn, m: Message)
    requires Given(log, true, c, k) && log != [] && m == log[|log| - 1].m
    ensures |k.buf| < c.depth ==> Given(log, false, c, Push(c, k, Live(m)))
    ensures Given(log, false, c, k.(overflow := true))
  {
    PushGot(c, k, Live(m));
    assert Got(k.(overflow := true)) == Got(k);
    var due := Due(log, c);
    assert due == due[..|due| - 1] + [due[|due| - 1]];
  }

  lemma DeliverDelivered(s: State, c: Client)
    requires CtlOk(s.hub) && OpenTo(s, c) && HandoffOk(s) && Delivered(s) && Enabled(s, Actor(Deliver(c)))
    ensures Delivered(DeliverApply(s, c))
  {
    hide Given;
    PushGiven(s.log, c, s.conns[c], s.hub.ctl.handoff.value);
  }

  lemma AnnounceDelivered(s: State, c: Client)
    requires Delivered(s) && Enabled(s, Actor(Announce(c))) && !s.hub.ctl.ann.Live?
    ensures Delivered(AnnounceApply(s, c))
  {
    hide Given, OverflowOk, ToKnown;
    var s' := AnnounceApply(s, c);
    SideKept(s, s');
    assert s'.conns.Keys == s.conns.Keys;
    PushGot(c, s.conns[c], s.hub.ctl.ann);
    SameGiven(s.log, c in s.hub.ctl.deliver, c, s.conns[c], Push(c, s.conns[c], s.hub.ctl.ann));
  }

  lemma OtherDelivered(s: State, a: HubAction)
    requires CtlOk(s.hub) && Delivered(s) && HubEnabled(s, a) && !a.Handle? && !a.Deliver? && !a.Announce?
    ensures Delivered(HubApply(s, a))
  {
    hide Given, OverflowOk, ToKnown, CtlOk, HubApply, HubEnabled;
    var s' := HubApply(s, a);
    QuietStep(s, a);
    if a.NextSlow? || a.Register? { OverflowStep(s, a); } else { SideKept(s, s'); }
    forall d | d in s'.conns ensures Given(s'.log, d in s'.hub.ctl.deliver, d, s'.conns[d]) {
      SameGiven(s.log, d in s.hub.ctl.deliver, d, s.conns[d], s'.conns[d]);
    }
  }

  lemma OverflowStep(s: State, a: HubAction)
    requires CtlOk(s.hub) && OverflowOk(s) && HubEnabled(s, a) && (a.NextSlow? || a.Register?)
    ensures OverflowOk(HubApply(s, a))
  {
  }

  lemma OpenClient(s: State, c: Client)
    requires Safe(s) && c in s.hub.ctl.deliver
    ensures OpenTo(s, c)
  {
  }

  lemma StepDelivered(s: State, a: Action)
    requires Safe(s) && Ordered(s) && Delivered(s) && Enabled(s, a) && Courteous(s, a)
    ensures Delivered(Apply(s, a))
  {
    hide Delivered, RoomsOk, CtlOk, Known, ConnsOk, LogOk, HandoffOk;
    match a {
      case Pump(c, p) => PumpDelivered(s, c, p);
      case Actor(h) =>
        if h.Deliver? { OpenClient(s, h.c); }
        if h.Handle? { HandleDelivered(s, h.c, h.at, h.order); }
        else if h.Deliver? { DeliverDelivered(s, h.c); }
        else if h.Announce? { AnnounceDelivered(s, h.c); }
        else { OtherDelivered(s, h); }
      case _ => DeliveredKept(s, Apply(s, a));
    }
  }

  lemma DeliveredKept(s: State, s': State)
    requires Delivered(s) && s'.hub == s.hub && s'.conns == s.conns && s'.log == s.log
    ensures Delivered(s')
  {
    hide Given;
  }

  lemma {:induction false} RunDelivered(s: State, acts: seq<Action>)
    requires Safe(s) && Ordered(s) && Delivered(s) && Runs(s, acts) && Polite(s, acts)
    ensures Delivered(Exec(s, acts)) && Safe(Exec(s, acts)) && Ordered(Exec(s, acts))
    decreases |acts|
  {
    hide Ordered, Delivered, Safe;
    if acts != [] {
      StepSafe(s, acts[0]);
      StepOrdered(s, acts[0]);
      StepDelivered(s, acts[0]);
      RunDelivered(Apply(s, acts[0]), acts[1..]);
    }
  }

  // ---------------------------------------------------------------------------

  /** On every polite run: a client whose delivery is not under way and whose channel never
      overflowed has exactly the messages due to it; one that overflowed lacks exactly the
      last of them, is out of the client set as soon as its event is over, and stays out. */
  lemma DeliverAllOrDrop(cfg: Config, acts: seq<Action>, c: Client)
    requires Runs(Init(cfg), acts) && Polite(Init(cfg), acts) && c in Exec(Init(cfg), acts).conns
    ensures var s := Exec(Init(cfg), acts); var due := Due(s.log, c); var got := Messages(Stream(s.conns[c]));
      && (c !in s.hub.ctl.deliver && !s.conns[c].overflow ==> got == due)
      && (c in s.hub.ctl.deliver || s.conns[c].overflow ==> due != [] && got == due[..|due| - 1])
      && (Idle(s.hub.ctl) && c in s.hub.clients ==> got == due)
  {
    InitSafe(cfg);
    RunDelivered(Init(cfg), acts);
    var s := Exec(Init(cfg), acts);
    assert Given(s.log, c in s.hub.ctl.deliver, c, s.conns[c]);
  }

  /** Overflowing means what it says: only a message that meets a full channel, on its way
      to a client it is due to, makes a client overflow. */
  lemma OverflowMeansFull(s: State, a: Action, c: Client)
    requires Enabled(s, a) && c in s.conns && c in Apply(s, a).conns
    requires !s.conns[c].overflow && Apply(s, a).conns[c].overflow
    ensures a == Actor(HubAction.Deliver(c)) && c in s.hub.ctl.deliver && |s.conns[c].buf| >= c.depth
  {
    if a.Actor? && !a.h.Deliver? {
      if a.h.Handle? || a.h.Announce? { NoOverflow(s, a.h, c); } else { QuietStep(s, a.h); }
    }
  }

  lemma NoOverflow(s: State, a: HubAction, c: Client)
    requires HubEnabled(s, a) && (a.Handle? || a.Announce?) && c in s.conns
    ensures c in HubApply(s, a).conns && HubApply(s, a).conns[c].overflow == s.conns[c].overflow
  {
  }
}

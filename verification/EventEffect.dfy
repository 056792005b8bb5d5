/** What one event does by the time the hub has worked through it, while the pumps, the
    persister and newcomers do as they please: the same for every order in which members,
    slow clients and rooms happen to be ranged over. */
module EventEffect {
  import opened Protocol
  import opened Clients
  import opened Machine
  import opened Safety
  import opened Progress
  import opened Ordering

  /** The clients an event drops, the members its message is for, and the message. */
  datatype Plan = Plan(drop: set<Client>, to: set<Client>, m: Message)

  function Slow(k: Ctl): set<Client> { set c | c in k.slow }

  /** The part of the plan's drops that has begun. */
  function Dropped(p: Plan, k: Ctl): set<Client> { p.drop - k.deliver - Slow(k) }

  /** The client being disconnected, in the rooms not yet ranged over. */
  ghost function StillIn(b: HubState, h: HubState, n: string): set<Client>
    requires n in b.rooms
  {
    if n in h.ctl.leaveTodo && h.ctl.leaving.Some? then b.rooms[n] * {h.ctl.leaving.value} else {}
  }

  /** The rooms, against those at the start of the event `b`: dropped clients are gone from
      every room but those the current disconnect has yet to range over. */
  ghost predicate RoomsDuring(b: HubState, p: Plan, h: HubState) {
    && (forall n | n in h.rooms ::
          && n in b.rooms
          && h.rooms[n] == b.rooms[n] - Dropped(p, h.ctl) + StillIn(b, h, n))
    && (forall n | n in b.rooms && n !in h.rooms :: b.rooms[n] <= Dropped(p, h.ctl))
  }

  ghost predicate CtlDuring(p: Plan, h: HubState) {
    var k := h.ctl;
    && k.deliver <= p.to && Slow(k) <= p.drop
    && (k.deliver != {} ==> k.annTodo == {} && k.reclaim.None?)
    && (k.leaving.Some? ==> k.leaving.value in Dropped(p, k))
    && (k.handoff.Some? && (k.deliver != {} || k.slow != []) ==> k.handoff.value == p.m)
    && (k.ann.Presence? || k.ann.Error?)
  }

  /** One connection, against its state at the start of the event. */
  ghost predicate ConnDuring(p: Plan, k: Ctl, c: Client, old': Conn, now: Conn) {
    && Got(now) == Got(old') + (if c in p.to - p.drop - k.deliver then [p.m] else [])
    && (now.closed <==> old'.closed || (c in Dropped(p, k) && k.leaving != Some(c)))
  }

  ghost predicate ConnsDuring(b: State, p: Plan, s: State) {
    && p.to + p.drop <= b.conns.Keys <= s.conns.Keys
    && forall c | c in b.conns :: ConnDuring(p, s.hub.ctl, c, b.conns[c], s.conns[c])
  }

  ghost predicate During(b: State, p: Plan, s: State) {
    && s.hub.clients == b.hub.clients - Dropped(p, s.hub.ctl)
    && RoomsDuring(b.hub, p, s.hub) && CtlDuring(p, s.hub) && ConnsDuring(b, p, s)
  }

  /** The effect of a whole event. */
  ghost predicate Settled(b: State, p: Plan, s: State) {
    && s.hub.clients == b.hub.clients - p.drop
    && (forall n :: n in s.hub.rooms <==> n in b.hub.rooms && b.hub.rooms[n] - p.drop != {})
    && (forall n | n in s.hub.rooms :: s.hub.rooms[n] == b.hub.rooms[n] - p.drop)
    && b.conns.Keys <= s.conns.Keys
    && forall c | c in b.conns ::
         && Got(s.conns[c]) == Got(b.conns[c]) + (if c in p.to - p.drop then [p.m] else [])
         && (s.conns[c].closed <==> b.conns[c].closed || c in p.drop)
  }

  /** The clients whose channel is full when their own turn to be sent the message comes. */
  function Overflowing(s: State, acts: seq<Action>): set<Client>
    requires Runs(s, acts)
    decreases |acts|
  {
    if acts == [] then {}
    else (if FindsFull(s, acts[0]) then {acts[0].h.c} else {}) + Overflowing(Apply(s, acts[0]), acts[1..])
  }

  predicate FindsFull(s: State, a: Action) {
    a.Actor? && a.h.Deliver? && a.h.c in s.conns && |s.conns[a.h.c].buf| >= a.h.c.depth
  }

  /** The plan foretells who will overflow among those still to be sent the message. */
  ghost predicate Foretold(p: Plan, s: State, acts: seq<Action>)
    requires Runs(s, acts)
  {
    forall c | c in s.hub.ctl.deliver :: c in p.drop <==> c in Overflowing(s, acts)
  }

  // ---------------------------------------------------------------------------

  lemma ConnKept(p: Plan, k: Ctl, k': Ctl, c: Client, old': Conn, now: Conn, now': Conn)
    requires ConnDuring(p, k, c, old', now) && Got(now') == Got(now) && now'.closed == now.closed
    requires k'.deliver == k.deliver && Slow(k') == Slow(k) && (k'.leaving == Some(c) <==> k.leaving == Some(c))
    ensures ConnDuring(p, k', c, old', now')
  {
  }

  lemma AnnounceDuring(b: State, p: Plan, s: State, c: Client)
    requires Safe(s) && During(b, p, s) && HubEnabled(s, Announce(c))
    ensures During(b, p, AnnounceApply(s, c))
  {
    hide ConnDuring, RoomsOk;
    var s' := AnnounceApply(s, c);
    assert OpenTo(s, c);
    PushGot(c, s.conns[c], s.hub.ctl.ann);
    forall d | d in b.conns ensures ConnDuring(p, s'.hub.ctl, d, b.conns[d], s'.conns[d]) {
      ConnKept(p, s.hub.ctl, s'.hub.ctl, d, b.conns[d], s.conns[d], s'.conns[d]);
    }
  }

  lemma GivenConn(p: Plan, k: Ctl, k': Ctl, c: Client, old': Conn, now: Conn, now': Conn)
    requires ConnDuring(p, k, c, old', now) && c in k.deliver && c in p.to
    requires k'.deliver == k.deliver - {c} && k'.leaving == k.leaving && (c in p.drop <==> |now.buf| >= c.depth)
    requires if |now.buf| < c.depth then now' == Push(c, now, Live(p.m)) && k'.slow == k.slow
             else now' == now.(overflow := true) && k'.slow == k.slow + [c]
    ensures ConnDuring(p, k', c, old', now')
  {
    PushGot(c, now, Live(p.m));
    assert Slow(k.(slow := k.slow + [c])) == Slow(k) + {c};
  }

  lemma DeliverDuring(b: State, p: Plan, s: State, c: Client)
    requires Safe(s) && During(b, p, s) && HubEnabled(s, Deliver(c))
    requires c in p.drop <==> |s.conns[c].buf| >= c.depth
    ensures During(b, p, DeliverApply(s, c))
  {
    hide ConnDuring, RoomsOk;
    var s' := DeliverApply(s, c); var k := s.hub.ctl; var k' := s'.hub.ctl;
    assert OpenTo(s, c);
    DeliverSlow(p, s, c);
    GivenConn(p, k, k', c, b.conns[c], s.conns[c], s'.conns[c]);
    forall d | d in b.conns && d != c ensures ConnDuring(p, k', d, b.conns[d], s'.conns[d]) {
      ConnMoved(p, k, k', c, d, b.conns[d], s.conns[d]);
    }
  }

  lemma DeliverSlow(p: Plan, s: State, c: Client)
    requires c in s.conns && !s.conns[c].closed && s.hub.ctl.handoff.Some? && c in s.hub.ctl.deliver
    requires Slow(s.hub.ctl) <= p.drop && (c in p.drop <==> |s.conns[c].buf| >= c.depth)
    ensures var k' := DeliverApply(s, c).hub.ctl;
      && Slow(k') == Slow(s.hub.ctl) + (if |s.conns[c].buf| < c.depth then {} else {c})
      && Dropped(p, k') == Dropped(p, s.hub.ctl) && Slow(k') <= p.drop
  {
    hide Dropped, Slow;
    SlowGrows(p, s.hub.ctl, DeliverApply(s, c).hub.ctl, c, |s.conns[c].buf| >= c.depth);
  }

  lemma SlowGrows(p: Plan, k: Ctl, k': Ctl, c: Client, full: bool)
    requires c in k.deliver && Slow(k) <= p.drop && (c in p.drop <==> full)
    requires k'.deliver == k.deliver - {c} && k'.slow == if full then k.slow + [c] else k.slow
    ensures Slow(k') == Slow(k) + (if full then {c} else {})
    ensures Dropped(p, k') == Dropped(p, k) && Slow(k') <= p.drop
  {
  }

  lemma ConnMoved(p: Plan, k: Ctl, k': Ctl, c: Client, d: Client, old': Conn, now: Conn)
    requires ConnDuring(p, k, d, old', now) && d != c
    requires k'.deliver == k.deliver - {c} && Dropped(p, k') == Dropped(p, k) && k'.leaving == k.leaving
    ensures ConnDuring(p, k', d, old', now)
  {
  }

  lemma DepartDuring(b: State, p: Plan, s: State, room: string, order: seq<Client>)
    requires Safe(s) && During(b, p, s) && HubEnabled(s, Depart(room, order))
    ensures During(b, p, HubApply(s, Depart(room, order)))
  {
    hide ConnDuring, RoomsDuring, Got, Enumerates, Names;
    var s' := HubApply(s, Depart(room, order));
    assert Dropped(p, s'.hub.ctl) == Dropped(p, s.hub.ctl);
    RoomsDepart(b.hub, p, s.hub, room, order);
    forall d | d in b.conns ensures ConnDuring(p, s'.hub.ctl, d, b.conns[d], s'.conns[d]) {
      ConnKept(p, s.hub.ctl, s'.hub.ctl, d, b.conns[d], s.conns[d], s'.conns[d]);
    }
  }

  lemma RoomsDepart(b: HubState, p: Plan, h: HubState, room: string, order: seq<Client>)
    requires RoomsDuring(b, p, h) && h.ctl.leaving.Some? && room in h.ctl.leaveTodo && room in h.rooms
    requires h.ctl.leaving.value in Dropped(p, h.ctl)
    ensures RoomsDuring(b, p, DepartHub(h, room, order))
  {
    hide Names;
    assert Dropped(p, DepartHub(h, room, order).ctl) == Dropped(p, h.ctl);
  }

  lemma ReclaimDuring(b: State, p: Plan, s: State)
    requires Safe(s) && During(b, p, s) && HubEnabled(s, Reclaim)
    ensures During(b, p, HubApply(s, Reclaim))
  {
    hide ConnDuring, RoomsOk;
    var s' := HubApply(s, Reclaim); var room := s.hub.ctl.reclaim.value;
    assert Dropped(p, s'.hub.ctl) == Dropped(p, s.hub.ctl);
    forall x | s.hub.rooms[room] == {} && x in b.hub.rooms[room] ensures x in Dropped(p, s.hub.ctl) {
      assert x !in s.hub.rooms[room];
    }
    forall d | d in b.conns ensures ConnDuring(p, s'.hub.ctl, d, b.conns[d], s'.conns[d]) {
      ConnKept(p, s.hub.ctl, s'.hub.ctl, d, b.conns[d], s.conns[d], s'.conns[d]);
    }
  }

  lemma ClosedConn(p: Plan, k: Ctl, c: Client, old': Conn, now: Conn)
    requires ConnDuring(p, k, c, old', now) && k.leaving == Some(c) && c in Dropped(p, k)
    ensures ConnDuring(p, k.(leaving := None), c, old', now.(closed := true))
  {
  }

  lemma CloseDuring(b: State, p: Plan, s: State)
    requires Safe(s) && During(b, p, s) && HubEnabled(s, CloseSend)
    ensures During(b, p, HubApply(s, CloseSend))
  {
    hide ConnDuring, RoomsOk;
    var s' := HubApply(s, CloseSend); var c := s.hub.ctl.leaving.value;
    assert OpenTo(s, c);
    assert Dropped(p, s'.hub.ctl) == Dropped(p, s.hub.ctl);
    ClosedConn(p, s.hub.ctl, c, b.conns[c], s.conns[c]);
    forall d | d in b.conns && d != c ensures ConnDuring(p, s'.hub.ctl, d, b.conns[d], s'.conns[d]) {
      ConnKept(p, s.hub.ctl, s'.hub.ctl, d, b.conns[d], s.conns[d], s'.conns[d]);
    }
  }

  lemma NextSlowDuring(b: State, p: Plan, s: State)
    requires Safe(s) && During(b, p, s) && HubEnabled(s, NextSlow)
    ensures During(b, p, HubApply(s, NextSlow))
  {
    hide ConnDuring, RoomsOk;
    var s' := HubApply(s, NextSlow); var k := s.hub.ctl; var c := k.slow[0];
    assert c in Slow(k) && c !in Slow(s'.hub.ctl);
    assert Slow(k) == Slow(s'.hub.ctl) + {c};
    assert Dropped(p, s'.hub.ctl) == Dropped(p, k) + {c};
    forall d | d in b.conns ensures ConnDuring(p, s'.hub.ctl, d, b.conns[d], s'.conns[d]) {
      SlowConn(p, k, s'.hub.ctl, c, d, b.conns[d], s.conns[d]);
    }
  }

  lemma SlowConn(p: Plan, k: Ctl, k': Ctl, c: Client, d: Client, old': Conn, now: Conn)
    requires ConnDuring(p, k, d, old', now) && c !in Dropped(p, k)
    requires k'.deliver == k.deliver && Dropped(p, k') == Dropped(p, k) + {c}
    requires k.leaving.None? && k'.leaving == Some(c)
    ensures ConnDuring(p, k', d, old', now)
  {
  }

  lemma HandOffDuring(b: State, p: Plan, s: State, sent: bool)
    requires Safe(s) && During(b, p, s) && HubEnabled(s, HandOff(sent))
    ensures During(b, p, HandOffApply(s, sent))
  {
    hide ConnDuring, RoomsOk;
    var s' := HandOffApply(s, sent);
    forall d | d in b.conns ensures ConnDuring(p, s'.hub.ctl, d, b.conns[d], s'.conns[d]) {
      ConnKept(p, s.hub.ctl, s'.hub.ctl, d, b.conns[d], s.conns[d], s'.conns[d]);
    }
  }

  lemma WorkDuring(b: State, p: Plan, s: State, a: HubAction)
    requires Safe(s) && During(b, p, s) && HubEnabled(s, a) && Work(a)
    requires a.Deliver? ==> (a.c in p.drop <==> FindsFull(s, Actor(a)))
    ensures During(b, p, HubApply(s, a))
  {
    hide Safe, During;
    match a {
      case Announce(c) => AnnounceDuring(b, p, s, c);
      case Reclaim => ReclaimDuring(b, p, s);
      case Depart(room, order) => DepartDuring(b, p, s, room, order);
      case CloseSend => CloseDuring(b, p, s);
      case Deliver(c) => DeliverDuring(b, p, s, c);
      case NextSlow => NextSlowDuring(b, p, s);
      case HandOff(sent) => HandOffDuring(b, p, s, sent);
    }
  }

  /** A step of anybody but the hub. */
  lemma OthersDuring(b: State, p: Plan, s: State, a: Action)
    requires During(b, p, s) && Enabled(s, a) && !a.Actor?
    ensures During(b, p, Apply(s, a))
  {
    hide ConnDuring, RoomsDuring, CtlDuring, Got, Apply, Enabled;
    var s' := Apply(s, a);
    OthersKeep(s, a);
    forall d | d in b.conns ensures ConnDuring(p, s'.hub.ctl, d, b.conns[d], s'.conns[d]) {
      ConnKept(p, s.hub.ctl, s'.hub.ctl, d, b.conns[d], s.conns[d], s'.conns[d]);
    }
  }

  lemma OthersKeep(s: State, a: Action)
    requires Enabled(s, a) && !a.Actor?
    ensures var s' := Apply(s, a);
      && s'.hub == s.hub && s.conns.Keys <= s'.conns.Keys
      && forall d | d in s.conns :: Got(s'.conns[d]) == Got(s.conns[d]) && s'.conns[d].closed == s.conns[d].closed
  {
    hide Got, PumpConn, HubEnabled, HubApply;
    if a.Pump? && !a.p.Connect? { PumpKeeps(a.c, s.conns[a.c], a.p); }
  }

  lemma PumpKeeps(c: Client, k: Conn, p: PumpAction)
    ensures Got(PumpConn(c, k, p)) == Got(k) && PumpConn(c, k, p).closed == k.closed
  {
    PumpGot(c, k, p);
  }

  /** Nobody overflows who was not to be sent the message. */
  lemma {:induction false} OverflowingAreDue(s: State, acts: seq<Action>)
    requires Runs(s, acts) && WithinEvent(acts)
    ensures Overflowing(s, acts) <= s.hub.ctl.deliver
    decreases |acts|
  {
    if acts != [] {
      WorkDelivers(s, acts[0]);
      assert WithinEvent(acts[1..]);
      OverflowingAreDue(Apply(s, acts[0]), acts[1..]);
    }
  }

  lemma WorkDelivers(s: State, a: Action)
    requires Enabled(s, a) && (a.Actor? ==> Work(a.h))
    ensures var todo := s.hub.ctl.deliver; var todo' := Apply(s, a).hub.ctl.deliver;
      if a.Actor? && a.h.Deliver? then a.h.c in todo && (Apply(s, a).panicked || todo' == todo - {a.h.c})
      else todo' == todo
  {
    if a.Actor? && !a.h.Deliver? && !a.h.Announce? { QuietStep(s, a.h); }
  }

  lemma ForetoldStep(p: Plan, s: State, acts: seq<Action>)
    requires Runs(s, acts) && WithinEvent(acts) && acts != [] && Foretold(p, s, acts) && !Apply(s, acts[0]).panicked
    ensures Foretold(p, Apply(s, acts[0]), acts[1..])
    ensures acts[0].Actor? && acts[0].h.Deliver? ==> (acts[0].h.c in p.drop <==> FindsFull(s, acts[0]))
  {
    hide Apply, Enabled;
    WorkDelivers(s, acts[0]);
    assert WithinEvent(acts[1..]);
    OverflowingAreDue(Apply(s, acts[0]), acts[1..]);
  }

  lemma {:induction false} WorkThrough(b: State, p: Plan, s: State, acts: seq<Action>)
    requires Safe(s) && During(b, p, s) && WithinEvent(acts) && Runs(s, acts) && Foretold(p, s, acts)
    ensures Safe(Exec(s, acts)) && During(b, p, Exec(s, acts))
    decreases |acts|
  {
    hide Safe, During, Foretold;
    if acts != [] {
      StepSafe(s, acts[0]);
      NotPanicked(Apply(s, acts[0]));
      ForetoldStep(p, s, acts);
      assert WithinEvent(acts[1..]);
      if acts[0].Actor? { WorkDuring(b, p, s, acts[0].h); } else { OthersDuring(b, p, s, acts[0]); }
      WorkThrough(b, p, Apply(s, acts[0]), acts[1..]);
    }
  }

  lemma Settles(b: State, p: Plan, s: State)
    requires Safe(s) && During(b, p, s) && Idle(s.hub.ctl)
    ensures Settled(b, p, s)
  {
    assert Slow(s.hub.ctl) == {} && Dropped(p, s.hub.ctl) == p.drop;
    forall c | c in b.conns
      ensures Got(s.conns[c]) == Got(b.conns[c]) + (if c in p.to - p.drop then [p.m] else [])
      ensures s.conns[c].closed <==> b.conns[c].closed || c in p.drop
    {
      assert ConnDuring(p, s.hub.ctl, c, b.conns[c], s.conns[c]);
      assert p.to - p.drop - {} == p.to - p.drop;
    }
  }

  // ---------------------------------------------------------------------------

  /** Broadcast: whatever the order of its loops and whatever the pumps do meanwhile, a
      message drops exactly the members, other than its sender, whose channel was full when
      their turn came; it reaches exactly the others; every room loses exactly the dropped
      ones, and survives if and only if somebody is left. */
  lemma BroadcastEffect(s: State, c: Client, at: int, acts: seq<Action>)
    requires Safe(s) && Ordered(s) && Enabled(s, Actor(Handle(c, at, [])))
    requires s.conns[c].reader.cmd.Say? && s.conns[c].reader.cmd.room in s.hub.rooms
    requires WithinEvent(acts) && Runs(Apply(s, Actor(Handle(c, at, []))), acts)
    requires Idle(Exec(Apply(s, Actor(Handle(c, at, []))), acts).hub.ctl)
    ensures var s1 := Apply(s, Actor(Handle(c, at, []))); var p := BroadcastPlan(s, c, at, acts);
      p.drop <= p.to && Settled(s, p, Exec(s1, acts))
  {
    var s1 := Apply(s, Actor(Handle(c, at, []))); var p := BroadcastPlan(s, c, at, acts);
    hide Safe, Ordered, During, Settled, Overflowing, HandleApply, Runs, Exec, Enumerates;
    StepSafe(s, Actor(Handle(c, at, [])));
    OverflowingAreDue(s1, acts);
    BroadcastBegins(s, c, at, p);
    Ends(s, p, s1, acts);
  }

  /** From the beginning of an event to its end. */
  lemma Ends(b: State, p: Plan, s: State, acts: seq<Action>)
    requires Safe(s) && During(b, p, s) && WithinEvent(acts) && Runs(s, acts) && Foretold(p, s, acts)
    requires Idle(Exec(s, acts).hub.ctl)
    ensures Settled(b, p, Exec(s, acts))
  {
    WorkThrough(b, p, s, acts);
    Settles(b, p, Exec(s, acts));
  }

  /** Whom the message is for, and whom it will drop. */
  ghost function BroadcastPlan(s: State, c: Client, at: int, acts: seq<Action>): Plan
    requires Enabled(s, Actor(Handle(c, at, []))) && s.conns[c].reader.cmd.Say?
    requires s.conns[c].reader.cmd.room in s.hub.rooms
    requires Runs(Apply(s, Actor(Handle(c, at, []))), acts)
  {
    var cmd := s.conns[c].reader.cmd;
    Plan(Overflowing(Apply(s, Actor(Handle(c, at, []))), acts), s.hub.rooms[cmd.room] - {c},
         Message(0, cmd.room, c.id, c.name, cmd.text, at, |s.log|))
  }

  lemma BroadcastBegins(s: State, c: Client, at: int, p: Plan)
    requires Safe(s) && Ordered(s) && HubEnabled(s, Handle(c, at, [])) && s.conns[c].reader.cmd.Say?
    requires s.conns[c].reader.cmd.room in s.hub.rooms
    requires p.to == s.hub.rooms[s.conns[c].reader.cmd.room] - {c}
    requires p.m == Message(0, s.conns[c].reader.cmd.room, c.id, c.name, s.conns[c].reader.cmd.text, at, |s.log|)
    ensures HandleApply(s, c, at, []).hub.ctl.deliver == p.to
    ensures p.drop <= p.to ==> During(s, p, HandleApply(s, c, at, []))
  {
    hide Got, HandleApply, LogOk, ConnsOk;
    SayHandled(s, c, at);
    var s1 := HandleApply(s, c, at, []);
    assert p.drop <= p.to ==> Dropped(p, s1.hub.ctl) == {};
    forall d | d in s.conns && p.drop <= p.to ensures ConnDuring(p, s1.hub.ctl, d, s.conns[d], s1.conns[d]) {
      SameStream(s.conns[d]);
    }
  }

  lemma SayHandled(s: State, c: Client, at: int)
    requires HubEnabled(s, Handle(c, at, [])) && s.conns[c].reader.cmd.Say? && s.conns[c].reader.cmd.room in s.hub.rooms
    ensures var cmd := s.conns[c].reader.cmd; var s1 := HandleApply(s, c, at, []);
      && s1.conns == s.conns[c := s.conns[c].(reader := Reading)]
      && s1.hub.rooms == s.hub.rooms && s1.hub.clients == s.hub.clients
      && s1.hub.ctl == s.hub.ctl.(deliver := s.hub.rooms[cmd.room] - {c},
           handoff := Some(Message(0, cmd.room, c.id, c.name, cmd.text, at, |s.log|)))
  {
  }

  lemma SameStream(k: Conn)
    ensures Got(k.(reader := Reading)) == Got(k) == Got(k.(reader := Gone))
  {
  }

  /** Disconnect: the client leaves the client set and every room, only rooms it had to
      itself disappear, nobody else's membership or messages change, and its channel closes. */
  lemma DisconnectEffect(s: State, c: Client, m: Message, acts: seq<Action>)
    requires Safe(s) && Ordered(s) && Enabled(s, Actor(HubAction.Unregister(c))) && c in s.hub.clients
    requires WithinEvent(acts) && Runs(Apply(s, Actor(HubAction.Unregister(c))), acts)
    requires Idle(Exec(Apply(s, Actor(HubAction.Unregister(c))), acts).hub.ctl)
    ensures Settled(s, Plan({c}, {}, m), Exec(Apply(s, Actor(HubAction.Unregister(c))), acts))
  {
    var s1 := Apply(s, Actor(HubAction.Unregister(c)));
    StepSafe(s, Actor(HubAction.Unregister(c)));
    DisconnectBegins(s, c, Plan({c}, {}, m));
    Ends(s, Plan({c}, {}, m), s1, acts);
  }

  lemma DisconnectBegins(s: State, c: Client, p: Plan)
    requires Safe(s) && HubEnabled(s, HubAction.Unregister(c)) && c in s.hub.clients
    requires s.hub.ctl.ann.Presence? || s.hub.ctl.ann.Error?
    requires p.drop == {c} && p.to == {}
    ensures HubApply(s, HubAction.Unregister(c)).hub.ctl.deliver == {}
    ensures During(s, p, HubApply(s, HubAction.Unregister(c)))
  {
    hide Got;
    var s1 := HubApply(s, HubAction.Unregister(c));
    assert Slow(s1.hub.ctl) == {} && Dropped(p, s1.hub.ctl) == {c};
    forall d | d in s.conns ensures ConnDuring(p, s1.hub.ctl, d, s.conns[d], s1.conns[d]) {
      SameStream(s.conns[d]);
    }
  }

  // ---------------------------------------------------------------------------
  // Without interruption
  // ---------------------------------------------------------------------------

  /** The members a message finds with a full channel. */
  function FullAmong(s: State, to: set<Client>): set<Client>
    requires to <= s.conns.Keys
  {
    set c | c in to && |s.conns[c].buf| >= c.depth
  }

  /** Nothing has been received by a write pump, and nobody has connected. */
  ghost predicate Untaken(s: State, s': State) {
    s'.conns.Keys == s.conns.Keys && forall c | c in s.conns :: s'.conns[c].taken == s.conns[c].taken
  }

  lemma {:induction false} AloneTakesNothing(s: State, acts: seq<Action>)
    requires HubOnly(acts) && Runs(s, acts)
    ensures Untaken(s, Exec(s, acts))
    decreases |acts|
  {
    if acts != [] {
      WorkTakesNothing(s, acts[0].h);
      AloneTakesNothing(Apply(s, acts[0]), acts[1..]);
    }
  }

  lemma WorkTakesNothing(s: State, a: HubAction)
    requires HubEnabled(s, a) && Work(a)
    ensures Untaken(s, HubApply(s, a))
  {
    if !a.Deliver? && !a.Announce? { QuietStep(s, a); }
  }

  /** With nobody taking frames away, whoever overflows had a full channel from the start:
      the hub sends the message to everybody before it does anything else. */
  lemma {:induction false} AloneOverflowing(s: State, acts: seq<Action>)
    requires Safe(s) && HubOnly(acts) && Runs(s, acts) && Exec(s, acts).hub.ctl.deliver == {}
    requires s.hub.ctl.deliver != {} ==> s.hub.ctl.annTodo == {} && s.hub.ctl.reclaim.None?
    requires s.hub.ctl.deliver <= s.conns.Keys
    ensures Overflowing(s, acts) == FullAmong(s, s.hub.ctl.deliver)
    decreases |acts|
  {
    hide Safe, Apply, Enabled;
    OverflowingAreDue(s, acts);
    if s.hub.ctl.deliver != {} {
      AloneDelivers(s, acts[0]);
      StepSafe(s, acts[0]);
      AloneOverflowing(Apply(s, acts[0]), acts[1..]);
    }
  }

  /** The first steps of the hub, while it has the message to send. */
  lemma AloneDelivers(s: State, a: Action)
    requires Safe(s) && Enabled(s, a) && a.Actor? && Work(a.h) && s.hub.ctl.deliver != {}
    requires s.hub.ctl.annTodo == {} && s.hub.ctl.reclaim.None?
    ensures a.h.Deliver? && a.h.c in s.hub.ctl.deliver
    ensures var s' := Apply(s, a);
      && s'.hub.ctl.annTodo == {} && s'.hub.ctl.reclaim.None? && s'.conns.Keys == s.conns.Keys
      && s'.hub.ctl.deliver == s.hub.ctl.deliver - {a.h.c}
      && forall d | d in s.conns && d != a.h.c :: s'.conns[d] == s.conns[d]
  {
    assert CtlOk(s.hub);
    if a.h.Deliver? { assert OpenTo(s, a.h.c); }
  }

  /** What is in the channels, when nothing has been taken out of them. */
  ghost predicate ChannelsSettled(b: State, p: Plan, s: State) {
    s.conns.Keys == b.conns.Keys && forall c | c in b.conns ::
      Messages(s.conns[c].buf) == Messages(b.conns[c].buf) + (if c in p.to - p.drop then [p.m] else [])
  }

  lemma SettledAlone(b: State, p: Plan, s: State)
    requires Settled(b, p, s) && Untaken(b, s)
    ensures ChannelsSettled(b, p, s)
  {
    hide Messages;
    forall c | c in b.conns
      ensures Messages(s.conns[c].buf) == Messages(b.conns[c].buf) + (if c in p.to - p.drop then [p.m] else [])
    {
      MessagesConcat(b.conns[c].taken, b.conns[c].buf);
      MessagesConcat(s.conns[c].taken, s.conns[c].buf);
      var taken := Messages(b.conns[c].taken);
      assert Got(s.conns[c])[|taken|..] == Messages(s.conns[c].buf);
      assert Got(b.conns[c])[|taken|..] == Messages(b.conns[c].buf);
    }
  }

  /** Broadcast on its own: the dropped members are those whose channel was full beforehand. */
  lemma BroadcastAlone(s: State, c: Client, at: int, acts: seq<Action>)
    requires Safe(s) && Ordered(s) && Enabled(s, Actor(Handle(c, at, [])))
    requires s.conns[c].reader.cmd.Say? && s.conns[c].reader.cmd.room in s.hub.rooms
    requires HubOnly(acts) && Runs(Apply(s, Actor(Handle(c, at, []))), acts)
    requires Idle(Exec(Apply(s, Actor(Handle(c, at, []))), acts).hub.ctl)
    ensures var p := BroadcastPlan(s, c, at, acts); var end := Exec(Apply(s, Actor(Handle(c, at, []))), acts);
      p.to <= s.conns.Keys && p.drop == FullAmong(s, p.to) && Settled(s, p, end) && ChannelsSettled(s, p, end)
  {
    hide Settled, Ordered, Untaken, ChannelsSettled;
    var s1 := Apply(s, Actor(Handle(c, at, [])));
    BroadcastEffect(s, c, at, acts);
    StepSafe(s, Actor(Handle(c, at, [])));
    SayDue(s, c, at);
    AloneOverflowing(s1, acts);
    AloneTakesNothing(s1, acts);
    HandleTakesNothing(s, c, at, Exec(s1, acts));
    SettledAlone(s, BroadcastPlan(s, c, at, acts), Exec(s1, acts));
  }

  lemma SayDue(s: State, c: Client, at: int)
    requires Safe(s) && Ordered(s) && HubEnabled(s, Handle(c, at, [])) && s.conns[c].reader.cmd.Say?
    requires s.conns[c].reader.cmd.room in s.hub.rooms
    ensures var s1 := HandleApply(s, c, at, []); var to := s.hub.rooms[s.conns[c].reader.cmd.room] - {c};
      && s1.hub.ctl.deliver == to <= s.conns.Keys && s1.conns.Keys == s.conns.Keys
      && FullAmong(s1, to) == FullAmong(s, to)
      && s1.hub.ctl.annTodo == {} && s1.hub.ctl.reclaim.None?
  {
    hide HandleApply, ConnsOk, LogOk;
    SayHandled(s, c, at);
  }

  lemma HandleTakesNothing(s: State, c: Client, at: int, end: State)
    requires HubEnabled(s, Handle(c, at, [])) && s.conns[c].reader.cmd.Say? && s.conns[c].reader.cmd.room in s.hub.rooms
    requires Untaken(HandleApply(s, c, at, []), end)
    ensures Untaken(s, end)
  {
    hide HandleApply;
    SayHandled(s, c, at);
  }
}

/** The hub never touches a closed channel, as long as no dropped client joins a room. */
module Safety {
  import opened Protocol
  import opened Clients
  import opened Machine

  /** Every step but one: the hub taking a join from a client it has already dropped. */
  ghost predicate Courteous(s: State, a: Action) {
    a.Actor? && a.h.Handle? && a.h.c in s.conns && s.conns[a.h.c].reader.Submitting?
    && s.conns[a.h.c].reader.cmd.Join? ==>
      a.h.c in s.hub.clients
  }

  ghost predicate Polite(s: State, acts: seq<Action>)
    requires Runs(s, acts)
    decreases |acts|
  {
    acts == [] || (Courteous(s, acts[0]) && Polite(Apply(s, acts[0]), acts[1..]))
  }

  ghost predicate OpenTo(s: State, c: Client) {
    c in s.conns && !s.conns[c].closed && !s.conns[c].reader.Fresh?
  }

  /** Room members are connected, except the one being disconnected in the rooms not yet
      ranged over; and no room is empty, except the one about to be deleted. */
  ghost predicate RoomsOk(h: HubState) {
    && (forall n | n in h.rooms :: forall c | c in h.rooms[n] ::
          c in h.clients || (h.ctl.leaving == Some(c) && n in h.ctl.leaveTodo))
    && (forall n | n in h.rooms :: h.rooms[n] == {} ==> h.ctl.reclaim == Some(n))
  }

  ghost predicate CtlOk(h: HubState) {
    var k := h.ctl;
    && k.annTodo <= h.clients
    && k.deliver <= h.clients
    && (forall i | 0 <= i < |k.slow| :: k.slow[i] in h.clients && k.slow[i] !in k.deliver)
    && (forall i, j | 0 <= i < j < |k.slow| :: k.slow[i] != k.slow[j])
    && (k.leaving.Some? ==> k.leaving.value !in h.clients && k.deliver == {})
    && (k.leaving.None? ==> k.leaveTodo == {})
    && k.leaveTodo <= h.rooms.Keys
    && (k.reclaim.Some? ==> k.reclaim.value in h.rooms && k.reclaim.value !in k.leaveTodo)
    && (k.handoff.None? ==> k.deliver == {} && k.slow == [])
  }

  /** Everything the hub may still send to, or close, is open. */
  ghost predicate ChannelsOk(s: State) {
    var k := s.hub.ctl;
    && (forall c | c in s.hub.clients :: OpenTo(s, c))
    && (k.leaving.Some? ==> OpenTo(s, k.leaving.value))
    && (forall c | c in s.conns :: s.conns[c].reader.Fresh? ==> !s.conns[c].closed && s.conns[c].buf == [])
    && (forall c | c in s.conns && !s.hub.stopped ::
          s.conns[c].reader.Fresh? || c in s.hub.clients || k.leaving == Some(c) || s.conns[c].closed)
  }

  ghost predicate Safe(s: State) {
    !s.panicked && RoomsOk(s.hub) && CtlOk(s.hub) && ChannelsOk(s)
  }

  lemma NotPanicked(s: State)
    requires Safe(s)
    ensures !s.panicked
  {
  }

  // ---------------------------------------------------------------------------
  // Every courteous step keeps the server safe
  // ---------------------------------------------------------------------------

  ghost predicate HubOk(h: HubState) { RoomsOk(h) && CtlOk(h) }

  lemma JoinOk(h: HubState, c: Client, room: string, order: seq<Client>)
    requires HubOk(h) && Idle(h.ctl) && c in h.clients
    ensures HubOk(JoinHub(h, c, room, order))
  {
  }

  /** Removing a client from one room, while it is leaving that room only or all rooms. */
  lemma LeaveOk(h: HubState, c: Client, room: string, order: seq<Client>)
    requires CtlOk(h) && h.ctl.annTodo == {} && h.ctl.reclaim.None? && h.ctl.deliver == {} && room !in h.ctl.leaveTodo
    requires h.ctl.leaving.Some? ==> h.ctl.leaving.value == c
    requires forall n | n in h.rooms :: h.rooms[n] != {}
    requires forall n | n in h.rooms :: forall d | d in h.rooms[n] ::
               d in h.clients || (h.ctl.leaving == Some(d) && (n == room || n in h.ctl.leaveTodo))
    requires h.ctl.leaving.None? ==> forall n | n in h.rooms :: h.rooms[n] <= h.clients
    ensures HubOk(LeaveHub(h, c, room, order))
  {
  }

  lemma DepartOk(h: HubState, room: string, order: seq<Client>)
    requires HubOk(h) && h.ctl.annTodo == {} && h.ctl.reclaim.None? && h.ctl.leaving.Some?
    requires room in h.ctl.leaveTodo
    ensures HubOk(DepartHub(h, room, order))
  {
    var c := h.ctl.leaving.value;
    var h' := h.(ctl := h.ctl.(leaveTodo := h.ctl.leaveTodo - {room}));
    if c in h.rooms[room] { LeaveOk(h', c, room, order); }
  }

  lemma DisconnectOk(h: HubState, c: Client)
    requires HubOk(h) && h.ctl.annTodo == {} && h.ctl.leaving.None? && h.ctl.reclaim.None? && h.ctl.deliver == {}
    requires c !in h.ctl.slow
    ensures HubOk(DisconnectHub(h, c))
  {
  }

  lemma ReclaimOk(h: HubState)
    requires HubOk(h) && h.ctl.reclaim.Some?
    ensures HubOk(ReclaimHub(h))
  {
  }

  lemma HandleOk(s: State, c: Client, at: int, order: seq<Client>)
    requires Safe(s) && HubEnabled(s, Handle(c, at, order)) && Courteous(s, Actor(Handle(c, at, order)))
    ensures HubOk(HandleApply(s, c, at, order).hub)
  {
    match s.conns[c].reader.cmd {
      case Join(room) => JoinOk(s.hub, c, room, order);
      case Leave(room) => LeaveOk(s.hub, c, room, order);
      case Say(room, text, j) =>
    }
  }

  lemma EventOk(s: State, a: HubAction)
    requires Safe(s) && HubEnabled(s, a) && Idle(s.hub.ctl) && !a.Handle?
    ensures HubOk(HubApply(s, a).hub)
  {
    if a.Unregister? { DisconnectOk(s.hub, a.c); }
  }

  lemma SendOk(s: State, a: HubAction)
    requires Safe(s) && HubEnabled(s, a)
    requires a.Announce? || a.Deliver? || a.CloseSend? || a.HandOff?
    ensures HubOk(HubApply(s, a).hub)
  {
    hide ChannelsOk, Enumerates, HandleApply, AnnounceApply, DeliverApply, DisconnectHub, DepartHub, ReclaimHub;
    match a {
      case Announce(c) => AnnounceOk(s, c);
      case Deliver(c) => DeliverOk(s, c);
      case _ => QuietOk(s, a);
    }
  }

  lemma AnnounceOk(s: State, c: Client)
    requires HubOk(s.hub) && c in s.conns
    ensures HubOk(AnnounceApply(s, c).hub)
  {
  }

  lemma DeliverOk(s: State, c: Client)
    requires HubOk(s.hub) && c in s.conns && c in s.hub.ctl.deliver && s.hub.ctl.handoff.Some?
    ensures HubOk(DeliverApply(s, c).hub)
  {
    var k := s.hub.ctl;
    assert c in s.hub.clients;
    if !s.conns[c].closed && |s.conns[c].buf| >= c.depth { SlowOk(s.hub, c); }
  }

  lemma SlowOk(h: HubState, c: Client)
    requires HubOk(h) && c in h.ctl.deliver
    ensures HubOk(h.(ctl := h.ctl.(deliver := h.ctl.deliver - {c}, slow := h.ctl.slow + [c])))
  {
  }

  lemma QuietOk(s: State, a: HubAction)
    requires HubOk(s.hub) && HubEnabled(s, a) && (a.CloseSend? || a.HandOff?)
    ensures HubOk(HubApply(s, a).hub)
  {
    hide Enumerates, HandleApply, AnnounceApply, DeliverApply, DisconnectHub, DepartHub, ReclaimHub;
  }

  lemma WorkOk(s: State, a: HubAction)
    requires Safe(s) && HubEnabled(s, a)
    requires a.Reclaim? || a.Depart? || a.NextSlow?
    ensures HubOk(HubApply(s, a).hub)
  {
    var h := s.hub;
    if a.Reclaim? { ReclaimOk(h); }
    else if a.Depart? { DepartOk(h, a.room, a.order); }
    else { DisconnectOk(h.(ctl := h.ctl.(slow := h.ctl.slow[1..])), h.ctl.slow[0]); }
  }

  /** The channels stay fine when one connection changes without closing, and only
      clients that were open already are in the client set or leaving. */
  lemma ChannelsKept(s: State, s': State, c: Client)
    requires ChannelsOk(s) && c in s.conns && c in s'.conns && s'.conns == s.conns[c := s'.conns[c]]
    requires s'.conns[c].closed ==> s.conns[c].closed
    requires s'.conns[c].reader.Fresh? ==> s'.conns[c] == s.conns[c]
    requires s'.hub.clients <= s.hub.clients && s'.hub.stopped == s.hub.stopped
    requires s'.hub.ctl.leaving.Some? ==>
               s'.hub.ctl.leaving == s.hub.ctl.leaving || s'.hub.ctl.leaving.value in s.hub.clients
    requires forall d | d in s.hub.clients :: d in s'.hub.clients || s'.hub.ctl.leaving == Some(d)
    requires s.hub.ctl.leaving.Some? ==> s'.hub.ctl.leaving == s.hub.ctl.leaving
    requires s.conns[c].closed ==> s'.conns[c].closed
    requires s.conns[c].reader.Fresh? ==> s'.conns[c] == s.conns[c]
    ensures ChannelsOk(s')
  {
    forall d | OpenTo(s, d) ensures OpenTo(s', d) {}
  }

  lemma EventChannels(s: State, a: HubAction)
    requires Safe(s) && HubEnabled(s, a) && Courteous(s, Actor(a))
    requires a.Unregister? || a.Handle?
    ensures !HubApply(s, a).panicked && ChannelsOk(HubApply(s, a))
  {
    ChannelsKept(s, HubApply(s, a), a.c);
  }

  lemma SendChannels(s: State, a: HubAction)
    requires Safe(s) && HubEnabled(s, a)
    requires a.Announce? || a.Deliver?
    ensures !HubApply(s, a).panicked && ChannelsOk(HubApply(s, a))
  {
    assert OpenTo(s, a.c);
    ChannelsKept(s, HubApply(s, a), a.c);
  }

  lemma RegisterChannels(s: State, c: Client)
    requires Safe(s) && HubEnabled(s, HubAction.Register(c))
    ensures ChannelsOk(HubApply(s, HubAction.Register(c)))
  {
    forall d | OpenTo(s, d) ensures OpenTo(HubApply(s, HubAction.Register(c)), d) {}
  }

  lemma CloseChannels(s: State)
    requires Safe(s) && HubEnabled(s, CloseSend)
    ensures !HubApply(s, CloseSend).panicked && ChannelsOk(HubApply(s, CloseSend))
  {
    forall d | OpenTo(s, d) && d != s.hub.ctl.leaving.value ensures OpenTo(HubApply(s, CloseSend), d) {}
  }

  /** The remaining steps leave every connection as it was. */
  lemma QuietChannels(s: State, a: HubAction)
    requires Safe(s) && HubEnabled(s, a)
    requires a.Sample? || a.Stop? || a.Reclaim? || a.Depart? || a.NextSlow? || a.HandOff?
    ensures !HubApply(s, a).panicked && ChannelsOk(HubApply(s, a))
  {
    forall d | OpenTo(s, d) ensures OpenTo(HubApply(s, a), d) {}
  }

  lemma PumpSafe(s: State, c: Client, p: PumpAction)
    requires Safe(s) && Enabled(s, Pump(c, p))
    ensures Safe(Apply(s, Pump(c, p)))
  {
    var s' := Apply(s, Pump(c, p));
    forall d | OpenTo(s, d) ensures OpenTo(s', d) {}
  }

  lemma HubStepSafe(s: State, a: HubAction)
    requires Safe(s) && HubEnabled(s, a) && Courteous(s, Actor(a))
    ensures Safe(HubApply(s, a))
  {
    if a.Handle? { HandleOk(s, a.c, a.at, a.order); EventChannels(s, a); }
    else {
      if a.Register? || a.Unregister? || a.Sample? || a.Stop? { EventOk(s, a); }
      else if a.Reclaim? || a.Depart? || a.NextSlow? { WorkOk(s, a); }
      else { SendOk(s, a); }
      if a.Register? { RegisterChannels(s, a.c); }
      else if a.Unregister? { EventChannels(s, a); }
      else if a.Announce? || a.Deliver? { SendChannels(s, a); }
      else if a.CloseSend? { CloseChannels(s); }
      else { QuietChannels(s, a); }
    }
  }

  lemma StepSafe(s: State, a: Action)
    requires Safe(s) && Enabled(s, a) && Courteous(s, a)
    ensures Safe(Apply(s, a))
  {
    match a {
      case Pump(c, p) => PumpSafe(s, c, p);
      case Actor(h) => HubStepSafe(s, h);
      case _ => SafeKept(s, Apply(s, a));
    }
  }

  lemma SafeKept(s: State, s': State)
    requires Safe(s) && s'.hub == s.hub && s'.conns == s.conns && !s'.panicked
    ensures Safe(s')
  {
    forall d | OpenTo(s, d) ensures OpenTo(s', d) {}
  }

  /** Open-channel safety: on every run without such a step, no send and no close by the hub
      meets a closed channel, and every room member is connected and has an open channel. */
  lemma {:induction false} OpenChannels(s: State, acts: seq<Action>)
    requires Safe(s) && Runs(s, acts) && Polite(s, acts)
    ensures Safe(Exec(s, acts))
    decreases |acts|
  {
    if acts != [] {
      StepSafe(s, acts[0]);
      OpenChannels(Apply(s, acts[0]), acts[1..]);
    }
  }

  lemma InitSafe(cfg: Config)
    ensures Safe(Init(cfg))
  {
  }

  lemma CancelStep(s: State)
    requires Safe(s)
    ensures Enabled(s, Cancel) && Apply(s, Cancel) == s.(cancelled := true)
  {
  }
}

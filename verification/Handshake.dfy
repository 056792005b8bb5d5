/** The unbuffered channels into the hub: what a read pump offers is taken by the hub, or given
    up because the hub has stopped; and the hub stops only after the cancellation. */
module Handshake {
  import opened Protocol
  import opened Clients
  import opened Machine
  import opened Bystanders

  /** The commands that the read pump of `c` comes to offer to the hub along a run. */
  ghost function Offered(s: State, acts: seq<Action>, c: Client): seq<Command>
    requires Runs(s, acts)
    decreases |acts|
  {
    if acts == [] then [] else OfferedBy(s, acts[0], c) + Offered(Apply(s, acts[0]), acts[1..], c)
  }

  ghost function OfferedBy(s: State, a: Action, c: Client): seq<Command>
    requires Enabled(s, a)
  {
    var k' := Apply(s, a).conns;
    if Own(ReadPumpOf(c), a) && c in k' && k'[c].reader.Submitting? then [k'[c].reader.cmd] else []
  }

  /** How many commands of `c` the hub takes along a run. */
  function Takings(acts: seq<Action>, c: Client): nat {
    if acts == [] then 0
    else (if acts[0].Actor? && acts[0].h.Handle? && acts[0].h.c == c then 1 else 0) + Takings(acts[1..], c)
  }

  function OnOffer(s: State, c: Client): nat
    requires c in s.conns
  {
    if s.conns[c].reader.Submitting? then 1 else 0
  }

  lemma {:induction false} StaysStopped(s: State, acts: seq<Action>)
    requires Runs(s, acts) && s.hub.stopped
    ensures Exec(s, acts).hub.stopped
    decreases |acts|
  {
    if acts != [] { StaysStopped(Apply(s, acts[0]), acts[1..]); }
  }

  /** Nothing on offer is lost while the hub runs: what has been offered, has been taken, but
      for what is on offer still. */
  lemma {:induction false} OffersAreTaken(s: State, acts: seq<Action>, c: Client)
    requires Runs(s, acts) && c in s.conns && !Exec(s, acts).hub.stopped
    ensures c in Exec(s, acts).conns
    ensures OnOffer(s, c) + |Offered(s, acts, c)| == Takings(acts, c) + OnOffer(Exec(s, acts), c)
    decreases |acts|
  {
    hide OnOffer, OfferedBy, Apply, Enabled;
    if acts != [] {
      var s' := Apply(s, acts[0]);
      if s'.hub.stopped { StaysStopped(s', acts[1..]); }
      OfferStep(s, acts[0], c);
      OffersAreTaken(s', acts[1..], c);
    }
  }

  lemma OfferStep(s: State, a: Action, c: Client)
    requires Enabled(s, a) && c in s.conns && !Apply(s, a).hub.stopped
    ensures c in Apply(s, a).conns
    ensures OnOffer(s, c) + |OfferedBy(s, a, c)|
         == (if a.Actor? && a.h.Handle? && a.h.c == c then 1 else 0) + OnOffer(Apply(s, a), c)
  {
    hide HubEnabled, HubApply;
    if a.Actor? { HubMoves(s, a.h, c); }
  }

  /** A connection whose read pump has finished is out of the client set, unless the hub has
      stopped. */
  lemma {:induction false} GoneMeansOut(s: State, acts: seq<Action>, c: Client)
    requires Runs(s, acts) && c in s.conns && (s.conns[c].reader.Gone? && !s.hub.stopped ==> c !in s.hub.clients)
    ensures var t := Exec(s, acts);
      c in t.conns && (t.conns[c].reader.Gone? && !t.hub.stopped ==> c !in t.hub.clients)
    decreases |acts|
  {
    hide Apply, Enabled;
    if acts != [] {
      GoneStep(s, acts[0], c);
      GoneMeansOut(Apply(s, acts[0]), acts[1..], c);
    }
  }

  lemma GoneStep(s: State, a: Action, c: Client)
    requires Enabled(s, a) && c in s.conns && (s.conns[c].reader.Gone? && !s.hub.stopped ==> c !in s.hub.clients)
    ensures var t := Apply(s, a);
      c in t.conns && (t.conns[c].reader.Gone? && !t.hub.stopped ==> c !in t.hub.clients)
  {
    hide HubEnabled, HubApply;
    if a.Actor? { HubMoves(s, a.h, c); HubMembers(s, a.h, c); }
  }

  lemma HubMembers(s: State, a: HubAction, c: Client)
    requires HubEnabled(s, a) && c in s.conns
    ensures var t := HubApply(s, a);
      && (c in t.hub.clients ==> c in s.hub.clients || (a.Register? && a.c == c))
      && (a.Unregister? && a.c == c ==> c !in t.hub.clients)
      && !s.hub.stopped && (a.Stop? || !t.hub.stopped)
  {
    hide Enumerates, Names, HandleApply, AnnounceApply, DeliverApply;
    match a {
      case Handle(d, at, order) => HandleLeaves(s, d, at, order);
      case Announce(d) => SendLeaves(s, d);
      case Deliver(d) => SendLeaves(s, d);
      case Depart(room, order) => DepartLeaves(s.hub, room, order);
      case _ =>
    }
  }

  /** The hub stops, and the persister drains and returns, only after the cancellation. */
  lemma {:induction false} OnlyAfterCancel(s: State, acts: seq<Action>)
    requires Runs(s, acts) && InTime(s)
    ensures InTime(Exec(s, acts))
    decreases |acts|
  {
    hide Apply, Enabled;
    if acts != [] {
      TimelyStep(s, acts[0]);
      OnlyAfterCancel(Apply(s, acts[0]), acts[1..]);
    }
  }

  ghost predicate InTime(s: State) {
    && (s.hub.stopped ==> s.cancelled)
    && (s.cold.worker.Draining? || s.cold.worker.Exited? || (s.cold.worker.Saving? && s.cold.worker.draining) ==>
          s.cancelled)
  }

  lemma TimelyStep(s: State, a: Action)
    requires Enabled(s, a) && InTime(s)
    ensures InTime(Apply(s, a))
  {
    hide HandleApply, AnnounceApply, DeliverApply, DisconnectHub, DepartHub, ReclaimHub, Enumerates;
    if a.Actor? {
      if a.h.Handle? { HandleLeaves(s, a.h.c, a.h.at, a.h.order); } else { OthersLeave(s, a.h); }
    }
  }

  /** A message is dropped at the hand-off only when the queue is full or the context cancelled. */
  lemma DropMeansFull(s: State, a: Action)
    requires Enabled(s, a) && Apply(s, a).cold.dropped != s.cold.dropped
    ensures a == Actor(HandOff(false)) && (s.cancelled || |s.cold.queue| >= s.cfg.queueDepth)
  {
    hide HandleApply, AnnounceApply, DeliverApply, DisconnectHub, DepartHub, ReclaimHub, Enumerates;
    if a.Actor? {
      if a.h.Handle? { HandleLeaves(s, a.h.c, a.h.at, a.h.order); } else { OthersLeave(s, a.h); }
    }
  }
}

/** Presence: on every run the latest announcement in a room lists exactly its members,
    and each of them holds it as its last one unless its channel was full. */
module PresencePanel {
  import opened Protocol
  import opened Clients
  import opened Machine
  import opened Ordering

  /** The last presence frame for `room` in a stream. */
  function LastPresence(fs: seq<Frame>, room: string): Option<Frame> {
    if fs == [] then None
    else if fs[|fs| - 1].Presence? && fs[|fs| - 1].room == room then Some(fs[|fs| - 1])
    else LastPresence(fs[..|fs| - 1], room)
  }

  /** The announcement `a` is about `room` and names its members, each once. */
  ghost predicate Lists(a: Announcement, room: string, members: set<Client>) {
    a.frame.Presence? && a.frame.room == room && a.frame.members == Names(a.order) && Enumerates(a.order, members)
  }

  /** The hub is about to tell `c` of the latest announcement in `room`. */
  ghost predicate ToBeTold(k: Ctl, room: string, c: Client) {
    k.ann.Presence? && k.ann.room == room && c in k.annTodo
  }

  ghost predicate Informed(s: State, room: string, c: Client)
    requires room in s.hub.anns && c in s.conns
  {
    || ToBeTold(s.hub.ctl, room, c)
    || c in s.hub.anns[room].missed
    || LastPresence(Stream(s.conns[c]), room) == Some(s.hub.anns[room].frame)
  }

  ghost predicate AnnsOk(h: HubState) {
    && (forall n | n in h.rooms :: n in h.anns && Lists(h.anns[n], n, h.rooms[n]))
    && (h.ctl.annTodo != {} ==>
          h.ctl.ann.Presence? && h.ctl.ann.room in h.anns && h.ctl.ann == h.anns[h.ctl.ann.room].frame)
  }

  ghost predicate AllInformed(s: State)
    requires AnnsOk(s.hub)
  {
    forall n | n in s.hub.rooms :: forall c | c in s.hub.rooms[n] :: c in s.conns && Informed(s, n, c)
  }

  ghost predicate Panels(s: State) { AnnsOk(s.hub) && AllInformed(s) }

  // ---------------------------------------------------------------------------

  lemma LastAppend(fs: seq<Frame>, f: Frame, room: string)
    ensures LastPresence(fs + [f], room) == if f.Presence? && f.room == room then Some(f) else LastPresence(fs, room)
  {
    assert (fs + [f])[..|fs|] == fs;
  }

  lemma LastPush(c: Client, k: Conn, f: Frame, room: string)
    ensures LastPresence(Stream(Push(c, k, f)), room)
         == if |k.buf| < c.depth && f.Presence? && f.room == room then Some(f) else LastPresence(Stream(k), room)
  {
    LastAppend(Stream(k), f, room);
    assert k.taken + (k.buf + [f]) == Stream(k) + [f];
  }

  /** A connection whose presence frames are as before is as informed as before. */
  lemma KeptInformed(s: State, s': State)
    requires Panels(s) && s'.hub.rooms == s.hub.rooms && s'.hub.anns == s.hub.anns
    requires s'.hub.ctl.ann == s.hub.ctl.ann && s'.hub.ctl.annTodo == s.hub.ctl.annTodo
    requires s.conns.Keys <= s'.conns.Keys
    requires forall d, n | d in s.conns && n in s.hub.rooms ::
               LastPresence(Stream(s'.conns[d]), n) == LastPresence(Stream(s.conns[d]), n)
    ensures Panels(s')
  {
    hide Lists;
    forall n, c | n in s.hub.rooms && c in s.hub.rooms[n] ensures c in s'.conns && Informed(s', n, c) {
      assert Informed(s, n, c);
    }
  }

  lemma PumpPanels(s: State, c: Client, p: PumpAction)
    requires Panels(s) && Enabled(s, Pump(c, p))
    ensures Panels(Apply(s, Pump(c, p)))
  {
    hide Panels;
    var s' := Apply(s, Pump(c, p));
    if !p.Connect? {
      forall n ensures LastPresence(Stream(PumpConn(c, s.conns[c], p)), n) == LastPresence(Stream(s.conns[c]), n) {
        PumpLast(c, s.conns[c], p, n);
      }
    }
    KeptInformed(s, s');
  }

  lemma PumpLast(c: Client, k: Conn, p: PumpAction, n: string)
    ensures LastPresence(Stream(PumpConn(c, k, p)), n) == LastPresence(Stream(k), n)
  {
    match p {
      case Answer => if k.reader.Answering? && Reply(k).Some? { LastPush(c, k, Reply(k).value, n); }
      case Take => if k.buf != [] { assert (k.taken + [k.buf[0]]) + k.buf[1..] == Stream(k); }
      case _ =>
    }
  }

  lemma DeliverPanels(s: State, c: Client)
    requires Panels(s) && HubEnabled(s, Deliver(c))
    ensures Panels(DeliverApply(s, c))
  {
    hide Panels;
    forall n
      ensures LastPresence(Stream(Push(c, s.conns[c], Live(s.hub.ctl.handoff.value))), n)
           == LastPresence(Stream(s.conns[c]), n)
    {
      LastPush(c, s.conns[c], Live(s.hub.ctl.handoff.value), n);
    }
    assert Stream(s.conns[c].(overflow := true)) == Stream(s.conns[c]);
    KeptInformed(s, DeliverApply(s, c));
  }

  lemma AnnouncePanels(s: State, c: Client)
    requires Panels(s) && HubEnabled(s, Announce(c))
    ensures Panels(AnnounceApply(s, c))
  {
    hide Lists;
    var s' := AnnounceApply(s, c);
    if !s.conns[c].closed {
      var room := s.hub.ctl.ann.room;
      forall n | n in s.hub.rooms ensures Lists(s'.hub.anns[n], n, s.hub.rooms[n]) {
        SameList(s.hub.anns[n], s'.hub.anns[n], n, s.hub.rooms[n]);
      }
      forall n, d | n in s.hub.rooms && d in s.hub.rooms[n] ensures Informed(s', n, d) {
        assert Informed(s, n, d);
        LastPush(c, s.conns[c], s.hub.ctl.ann, n);
      }
    } else {
      KeptInformed(s, s');
    }
  }

  lemma SameList(a: Announcement, b: Announcement, room: string, members: set<Client>)
    requires Lists(a, room, members) && b.frame == a.frame && b.order == a.order
    ensures Lists(b, room, members)
  {
  }

  /** A room whose members have just changed is the one being announced. */
  lemma Reannounced(s: State, s': State, room: string, user: string, joined: bool, order: seq<Client>)
    requires Panels(s) && s.hub.ctl.annTodo == {}
    requires s'.hub.rooms == s.hub.rooms[room := Members(s'.hub, room)] && Enumerates(order, Members(s'.hub, room))
    requires s'.hub.anns == s.hub.anns[room := Announcement(Presence(room, user, joined, Names(order)), order, {})]
    requires s'.hub.ctl.ann == Presence(room, user, joined, Names(order)) && s'.hub.ctl.annTodo == Members(s'.hub, room)
    requires s.conns.Keys <= s'.conns.Keys && Members(s'.hub, room) <= s'.conns.Keys
    requires forall d | d in s.conns :: Stream(s'.conns[d]) == Stream(s.conns[d])
    ensures Panels(s')
  {
    hide Enumerates;
    forall n, c | n in s'.hub.rooms && c in s'.hub.rooms[n] ensures c in s'.conns && Informed(s', n, c) {
      if n != room { assert Informed(s, n, c); }
    }
  }

  lemma JoinPanels(s: State, c: Client, at: int, order: seq<Client>)
    requires Panels(s) && Known(s) && HubEnabled(s, Handle(c, at, order)) && s.conns[c].reader.cmd.Join?
    ensures Panels(HandleApply(s, c, at, order))
  {
    hide Panels, Enumerates;
    var s' := HandleApply(s, c, at, order);
    assert Stream(s'.conns[c]) == Stream(s.conns[c]);
    Reannounced(s, s', s.conns[c].reader.cmd.room, c.name, true, order);
  }

  lemma LeavePanels(s: State, c: Client, at: int, order: seq<Client>)
    requires Panels(s) && Known(s) && HubEnabled(s, Handle(c, at, order)) && s.conns[c].reader.cmd.Leave?
    ensures Panels(HandleApply(s, c, at, order))
  {
    hide Panels, Enumerates;
    var s' := HandleApply(s, c, at, order);
    assert Stream(s'.conns[c]) == Stream(s.conns[c]);
    var room := s.conns[c].reader.cmd.room;
    if room in s.hub.rooms { Reannounced(s, s', room, c.name, false, order); } else { KeptInformed(s, s'); }
  }

  lemma SayPanels(s: State, c: Client, at: int, order: seq<Client>)
    requires Panels(s) && HubEnabled(s, Handle(c, at, order)) && s.conns[c].reader.cmd.Say?
    ensures Panels(HandleApply(s, c, at, order))
  {
    hide Panels, Enumerates, LastPresence;
    var s' := HandleApply(s, c, at, order);
    assert s'.conns == s.conns[c := s.conns[c].(reader := Reading)];
    assert s'.hub.rooms == s.hub.rooms && s'.hub.anns == s.hub.anns;
    forall d | d in s.conns ensures Stream(s'.conns[d]) == Stream(s.conns[d]) {}
    KeptInformed(s, s');
  }

  lemma OtherPanels(s: State, a: HubAction)
    requires Panels(s) && Known(s) && HubEnabled(s, a)
    requires !a.Handle? && !a.Deliver? && !a.Announce? && !a.Reclaim?
    ensures Panels(HubApply(s, a))
  {
    hide Panels, HubEnabled, HubApply;
    if a.Depart? { DepartPanels(s, a.room, a.order); } else { QuietPanels(s, a); }
  }

  lemma QuietPanels(s: State, a: HubAction)
    requires Panels(s) && HubEnabled(s, a)
    requires !a.Handle? && !a.Deliver? && !a.Announce? && !a.Reclaim? && !a.Depart?
    ensures Panels(HubApply(s, a))
  {
    hide Panels, HubApply, LastPresence;
    QuietRooms(s, a);
    NobodyArrives(s, a);
    var s' := HubApply(s, a);
    forall d | d in s.conns ensures Stream(s'.conns[d]) == Stream(s.conns[d]) { QuietConn(s, a, d); }
    KeptInformed(s, s');
  }

  lemma QuietRooms(s: State, a: HubAction)
    requires HubEnabled(s, a)
    requires !a.Handle? && !a.Deliver? && !a.Announce? && !a.Reclaim? && !a.Depart?
    ensures var h' := HubApply(s, a).hub; var h := s.hub;
      h'.rooms == h.rooms && h'.anns == h.anns && h'.ctl.ann == h.ctl.ann && h'.ctl.annTodo == h.ctl.annTodo
  {
    hide Enumerates, HandleApply, AnnounceApply, DeliverApply, ReclaimHub, DepartHub;
  }

  lemma DepartPanels(s: State, room: string, order: seq<Client>)
    requires Panels(s) && Known(s) && HubEnabled(s, Depart(room, order))
    ensures Panels(HubApply(s, Depart(room, order)))
  {
    hide Panels, Enumerates, Names, LastPresence;
    var s' := HubApply(s, Depart(room, order)); var c := s.hub.ctl.leaving.value;
    if c in s.hub.rooms[room] { Reannounced(s, s', room, c.name, false, order); } else { KeptInformed(s, s'); }
  }

  lemma ReclaimPanels(s: State)
    requires Panels(s) && HubEnabled(s, Reclaim)
    ensures Panels(HubApply(s, Reclaim))
  {
    hide Lists;
    var s' := HubApply(s, Reclaim);
    forall n, c | n in s'.hub.rooms && c in s'.hub.rooms[n] ensures Informed(s', n, c) { assert Informed(s, n, c); }
  }

  lemma StepPanels(s: State, a: Action)
    requires Panels(s) && Known(s) && Enabled(s, a)
    ensures Panels(Apply(s, a))
  {
    hide Panels, Known;
    match a {
      case Pump(c, p) => PumpPanels(s, c, p);
      case Actor(h) =>
        if h.Handle? {
          match s.conns[h.c].reader.cmd {
            case Join(_) => JoinPanels(s, h.c, h.at, h.order);
            case Leave(_) => LeavePanels(s, h.c, h.at, h.order);
            case Say(_, _, _) => SayPanels(s, h.c, h.at, h.order);
          }
        }
        else if h.Deliver? { DeliverPanels(s, h.c); }
        else if h.Announce? { AnnouncePanels(s, h.c); }
        else if h.Reclaim? { ReclaimPanels(s); }
        else { OtherPanels(s, h); }
      case _ => KeptInformed(s, Apply(s, a));
    }
  }

  lemma {:induction false} RunPanels(s: State, acts: seq<Action>)
    requires Panels(s) && Known(s) && Runs(s, acts)
    ensures Panels(Exec(s, acts))
    decreases |acts|
  {
    hide Panels, Known;
    if acts != [] {
      StepKnown(s, acts[0]);
      StepPanels(s, acts[0]);
      RunPanels(Apply(s, acts[0]), acts[1..]);
    }
  }

  // ---------------------------------------------------------------------------

  /** Between events, the latest presence frame announced in a live room carries the names
      of exactly its current members, and every member holds that frame as its last one for
      the room, except those whose channel was full when their turn came. */
  lemma PresenceAgrees(cfg: Config, acts: seq<Action>, room: string)
    requires Runs(Init(cfg), acts) && room in Exec(Init(cfg), acts).hub.rooms
    requires Idle(Exec(Init(cfg), acts).hub.ctl)
    ensures var s := Exec(Init(cfg), acts);
      && room in s.hub.anns
      && (var a := s.hub.anns[room];
          && a.frame.Presence? && a.frame.room == room
          && Enumerates(a.order, s.hub.rooms[room]) && |a.frame.members| == |a.order|
          && (forall i | 0 <= i < |a.order| :: a.frame.members[i] == a.order[i].name)
          && forall c | c in s.hub.rooms[room] && c !in a.missed ::
               c in s.conns && LastPresence(Stream(s.conns[c]), room) == Some(a.frame))
  {
    RunPanels(Init(cfg), acts);
    var s := Exec(Init(cfg), acts);
    forall c | c in s.hub.rooms[room] ensures c in s.conns && Informed(s, room, c) {}
  }

  /** Who counts as having missed an announcement: only a member whose channel was full when
      the hub came to tell it, and nobody at the start of an announcement. */
  lemma MissedMeansFull(s: State, a: Action, room: string, c: Client)
    requires AnnsOk(s.hub) && Enabled(s, a)
    requires room in Apply(s, a).hub.anns && c in Apply(s, a).hub.anns[room].missed
    requires room in s.hub.anns ==> c !in s.hub.anns[room].missed
    ensures a == Actor(Announce(c)) && s.hub.ctl.ann.Presence? && s.hub.ctl.ann.room == room
    ensures c in s.conns && |s.conns[c].buf| >= c.depth
  {
    hide Enumerates, Names;
    if a.Actor? && !a.h.Announce? { NobodyMisses(s, a.h, room); }
  }

  lemma NobodyMisses(s: State, a: HubAction, room: string)
    requires HubEnabled(s, a) && !a.Announce? && room in HubApply(s, a).hub.anns
    ensures HubApply(s, a).hub.anns[room].missed == {}
         || (room in s.hub.anns && HubApply(s, a).hub.anns[room] == s.hub.anns[room])
  {
    hide Enumerates, Names, HandleApply, DeliverApply, DisconnectHub, DepartHub, ReclaimHub;
    match a {
      case Handle(c, at, order) => NobodyMissesTaking(s, c, at, order, room);
      case Depart(n, order) => NobodyMissesLeaving(s.hub, n, order, room);
      case Deliver(c) => NobodyMissesDelivery(s, c);
      case Reclaim => ReclaimQuiet(s.hub);
      case NextSlow => DisconnectQuiet(s.hub.(ctl := s.hub.ctl.(slow := s.hub.ctl.slow[1..])), s.hub.ctl.slow[0]);
      case Unregister(c) => DisconnectQuiet(s.hub, c);
      case _ =>
    }
  }

  lemma NobodyMissesTaking(s: State, c: Client, at: int, order: seq<Client>, room: string)
    requires c in s.conns && s.conns[c].reader.Submitting? && room in HandleApply(s, c, at, order).hub.anns
    ensures var s' := HandleApply(s, c, at, order);
      s'.hub.anns[room].missed == {} || (room in s.hub.anns && s'.hub.anns[room] == s.hub.anns[room])
  {
    hide Names;
  }

  lemma NobodyMissesLeaving(h: HubState, n: string, order: seq<Client>, room: string)
    requires h.ctl.leaving.Some? && n in h.rooms && room in DepartHub(h, n, order).anns
    ensures var h' := DepartHub(h, n, order);
      h'.anns[room].missed == {} || (room in h.anns && h'.anns[room] == h.anns[room])
  {
    hide Names;
  }

  lemma NobodyMissesDelivery(s: State, c: Client)
    requires c in s.conns && s.hub.ctl.handoff.Some?
    ensures DeliverApply(s, c).hub.anns == s.hub.anns
  {
  }

  lemma ReclaimQuiet(h: HubState)
    requires h.ctl.reclaim.Some?
    ensures ReclaimHub(h).anns == h.anns
  {
  }

  lemma DisconnectQuiet(h: HubState, c: Client)
    ensures DisconnectHub(h, c).anns == h.anns
  {
  }

  /** Whose move an announcement is about: a new one appears in a room only when the hub takes
      a join or a leave, or takes a disconnected client out, and names that client and what it
      did. */
  lemma AnnouncesTheMove(s: State, a: HubAction, room: string)
    requires HubEnabled(s, a) && room in HubApply(s, a).hub.anns
    requires room !in s.hub.anns || HubApply(s, a).hub.anns[room].frame != s.hub.anns[room].frame
    ensures var f := HubApply(s, a).hub.anns[room].frame;
      && f.Presence? && f.room == room
      && (if a.Handle? then
            && f.user == a.c.name && s.conns[a.c].reader.cmd.room == room
            && (if f.joined then s.conns[a.c].reader.cmd.Join? else s.conns[a.c].reader.cmd.Leave?)
          else
            && a.Depart? && a.room == room && s.hub.ctl.leaving.Some?
            && f.user == s.hub.ctl.leaving.value.name && !f.joined)
  {
    hide Enumerates, Names, HandleApply, DeliverApply, AnnounceApply, DisconnectHub, DepartHub, ReclaimHub;
    match a {
      case Handle(c, at, order) => HandledMove(s, c, at, order, room);
      case Depart(n, order) => DepartedMove(s.hub, n, order, room);
      case Deliver(c) => NobodyMissesDelivery(s, c);
      case Announce(c) => ToldMove(s, c, room);
      case Reclaim => ReclaimQuiet(s.hub);
      case NextSlow => DisconnectQuiet(s.hub.(ctl := s.hub.ctl.(slow := s.hub.ctl.slow[1..])), s.hub.ctl.slow[0]);
      case Unregister(c) => DisconnectQuiet(s.hub, c);
      case _ =>
    }
  }

  lemma HandledMove(s: State, c: Client, at: int, order: seq<Client>, room: string)
    requires c in s.conns && s.conns[c].reader.Submitting? && room in HandleApply(s, c, at, order).hub.anns
    requires room !in s.hub.anns || HandleApply(s, c, at, order).hub.anns[room].frame != s.hub.anns[room].frame
    ensures var f := HandleApply(s, c, at, order).hub.anns[room].frame; var cmd := s.conns[c].reader.cmd;
      && f.Presence? && f.room == room && f.user == c.name && cmd.room == room
      && (if f.joined then cmd.Join? else cmd.Leave?)
  {
    hide Names, JoinHub, LeaveHub;
    match s.conns[c].reader.cmd {
      case Join(n) => JoinedMove(s.hub, c, n, order, room);
      case Leave(n) => LeftMove(s.hub, c, n, order, room);
      case Say(_, _, _) =>
    }
  }

  lemma JoinedMove(h: HubState, c: Client, n: string, order: seq<Client>, room: string)
    requires room in JoinHub(h, c, n, order).anns
    ensures var f := JoinHub(h, c, n, order).anns[room];
      if room == n then f.frame.Presence? && f.frame.room == n && f.frame.user == c.name && f.frame.joined
      else room in h.anns && f == h.anns[room]
  {
    hide Names;
  }

  lemma LeftMove(h: HubState, c: Client, n: string, order: seq<Client>, room: string)
    requires room in LeaveHub(h, c, n, order).anns
    ensures var f := LeaveHub(h, c, n, order).anns[room];
      if room == n && n in h.rooms then
        f.frame.Presence? && f.frame.room == n && f.frame.user == c.name && !f.frame.joined
      else room in h.anns && f == h.anns[room]
  {
    hide Names;
  }

  lemma DepartedMove(h: HubState, n: string, order: seq<Client>, room: string)
    requires h.ctl.leaving.Some? && n in h.rooms && room in DepartHub(h, n, order).anns
    requires room !in h.anns || DepartHub(h, n, order).anns[room].frame != h.anns[room].frame
    ensures var f := DepartHub(h, n, order).anns[room].frame;
      f.Presence? && f.room == room == n && f.user == h.ctl.leaving.value.name && !f.joined
  {
    hide Names;
  }

  lemma ToldMove(s: State, c: Client, room: string)
    requires c in s.conns && room in AnnounceApply(s, c).hub.anns
    ensures room in s.hub.anns && AnnounceApply(s, c).hub.anns[room].frame == s.hub.anns[room].frame
  {
  }
}

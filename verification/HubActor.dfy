/** The hub as the program has it: maps and objects updated in place, loops that range over
    maps while deleting from them. Every method is proved to take steps of the machine. */
module HubActor {
  import opened Protocol
  import opened Clients
  import opened Rooms
  import opened Persistence
  import opened Machine
  import opened Safety
  import opened Progress
  import opened Ordering
  import opened EventEffect
  import opened Metrics

  datatype RoomInfo = RoomInfo(name: string, members: nat)

  datatype Stats = Stats(connections: nat, rooms: seq<RoomInfo>, total: int, rate: int)

  class Hub {
    const cfg: Config
    const persist: Inbox
    var clients: set<Client>
    var rooms: map<string, Room>
    /** Whether the context is cancelled. */
    var cancelled: bool
    var messagesTotal: int
    var messageRate: int
    var lastSampledTotal: int

    /** The run so far, and the machine's state after it. */
    ghost var trace: seq<Action>
    ghost var s: State
    /** Whether everybody else holds still while the hub is in an event. */
    ghost const alone: bool

    constructor (cfg: Config, persist: Inbox, ghost alone: bool)
      requires persist.items == [] && persist.depth == cfg.queueDepth
      ensures Valid() && Idle(s.hub.ctl) && this.cfg == cfg && this.persist == persist && trace == []
      ensures this.alone == alone
    {
      this.cfg, this.persist, this.alone := cfg, persist, alone;
      clients, rooms, cancelled := {}, map[], false;
      messagesTotal, messageRate, lastSampledTotal := 0, 0, 0;
      trace, s := [], Init(cfg);
    }

    ghost predicate OnTrack()
      reads this`trace, this`s
    {
      Runs(Init(cfg), trace) && s == Exec(Init(cfg), trace) && Ordered(s) && Sampled(s) && !s.panicked
    }

    /** The objects hold what the machine's state `t` says. */
    ghost predicate Mirrors(t: State)
      reads this`clients, this`rooms, this`messagesTotal, this`messageRate, this`lastSampledTotal, this`cancelled
      reads rooms.Values, t.conns.Keys, persist
    {
      HubMirrors(t.hub) && InboxMirrors(t.cold.queue, t.cfg) && ConnsMirror(t.conns, {}) && cancelled == t.cancelled
    }

    ghost predicate HubMirrors(h: HubState)
      reads this`clients, this`rooms, this`messagesTotal, this`messageRate, this`lastSampledTotal, rooms.Values
    {
      && clients == h.clients
      && rooms.Keys == h.rooms.Keys
      && (forall n | n in rooms :: rooms[n].name == n && rooms[n].members == h.rooms[n])
      && messagesTotal == h.total && messageRate == h.rate && lastSampledTotal == h.sampled
    }

    ghost predicate InboxMirrors(queue: seq<Message>, cfg: Config)
      reads persist
    {
      persist.items == queue && persist.depth == cfg.queueDepth
    }

    /** What `Mirrors` says, one part for each kind of object a step may change. */
    lemma Pieces(t: State, c: Client)
      requires Mirrors(t) && c in t.conns
      ensures HubMirrors(t.hub) && InboxMirrors(t.cold.queue, t.cfg) && cancelled == t.cancelled
      ensures ConnsMirror(t.conns, {c}) && c.send == t.conns[c].buf && c.closed == t.conns[c].closed
    {
    }

    /** After a step that changed one channel, and nothing else of the objects. */
    lemma Together(t: State, t': State, c: Client)
      requires HubMirrors(t.hub) && InboxMirrors(t.cold.queue, t.cfg) && cancelled == t.cancelled
      requires ConnsMirror(t.conns, {c})
      requires SameObjects(t.hub, t'.hub) && SameCold(t', t) && t'.cfg == t.cfg
      requires c in t.conns && c in t'.conns && t'.conns == t.conns[c := t'.conns[c]]
      requires c.send == t'.conns[c].buf && c.closed == t'.conns[c].closed
      ensures Mirrors(t')
    {
      AllChannels(t.conns, t'.conns, c);
    }

    /** After a step that changed no object any further. */
    lemma Whole(t: State, t': State)
      requires Mirrors(t) && SameObjects(t.hub, t'.hub) && SameCold(t', t) && t'.cfg == t.cfg
      requires t'.conns.Keys == t.conns.Keys
      requires forall c | c in t.conns :: t'.conns[c].buf == t.conns[c].buf && t'.conns[c].closed == t.conns[c].closed
      ensures Mirrors(t')
    {
      SameChannels(t.conns, t'.conns);
    }

    ghost predicate Valid()
      reads this, rooms.Values, s.conns.Keys, persist
    {
      OnTrack() && Safe(s) && Mirrors(s)
    }

    /** One machine step. */
    ghost method Record(a: Action)
      requires OnTrack() && Enabled(s, a) && !s.panicked
      modifies this`trace, this`s
      ensures trace == old(trace) + [a] && s == Apply(old(s), a)
      ensures !s.panicked ==> OnTrack()
      ensures Safe(old(s)) && Courteous(old(s), a) ==> Safe(s)
    {
      hide Safe, Courteous, Ordered, Sampled, Apply, Enabled, HubApply, HubEnabled;
      Then(Init(cfg), trace, a);
      StepOrdered(s, a);
      StepSampled(s, a);
      if Safe(s) && Courteous(s, a) { StepSafe(s, a); }
      trace, s := trace + [a], Apply(s, a);
    }

    /** A step of another goroutine, which has already changed the objects it has to do with. */
    ghost method Elsewhere(a: Action)
      requires OnTrack() && Safe(s) && Enabled(s, a) && !a.Actor? && Mirrors(Apply(s, a))
      modifies this`trace, this`s
      ensures Valid() && trace == old(trace) + [a] && s == Apply(old(s), a)
    {
      hide Safe, OnTrack, Mirrors, Enabled;
      OthersNeverPanic(s, a);
      Record(a);
    }

    /** What all the others do while the hub is between two steps of a loop: anything that
        leaves the hub's own state alone (`Bystanders.OthersKeepHub`). The proofs of the loops
        know nothing of it but this contract; the body is the least they can do. */
    method Meanwhile()
      requires OnTrack() && Mirrors(s) && !s.panicked
      modifies this`trace, this`s, s.conns.Keys`send, this`cancelled, persist
      ensures OnTrack() && Mirrors(s) && !s.panicked && Extends(alone, old(trace), trace)
      ensures s.hub == old(s).hub && s.log == old(s).log && s.cfg == old(s).cfg && s.conns.Keys == old(s.conns.Keys)
      ensures Safe(old(s)) ==> Safe(s)
      ensures alone ==> s == old(s) && persist.items == old(persist.items) && trace == old(trace)
      ensures alone ==> forall d | d in s.conns :: d.send == old(d.send)
    {
      ExtendsNone(alone, trace);
    }

    /** One send of an announcement. */
    method Tell(c: Client, frame: Frame) returns (panicked: bool)
      requires OnTrack() && Mirrors(s) && !s.hub.stopped && !s.panicked
      requires s.hub.ctl.ann == frame && c in s.hub.ctl.annTodo && c in s.conns
      modifies this`trace, this`s, c`send
      ensures panicked <==> c.closed
      ensures panicked <==> s.panicked
      ensures !panicked ==> OnTrack() && Mirrors(s) && s.hub.ctl.annTodo == old(s).hub.ctl.annTodo - {c}
      ensures !panicked ==> Aside(s) == Aside(old(s)) && SameCold(s, old(s))
      ensures !panicked ==> s.hub.ctl.ann == frame && !s.hub.stopped && s.conns.Keys == old(s.conns.Keys)
      ensures !panicked ==> c.send == old(c.send) + (if |old(c.send)| < c.depth then [frame] else [])
      ensures Safe(old(s)) ==> Safe(s)
      ensures trace == old(trace) + [Actor(Announce(c))]
    {
      hide Safe, OnTrack, HubApply, HubEnabled, Apply, Enabled, Courteous, Extends;
      hide Mirrors, HubMirrors, InboxMirrors, ConnsMirror;
      AnnounceFacts(s, c);
      ghost var before := s;
      Pieces(s, c);
      var sent := c.Enqueue(frame);
      Record(Actor(Announce(c)));
      panicked := sent == Panics;
      if !panicked { Together(before, s, c); }
    }

    /** Every one of `members` with a free slot has the frame behind what it had; no other
        channel has changed. */
    twostate predicate Told(new members: set<Client>, new frame: Frame)
      reads this`s, s.conns.Keys`send
    {
      s.conns.Keys == old(s.conns.Keys) &&
      forall d | d in s.conns.Keys ::
        d.send == old(d.send) + (if d in members && |old(d.send)| < d.depth then [frame] else [])
    }

    twostate predicate ToldIn(room: string, new frame: Frame)
      reads this, rooms.Values, s.conns.Keys`send
    {
      room in rooms && Told(rooms[room].members, frame)
    }

    /** The sending loop of `broadcastPresence`; the frame names the members as they were
        when the machine began the announcement. Only a closed channel can stop it. */
    method BroadcastPresence(r: Room, frame: Frame) returns (panicked: bool)
      requires OnTrack() && Mirrors(s) && !s.hub.stopped && !s.panicked
      requires s.hub.ctl.ann == frame && s.hub.ctl.annTodo == r.members <= s.conns.Keys
      modifies this`trace, this`s, s.conns.Keys`send, this`cancelled, persist
      ensures panicked <==> AnyClosed(r.members)
      ensures panicked <==> s.panicked
      ensures !panicked ==> OnTrack() && Mirrors(s) && s.hub.ctl.annTodo == {} && Aside(s) == Aside(old(s))
      ensures !panicked && alone ==> Told(r.members, frame) && SameCold(s, old(s))
      ensures Safe(old(s)) ==> Safe(s)
      ensures Extends(alone, old(trace), trace)
    {
      hide Safe, OnTrack, HubApply, HubEnabled, Apply, Enabled, Courteous, Extends, Mirrors, Aside;
      var todo := r.members;
      panicked := false;
      ExtendsNone(alone, trace);
      while todo != {} && !panicked
        invariant todo <= r.members && Extends(alone, old(trace), trace)
        invariant Safe(old(s)) ==> Safe(s)
        invariant s.panicked == panicked
        invariant panicked ==> exists c | c in r.members :: c.closed
        invariant !panicked && alone ==> SameCold(s, old(s))
        invariant !panicked && alone ==> forall d | d in todo :: d.send == old(d.send)
        invariant !panicked && alone ==> forall d | d in old(s.conns.Keys) - r.members :: d.send == old(d.send)
        invariant !panicked && alone ==> forall d | d in r.members - todo ::
                    d.send == old(d.send) + (if |old(d.send)| < d.depth then [frame] else [])
        invariant !panicked ==> forall c | c in r.members - todo :: !c.closed
        invariant !panicked ==> OnTrack() && Mirrors(s) && Aside(s) == Aside(old(s))
        invariant !panicked ==> s.hub.ctl.ann == frame && s.hub.ctl.annTodo == todo && !s.hub.stopped
        invariant !panicked ==> s.conns.Keys == old(s.conns.Keys)
        decreases todo, !panicked
      {
        var c :| c in todo;
        todo := todo - {c};
        ghost var mid := trace;
        panicked := TellNext(c, frame);
        ExtendsTrans(alone, old(trace), mid, trace);
      }
    }

    /** One send of an announcement, after whatever the others have done. */
    method TellNext(c: Client, frame: Frame) returns (panicked: bool)
      requires OnTrack() && Mirrors(s) && !s.hub.stopped && !s.panicked
      requires s.hub.ctl.ann == frame && c in s.hub.ctl.annTodo && c in s.conns
      modifies this`trace, this`s, s.conns.Keys`send, this`cancelled, persist
      ensures (panicked <==> c.closed) && (panicked <==> s.panicked) && Extends(alone, old(trace), trace)
      ensures Safe(old(s)) ==> Safe(s)
      ensures !panicked ==> OnTrack() && Mirrors(s) && Aside(s) == Aside(old(s))
      ensures !panicked ==> s.hub.ctl.ann == frame && s.hub.ctl.annTodo == old(s).hub.ctl.annTodo - {c}
      ensures !panicked ==> !s.hub.stopped && s.conns.Keys == old(s.conns.Keys)
      ensures !panicked && alone ==> SameCold(s, old(s))
      ensures !panicked && alone ==> c.send == old(c.send) + (if |old(c.send)| < c.depth then [frame] else [])
      ensures !panicked && alone ==> forall d | d in old(s.conns.Keys) && d != c :: d.send == old(d.send)
    {
      hide Safe, OnTrack, HubApply, HubEnabled, Apply, Enabled, Courteous, Extends, Mirrors, Aside;
      ghost var before := s;
      Meanwhile();
      StillAside(before, s);
      ExtendsOne(alone, old(trace), trace, Announce(c));
      panicked := Tell(c, frame);
    }

    /** The body of the loop in `disconnect`, for one room. */
    method LeaveOneRoom(c: Client, n: string)
      requires Valid() && !s.hub.stopped && s.hub.ctl.leaving == Some(c) && n in s.hub.ctl.leaveTodo
      requires s.hub.ctl.annTodo == {} && s.hub.ctl.reclaim.None? && n in rooms
      modifies this`trace, this`s, this`rooms, rooms[n], s.conns.Keys`send, this`cancelled, persist
      ensures Valid() && Extends(alone, old(trace), trace)
      ensures Core(s.hub.ctl) == Core(old(s).hub.ctl).(leaveTodo := old(s).hub.ctl.leaveTodo - {n})
      ensures SameEvent(alone, s, old(s))
      ensures rooms == old(rooms) || rooms == old(rooms) - {n}
    {
      hide Valid, Extends;
      if c !in rooms[n].members {
        PassOver(c, n);
      } else {
        var names := TakeOut(c, n);
        ghost var mid := trace;
        FinishLeaving(rooms[n], Presence(n, c.name, false, names));
        ExtendsTrans(alone, old(trace), mid, trace);
      }
    }

    /** A room the client is not in. */
    ghost method PassOver(c: Client, n: string)
      requires Valid() && !s.hub.stopped && s.hub.ctl.leaving == Some(c) && n in s.hub.ctl.leaveTodo
      requires s.hub.ctl.annTodo == {} && s.hub.ctl.reclaim.None? && n in rooms && c !in rooms[n].members
      modifies this`trace, this`s
      ensures Valid() && Extends(alone, old(trace), trace)
      ensures s.hub.ctl == old(s).hub.ctl.(leaveTodo := old(s).hub.ctl.leaveTodo - {n}) && SameEvent(alone, s, old(s))
    {
      hide Safe, OnTrack, HubApply, HubEnabled, Apply, Enabled, Courteous, Extends;
      var order := Enumerate(rooms[n].members - {c});
      DepartFacts(s, n, order);
      NotPanicked(s);
      ExtendsNone(alone, trace);
      ExtendsOne(alone, trace, trace, Depart(n, order));
      Record(Actor(Depart(n, order)));
    }

    /** Removing a client from a room it is in. */
    method TakeOut(c: Client, n: string) returns (names: seq<string>)
      requires Valid() && !s.hub.stopped && s.hub.ctl.leaving == Some(c) && n in s.hub.ctl.leaveTodo
      requires s.hub.ctl.annTodo == {} && s.hub.ctl.reclaim.None? && n in rooms && c in rooms[n].members
      modifies this`trace, this`s, rooms[n]
      ensures Valid() && Extends(alone, old(trace), trace)
      ensures rooms[n].name == n && rooms[n].members == old(rooms[n].members) - {c}
      ensures s.hub.ctl == old(s).hub.ctl.(leaveTodo := old(s).hub.ctl.leaveTodo - {n}, annTodo := rooms[n].members,
                             reclaim := Some(n), ann := Presence(n, c.name, false, names))
      ensures SameEvent(alone, s, old(s))
    {
      hide Safe, OnTrack, HubApply, HubEnabled, Apply, Enabled, Courteous, Extends, Mirrors;
      RoomMirrored(n);
      ghost var order;
      names, order := Exclude(c, n);
      TakeDepart(c, n, order);
    }

    lemma ExcludedMirrored(c: Client, room: string)
      requires Mirrors(Excluded(s, c, room)) && room in rooms && room in s.hub.rooms
      ensures rooms[room].members == s.hub.rooms[room] - {c}
    {
    }

    lemma RoomMirrored(n: string)
      requires Mirrors(s) && n in rooms
      ensures n in s.hub.rooms && rooms[n].members == s.hub.rooms[n]
    {
    }

    ghost method TakeDepart(c: Client, n: string, order: seq<Client>)
      requires OnTrack() && Safe(s) && Mirrors(Excluded(s, c, n)) && !s.hub.stopped && s.hub.ctl.leaving == Some(c)
      requires n in s.hub.ctl.leaveTodo && s.hub.ctl.annTodo == {} && s.hub.ctl.reclaim.None? && n in s.hub.rooms
      requires c in s.hub.rooms[n] && n in rooms && rooms[n].members == s.hub.rooms[n] - {c}
      requires Enumerates(order, rooms[n].members)
      modifies this`trace, this`s
      ensures Valid() && Extends(alone, old(trace), trace)
      ensures s.hub.ctl == old(s).hub.ctl.(leaveTodo := old(s).hub.ctl.leaveTodo - {n}, annTodo := rooms[n].members,
                             reclaim := Some(n), ann := Presence(n, c.name, false, Names(order)))
      ensures SameEvent(alone, s, old(s))
    {
      hide Safe, OnTrack, HubApply, HubEnabled, Apply, Enabled, Courteous, Extends, Mirrors, Enumerates;
      DepartFacts(s, n, order);
      NotPanicked(s);
      ExtendsNone(alone, trace);
      ExtendsOne(alone, trace, trace, Depart(n, order));
      ghost var before := Excluded(s, c, n);
      Record(Actor(Depart(n, order)));
      Whole(before, s);
    }

    /** Telling the room of a departure, and deleting it once it is empty. */
    method FinishLeaving(r: Room, frame: Frame)
      requires Valid() && !s.hub.stopped && r.name in rooms && rooms[r.name] == r
      requires s.hub.ctl.ann == frame && s.hub.ctl.annTodo == r.members && s.hub.ctl.reclaim == Some(r.name)
      modifies this`trace, this`s, this`rooms, s.conns.Keys`send, this`cancelled, persist
      ensures Valid() && Extends(alone, old(trace), trace)
      ensures s.hub.ctl == old(s).hub.ctl.(annTodo := {}, reclaim := None) && SameEvent(alone, s, old(s))
      ensures alone ==> Told(r.members, frame)
      ensures rooms == if r.members == {} then old(rooms) - {r.name} else old(rooms)
    {
      hide Safe, OnTrack, HubApply, HubEnabled, Apply, Enabled, Courteous, Extends, Mirrors;
      MembersKnown(r.name);
      NotPanicked(s);
      var panicked := BroadcastPresence(r, frame);
      NotPanicked(s);
      ExtendsOne(alone, old(trace), trace, Reclaim);
      ReclaimRoom(r);
    }

    lemma MembersKnown(n: string)
      requires Valid() && n in rooms
      ensures rooms[n].members <= s.conns.Keys
    {
      RoomKnown(s, n);
    }

    method ReclaimRoom(r: Room)
      requires Valid() && !s.hub.stopped && r.name in rooms && rooms[r.name] == r
      requires s.hub.ctl.annTodo == {} && s.hub.ctl.reclaim == Some(r.name)
      modifies this`trace, this`s, this`rooms
      ensures Valid() && trace == old(trace) + [Actor(Reclaim)]
      ensures s.hub.ctl == old(s).hub.ctl.(reclaim := None) && SameEvent(alone, s, old(s))
      ensures rooms == if r.members == {} then old(rooms) - {r.name} else old(rooms)
    {
      hide Safe, OnTrack, HubApply, HubEnabled, Apply, Enabled, Courteous, Mirrors;
      Forget(r);
      ReclaimFacts(s);
      NotPanicked(s);
      ghost var before := Forgotten(s, r.name);
      Record(Actor(Reclaim));
      Whole(before, s);
    }

    /** The deletion, before the machine has taken the step. */
    method Forget(r: Room)
      requires Mirrors(s) && r.name in rooms && rooms[r.name] == r
      modifies this`rooms
      ensures Mirrors(Forgotten(s, r.name))
      ensures rooms == if r.members == {} then old(rooms) - {r.name} else old(rooms)
    {
      hide InboxMirrors, ConnsMirror;
      if r.Empty() { rooms := rooms - {r.name}; }
    }

    /** The rooms are some of the rooms there were. */
    twostate predicate FewerRooms()
      reads this`rooms
    {
      forall n | n in rooms :: n in old(rooms) && rooms[n] == old(rooms[n])
    }

    /** Every room but one is as it was. */
    twostate predicate OthersKept(room: string)
      reads this`rooms, rooms.Values
    {
      && old(rooms.Keys) <= rooms.Keys
      && forall n | n in rooms && n != room ::
           n in old(rooms) && rooms[n] == old(rooms[n]) && rooms[n].members == old(rooms[n].members)
    }

    /** `disconnect`, called for an unregister event or for the next slow client. */
    method Disconnect(c: Client, ghost start: HubAction)
      requires Valid() && !s.hub.stopped && Enabled(s, Actor(start)) && Starts(start, c, s)
      modifies this`trace, this`s, this`clients, this`rooms, rooms.Values, s.conns.Keys, this`cancelled, persist
      ensures Valid() && Extends(alone, old(trace) + [Actor(start)], trace)
      ensures clients == old(clients) - {c} && FewerRooms()
      ensures c !in old(clients) ==> rooms == old(rooms) && s.hub == old(s).hub.(ctl := Started(old(s).hub.ctl, start))
      ensures Core(s.hub.ctl) == Core(Started(old(s).hub.ctl, start)) && SameDay(alone, s, old(s))
    {
      hide Safe, OnTrack, HubApply, HubEnabled, Apply, Enabled, Courteous, Extends, Mirrors;
      StartQuiet(s, c, start);
      if c !in clients {
        SkipDisconnect(c, start);
      } else {
        BeginDisconnect(c, start);
        LeaveAllRooms(c);
        ExtendsOne(alone, old(trace) + [Actor(start)], trace, CloseSend);
        EndDisconnect(c);
      }
    }

    /** The loop of `disconnect`, which deletes from the map it ranges over. */
    method LeaveAllRooms(c: Client)
      requires Valid() && !s.hub.stopped && s.hub.ctl.leaving == Some(c) && s.hub.ctl.leaveTodo == rooms.Keys
      requires s.hub.ctl.annTodo == {} && s.hub.ctl.reclaim.None?
      modifies this`trace, this`s, this`rooms, rooms.Values, s.conns.Keys`send, this`cancelled, persist
      ensures Valid() && Extends(alone, old(trace), trace) && FewerRooms()
      ensures Core(s.hub.ctl) == Core(old(s).hub.ctl).(leaveTodo := {}) && SameEvent(alone, s, old(s))
    {
      hide Safe, OnTrack, HubApply, HubEnabled, Apply, Enabled, Courteous, Extends, Mirrors;
      var todo := rooms.Keys;
      ExtendsNone(alone, trace);
      while todo != {}
        invariant Valid() && !s.hub.stopped && Extends(alone, old(trace), trace)
        invariant FewerRooms() && todo <= rooms.Keys
        invariant Core(s.hub.ctl) == Core(old(s).hub.ctl).(leaveTodo := todo) && SameEvent(alone, s, old(s))
        decreases todo
      {
        var n :| n in todo;
        todo := todo - {n};
        ghost var mid := trace;
        NotPanicked(s);
        Meanwhile();
        ExtendsTrans(alone, old(trace), mid, trace);
        mid := trace;
        LeaveOneRoom(c, n);
        ExtendsTrans(alone, old(trace), mid, trace);
      }
    }

    ghost method SkipDisconnect(c: Client, start: HubAction)
      requires Valid() && !s.hub.stopped && Enabled(s, Actor(start)) && Starts(start, c, s) && c !in clients
      modifies this`trace, this`s
      ensures Valid() && trace == old(trace) + [Actor(start)] && Extends(alone, trace, trace)
      ensures s.hub == old(s).hub.(ctl := Started(old(s).hub.ctl, start)) && SameDay(alone, s, old(s))
    {
      hide Safe, OnTrack, HubApply, HubEnabled, Apply, Enabled, Courteous;
      StartFacts(s, c, start);
      NotPanicked(s);
      Record(Actor(start));
    }

    method BeginDisconnect(c: Client, ghost start: HubAction)
      requires Valid() && !s.hub.stopped && Enabled(s, Actor(start)) && Starts(start, c, s) && c in clients
      modifies this`trace, this`s, this`clients
      ensures Valid() && trace == old(trace) + [Actor(start)] && Extends(alone, trace, trace)
      ensures clients == old(clients) - {c}
      ensures Core(s.hub.ctl) == Core(Started(old(s).hub.ctl, start)).(leaving := Some(c), leaveTodo := rooms.Keys)
      ensures SameDay(alone, s, old(s))
    {
      hide Safe, OnTrack, HubApply, HubEnabled, Apply, Enabled, Courteous;
      StartFacts(s, c, start);
      NotPanicked(s);
      clients := clients - {c};
      Record(Actor(start));
    }

    method EndDisconnect(c: Client)
      requires Valid() && !s.hub.stopped && s.hub.ctl.annTodo == {} && s.hub.ctl.reclaim.None?
      requires s.hub.ctl.leaving == Some(c) && s.hub.ctl.leaveTodo == {}
      modifies this`trace, this`s, c`closed
      ensures Valid() && trace == old(trace) + [Actor(CloseSend)]
      ensures s.hub.ctl == old(s).hub.ctl.(leaving := None) && SameEvent(alone, s, old(s))
    {
      hide Safe, OnTrack, HubApply, HubEnabled, Apply, Enabled, Courteous;
      hide Mirrors, HubMirrors, InboxMirrors, ConnsMirror;
      CloseFacts(s, c);
      NotPanicked(s);
      ghost var before := s;
      Pieces(s, c);
      var ok := c.Close();
      Record(Actor(CloseSend));
      Together(before, s, c);
    }

    /** One send of a message. */
    method Give(c: Client, frame: Frame) returns (ok: bool)
      requires Valid() && !s.hub.stopped && Quiet(s.hub.ctl) && c in s.hub.ctl.deliver
      requires s.hub.ctl.handoff.Some? && frame == Live(s.hub.ctl.handoff.value)
      modifies this`trace, this`s, c`send
      ensures Valid() && trace == old(trace) + [Actor(Deliver(c))]
      ensures ok == (|old(c.send)| < c.depth)
      ensures s.hub.ctl == old(s).hub.ctl.(deliver := old(s).hub.ctl.deliver - {c},
                             slow := old(s).hub.ctl.slow + (if ok then [] else [c]))
      ensures SameEvent(alone, s, old(s))
    {
      hide Safe, OnTrack, HubApply, HubEnabled, Apply, Enabled, Courteous;
      hide Mirrors, HubMirrors, InboxMirrors, ConnsMirror;
      DeliverFacts(s, c);
      NotPanicked(s);
      ghost var before := s;
      Pieces(s, c);
      var sent := c.Enqueue(frame);
      Record(Actor(Deliver(c)));
      Together(before, s, c);
      ok := sent == Sent;
    }

    /** `deliverMessage`: first every member but the sender, then the slow ones are dropped. */
    method DeliverMessage(r: Room, frame: Frame, except: Client)
      requires Valid() && !s.hub.stopped && Quiet(s.hub.ctl) && r in rooms.Values && s.hub.ctl.slow == []
      requires s.hub.ctl.deliver == r.members - {except}
      requires s.hub.ctl.handoff.Some? && frame == Live(s.hub.ctl.handoff.value)
      modifies this`trace, this`s, this`clients, this`rooms, rooms.Values, s.conns.Keys, this`cancelled, persist
      ensures Valid() && Extends(alone, old(trace), trace) && FewerRooms()
      ensures Core(s.hub.ctl) == Core(old(s).hub.ctl).(deliver := {}) && SameDay(alone, s, old(s))
    {
      hide Safe, OnTrack, HubApply, HubEnabled, Apply, Enabled, Courteous, Extends, Mirrors;
      var slow: seq<Client> := SendToAll(r.members, frame, except);
      var i := 0;
      while i < |slow|
        invariant 0 <= i <= |slow| && s.hub.ctl.slow == slow[i..]
        invariant Valid() && !s.hub.stopped && Extends(alone, old(trace), trace) && FewerRooms()
        invariant Core(s.hub.ctl) == Core(old(s).hub.ctl).(deliver := {}, slow := slow[i..])
        invariant SameDay(alone, s, old(s))
      {
        ghost var mid := trace;
        NotPanicked(s);
        Meanwhile();
        ExtendsTrans(alone, old(trace), mid, trace);
        mid := trace;
        NextSlowReady(s);
        ExtendsOne(alone, old(trace), trace, NextSlow);
        Disconnect(slow[i], NextSlow);
        ExtendsTrans(alone, old(trace), mid + [Actor(NextSlow)], trace);
        i := i + 1;
      }
    }

    method SendToAll(members: set<Client>, frame: Frame, except: Client) returns (slow: seq<Client>)
      requires Valid() && !s.hub.stopped && Quiet(s.hub.ctl) && s.hub.ctl.slow == []
      requires s.hub.ctl.deliver == members - {except}
      requires s.hub.ctl.handoff.Some? && frame == Live(s.hub.ctl.handoff.value)
      modifies this`trace, this`s, s.conns.Keys`send, this`cancelled, persist
      ensures Valid() && Extends(alone, old(trace), trace)
      ensures s.hub.ctl == old(s).hub.ctl.(deliver := {}, slow := slow) && SameEvent(alone, s, old(s))
    {
      hide Safe, OnTrack, HubApply, HubEnabled, Apply, Enabled, Courteous, Extends, Mirrors;
      DeliverKnown(s);
      slow := [];
      var todo := members;
      ExtendsNone(alone, trace);
      while todo != {}
        invariant todo <= members && Valid() && Extends(alone, old(trace), trace)
        invariant s.hub.ctl == old(s).hub.ctl.(deliver := todo - {except}, slow := slow) && SameEvent(alone, s, old(s))
        decreases todo
      {
        var c :| c in todo;
        todo := todo - {c};
        if c != except {
          ghost var mid := trace;
          NotPanicked(s);
          Meanwhile();
          ExtendsTrans(alone, old(trace), mid, trace);
          ExtendsOne(alone, old(trace), trace, Deliver(c));
          var ok := Give(c, frame);
          if !ok { slow := slow + [c]; }
        }
      }
    }

    /** The cold path of `broadcast`: never blocks; may drop when the queue is full, or when
        the context is cancelled and `select` happens to pick that case. */
    method Hand(m: Message)
      requires Valid() && !s.hub.stopped && s.hub.ctl.handoff == Some(m)
      requires Quiet(s.hub.ctl) && s.hub.ctl.deliver == {} && s.hub.ctl.slow == []
      modifies this`trace, this`s, persist
      ensures Valid() && trace == old(trace) + [Actor(HandOff(persist.items != old(persist.items)))]
      ensures s.hub == old(s).hub.(ctl := old(s).hub.ctl.(handoff := None))
      ensures s.conns == old(s).conns && s.log == old(s).log
      ensures persist.items == old(persist.items) + [m] || persist.items == old(persist.items)
      ensures persist.items == old(persist.items) ==> cancelled || |persist.items| >= persist.depth
    {
      hide Safe, OnTrack, HubApply, HubEnabled, Apply, Enabled, Courteous, Extends;
      NotPanicked(s);
      var room := |persist.items| < persist.depth;
      var send: bool := *;
      if !cancelled { send := room; }
      HandOffFacts(s, send && room);
      if send && room { persist.items := persist.items + [m]; }
      Record(Actor(HandOff(send && room)));
    }

    // -------------------------------------------------------------------------
    // Events
    // -------------------------------------------------------------------------

    /** The read pump of `c` is offering `cmd` and the hub, between events, takes it. */
    ghost predicate Takes(c: Client, cmd: Command, at: int)
      reads this`s
    {
      !s.hub.stopped && Idle(s.hub.ctl) && c in s.conns && s.conns[c].reader == Submitting(cmd) && at != NO_TIME
    }

    method RegisterClient(c: Client)
      requires Valid() && Enabled(s, Actor(HubAction.Register(c)))
      modifies this`trace, this`s, this`clients
      ensures Valid() && Idle(s.hub.ctl) && trace == old(trace) + [Actor(HubAction.Register(c))]
      ensures clients == old(clients) + {c}
    {
      hide Safe, OnTrack, HubApply, HubEnabled, Apply, Enabled, Courteous;
      RegisterFacts(s, c);
      NotPanicked(s);
      clients := clients + {c};
      Record(Actor(HubAction.Register(c)));
    }

    method UnregisterClient(c: Client)
      requires Valid() && Enabled(s, Actor(HubAction.Unregister(c)))
      modifies this`trace, this`s, this`clients, this`rooms, rooms.Values, s.conns.Keys, this`cancelled, persist
      ensures Valid() && Idle(s.hub.ctl) && Extends(alone, old(trace) + [Actor(HubAction.Unregister(c))], trace)
      ensures FewerRooms()
      ensures c !in old(clients) ==> s.hub == old(s).hub && clients == old(clients) && rooms == old(rooms)
      ensures c in old(clients) ==> forall m :: Settled(old(s), Plan({c}, {}, m), s)
    {
      hide Safe, OnTrack, HubApply, HubEnabled, Apply, Enabled, Courteous, Extends;
      hide Mirrors, Runs, Exec, Settled, ChannelsSettled, Ordered, SameDay;
      UnregisterIdle(s, c);
      SoFar();
      ClientsMirrored();
      Disconnect(c, HubAction.Unregister(c));
      SoFar();
      if c in old(clients) {
        SinceEvent(alone, cfg, old(trace), HubAction.Unregister(c), trace);
        forall m ensures Settled(old(s), Plan({c}, {}, m), s) {
          DisconnectEffect(old(s), c, m, trace[|old(trace)| + 1..]);
        }
      }
    }

    lemma ClientsMirrored()
      requires Mirrors(s)
      ensures clients == s.hub.clients
    {
    }

    lemma SoFar()
      requires OnTrack()
      ensures Runs(Init(cfg), trace) && s == Exec(Init(cfg), trace) && Ordered(s) && s.hub.total == |s.log|
    {
    }

    /** Every member of the room, the newcomer included, has been told of the join, and of who
        is in the room now. */
    twostate predicate Announced(c: Client, room: string, new order: seq<Client>, new frame: Frame)
      reads this, rooms.Values, s.conns.Keys`send
    {
      room in rooms && Enumerates(order, rooms[room].members)
      && Announces(frame, room, c.name, true, order) && ToldIn(room, frame)
    }

    /** `join`: creates the room on the first join, adds the client, and announces it. A
        client that has been dropped makes the announcement panic, and no other does. */
    method JoinRoom(c: Client, room: string, at: int)
      returns (panicked: bool, ghost order: seq<Client>, ghost frame: Frame)
      requires Valid() && Takes(c, Join(room), at)
      modifies this`trace, this`s, this`rooms, rooms.Values, s.conns.Keys`send, this`cancelled, persist
      ensures panicked <==> c !in old(clients)
      ensures panicked <==> s.panicked
      ensures !panicked ==> Valid() && Idle(s.hub.ctl)
      ensures Extends(alone, old(trace) + [Actor(Handle(c, at, order))], trace)
      ensures room in rooms
      ensures rooms[room].members == old(if room in rooms then rooms[room].members else {}) + {c}
      ensures OthersKept(room)
      ensures !panicked && alone ==> Announced(c, room, order, frame)
    {
      hide Safe, OnTrack, HubApply, HubEnabled, Apply, Enabled, Courteous, Mirrors, OthersKept, Extends;
      hide Enumerates, Idle;
      var names;
      names, order := Enter(c, room);
      frame := Presence(room, c.name, true, names);
      panicked := AnnounceJoin(c, room, at, names, order);
    }

    method AnnounceJoin(c: Client, room: string, at: int, names: seq<string>, ghost order: seq<Client>)
      returns (panicked: bool)
      requires OnTrack() && Safe(s) && Mirrors(Joined(s, c, room)) && Takes(c, Join(room), at)
      requires room in rooms && Enumerates(order, rooms[room].members) && names == Names(order)
      modifies this`trace, this`s, s.conns.Keys`send, this`cancelled, persist
      ensures panicked <==> c !in clients
      ensures panicked <==> s.panicked
      ensures !panicked ==> Valid() && Idle(s.hub.ctl)
      ensures !panicked && alone ==> ToldIn(room, Presence(room, c.name, true, names))
      ensures Extends(alone, old(trace) + [Actor(Handle(c, at, order))], trace)
    {
      hide Safe, OnTrack, HubApply, HubEnabled, Apply, Enabled, Courteous, Mirrors, AnyClosed, Enumerates, Extends;
      WhoIsClosed(c, room);
      TakeJoin(c, room, at, order);
      panicked := BroadcastPresence(rooms[room], Presence(room, c.name, true, names));
    }

    /** Between events the members of a room are open, and so is `c` if it is connected. */
    lemma WhoIsClosed(c: Client, room: string)
      requires Safe(s) && Mirrors(Joined(s, c, room)) && !s.hub.stopped && Idle(s.hub.ctl)
      requires c in s.conns && !s.conns[c].reader.Fresh? && room in rooms
      ensures rooms[room].members <= s.conns.Keys
      ensures AnyClosed(rooms[room].members) <==> c !in clients
    {
      if room in s.hub.rooms { RoomKnown(s, room); }
      forall d | d in Members(s.hub, room) ensures !d.closed { assert OpenTo(s, d); }
      assert c in s.hub.clients ==> OpenTo(s, c);
    }

    /** The membership change of `join`, before the machine has taken the step. */
    method Enter(c: Client, room: string) returns (names: seq<string>, ghost order: seq<Client>)
      requires Mirrors(s)
      modifies this`rooms, rooms.Values
      ensures Mirrors(Joined(s, c, room))
      ensures room in rooms
      ensures rooms[room].members == old(if room in rooms then rooms[room].members else {}) + {c}
      ensures OthersKept(room)
      ensures Enumerates(order, rooms[room].members) && names == Names(order)
    {
      hide Mirrors, OthersKept, Enumerates;
      Admit(c, room);
      names, order := rooms[room].NameList();
    }

    method Admit(c: Client, room: string)
      requires Mirrors(s)
      modifies this`rooms, rooms.Values
      ensures Mirrors(Joined(s, c, room))
      ensures room in rooms
      ensures rooms[room].members == old(if room in rooms then rooms[room].members else {}) + {c}
      ensures OthersKept(room)
    {
      hide InboxMirrors, ConnsMirror;
      if room !in rooms {
        var r := new Room(room);
        rooms := rooms[room := r];
      }
      rooms[room].Add(c);
    }

    ghost method TakeJoin(c: Client, room: string, at: int, order: seq<Client>)
      requires OnTrack() && Safe(s) && Mirrors(Joined(s, c, room)) && Takes(c, Join(room), at)
      requires room in rooms && Enumerates(order, rooms[room].members)
      modifies this`trace, this`s
      ensures OnTrack() && Mirrors(s) && !s.panicked && !s.hub.stopped
      ensures s.hub.ctl == old(s).hub.ctl.(ann := Presence(room, c.name, true, Names(order)),
                                           annTodo := rooms[room].members)
      ensures s.conns.Keys == old(s).conns.Keys && (c in clients ==> Safe(s))
      ensures trace == old(trace) + [Actor(Handle(c, at, order))]
    {
      hide Safe, OnTrack, HubApply, HubEnabled, Apply, Enabled, Courteous;
      JoinFacts(s, c, room, at, order);
      NotPanicked(s);
      Record(Actor(Handle(c, at, order)));
    }

    /** `leave`: removes the client from the room, announces it, deletes an empty room. */
    method LeaveRoom(c: Client, room: string, at: int) returns (ghost order: seq<Client>, ghost frame: Frame)
      requires Valid() && Takes(c, Leave(room), at)
      modifies this`trace, this`s, this`rooms, rooms.Values, s.conns.Keys`send, this`cancelled, persist
      ensures Valid() && Idle(s.hub.ctl) && s.log == old(s).log
      ensures Extends(alone, old(trace) + [Actor(Handle(c, at, order))], trace)
      ensures room !in old(rooms) ==> rooms == old(rooms)
      ensures room in old(rooms) ==> (room in rooms <==> old(rooms[room].members) - {c} != {})
      ensures room in rooms ==> rooms[room] == old(rooms[room]) && rooms[room].members == old(rooms[room].members) - {c}
      ensures rooms == old(rooms) || rooms == old(rooms) - {room}
      ensures room in old(rooms) ==> Enumerates(order, old(rooms[room].members) - {c})
      ensures Announces(frame, room, c.name, false, order)
      ensures alone ==> Told(if room in old(rooms) then old(rooms[room].members) - {c} else {}, frame)
    {
      hide Safe, OnTrack, HubApply, HubEnabled, Apply, Enabled, Courteous, Extends, Mirrors;
      if room in rooms {
        var names;
        names, order := Exclude(c, room);
        frame := Presence(room, c.name, false, names);
        TakeLeave(c, room, at, order);
        FinishLeaving(rooms[room], Presence(room, c.name, false, names));
      } else {
        order, frame := [], Presence(room, c.name, false, []);
        TakeIdle(c, room, at);
      }
    }

    /** The membership change of `leave`, before the machine has taken the step. */
    method Exclude(c: Client, room: string) returns (names: seq<string>, ghost order: seq<Client>)
      requires Mirrors(s) && room in rooms
      modifies rooms[room]
      ensures rooms[room].name == room && rooms[room].members == old(rooms[room].members) - {c}
      ensures Mirrors(Excluded(s, c, room)) && room in s.hub.rooms
      ensures Enumerates(order, rooms[room].members) && names == Names(order)
    {
      rooms[room].Remove(c);
      names, order := rooms[room].NameList();
    }

    ghost method TakeLeave(c: Client, room: string, at: int, order: seq<Client>)
      requires OnTrack() && Safe(s) && Mirrors(Excluded(s, c, room)) && Takes(c, Leave(room), at)
      requires room in rooms && room in s.hub.rooms && Enumerates(order, rooms[room].members)
      modifies this`trace, this`s
      ensures Valid() && !s.hub.stopped && s.conns.Keys == old(s).conns.Keys
      ensures s.hub.ctl == old(s).hub.ctl.(ann := Presence(room, c.name, false, Names(order)),
                                           annTodo := rooms[room].members, reclaim := Some(room))
      ensures trace == old(trace) + [Actor(Handle(c, at, order))] && s.log == old(s).log
    {
      hide Safe, OnTrack, HubApply, HubEnabled, Apply, Enabled, Courteous;
      hide Mirrors, Enumerates;
      ghost var before := Excluded(s, c, room);
      ExcludedMirrored(c, room);
      LeaveFacts(s, c, room, at, order);
      NotPanicked(s);
      Record(Actor(Handle(c, at, order)));
      Whole(before, s);
    }

    /** A command about a room that does not exist changes nothing. */
    ghost method TakeIdle(c: Client, room: string, at: int)
      requires Valid() && room !in rooms && !s.hub.stopped && Idle(s.hub.ctl) && c in s.conns && at != NO_TIME
      requires s.conns[c].reader.Submitting? && !s.conns[c].reader.cmd.Join? && s.conns[c].reader.cmd.room == room
      modifies this`trace, this`s
      ensures Valid() && s.hub == old(s).hub && s.log == old(s).log && s.conns.Keys == old(s.conns.Keys)
      ensures trace == old(trace) + [Actor(Handle(c, at, []))] && Extends(alone, trace, trace)
    {
      hide Safe, OnTrack, HubApply, HubEnabled, Apply, Enabled, Courteous;
      IdleFacts(s, c, room, at);
      NotPanicked(s);
      Record(Actor(Handle(c, at, [])));
    }

    /** `broadcast`: delivers a message to every other member of its room, drops the members
        whose channel is full when their turn comes, and hands the message to the persister. */
    method Broadcast(c: Client, room: string, text: string, k: nat, at: int)
      returns (m: Message, ghost dropped: set<Client>)
      requires Valid() && Takes(c, Say(room, text, k), at)
      modifies this, rooms.Values, s.conns.Keys, persist
      ensures Valid() && Idle(s.hub.ctl) && FewerRooms()
      ensures Extends(alone, old(trace) + [Actor(Handle(c, at, []))], trace)
      ensures room !in old(rooms) ==> s.hub == old(s).hub && s.log == old(s).log
      ensures room in old(rooms) ==> m == Message(0, room, c.id, c.name, text, at, |old(s).log|)
      ensures room in old(rooms) ==> s.log == old(s).log + [Entry(m, c, k, old(rooms[room].members) - {c})]
      ensures room in old(rooms) ==> FoundFull(old(s), Handle(c, at, []), trace[|old(trace)| + 1..], dropped)
      ensures room in old(rooms) ==> BroadcastDone(room, c, m, dropped)
      ensures room in old(rooms) && alone ==>
                && dropped == (set d | d in old(rooms[room].members) - {c} && |old(d.send)| >= d.depth)
                && ChannelsDone(room, c, m, dropped)
                && (persist.items == old(persist.items) + [m]
                    || (persist.items == old(persist.items) && (old(cancelled) || |persist.items| >= persist.depth)))
    {
      hide Safe, OnTrack, HubApply, HubEnabled, Apply, Enabled, Courteous, Extends, Messages, FoundFull, Mirrors, Got;
      ObjectsMirrored();
      m, dropped := BroadcastSteps(c, room, text, k, at);
      ObjectsMirrored();
      if room in old(rooms) && alone {
        assert FullAmong(old(s), old(s).hub.rooms[room] - {c})
            == set d | d in old(rooms[room].members) - {c} && |old(d.send)| >= d.depth;
      }
    }

    method BroadcastSteps(c: Client, room: string, text: string, k: nat, at: int)
      returns (m: Message, ghost dropped: set<Client>)
      requires Valid() && Takes(c, Say(room, text, k), at)
      modifies this, rooms.Values, s.conns.Keys, persist
      ensures Valid() && Idle(s.hub.ctl) && FewerRooms()
      ensures Extends(alone, old(trace) + [Actor(Handle(c, at, []))], trace)
      ensures room !in old(rooms) ==> s.hub == old(s).hub && s.log == old(s).log
      ensures room in old(rooms) ==>
                && m == Message(0, room, c.id, c.name, text, at, |old(s).log|)
                && s.log == old(s).log + [Entry(m, c, k, old(rooms[room].members) - {c})]
                && messagesTotal == old(messagesTotal) + 1
                && FoundFull(old(s), Handle(c, at, []), trace[|old(trace)| + 1..], dropped)
                && BroadcastSettled(alone, old(s), room, c, m, dropped, s)
      ensures room in old(rooms) && alone ==>
                persist.items == old(persist.items) + [m]
                || (persist.items == old(persist.items) && (old(cancelled) || |persist.items| >= persist.depth))
    {
      hide Safe, OnTrack, HubApply, HubEnabled, Apply, Enabled, Courteous, Extends;
      hide Mirrors, Runs, Exec, Settled, ChannelsSettled, Ordered, SameDay, Overflowing;
      SoFar();
      RoomsMirrored();
      dropped := {};
      if room !in rooms {
        m := Message(0, room, c.id, c.name, text, at, 0);
        TakeIdle(c, room, at);
      } else {
        RoomKnown(s, room);
        IdleCtl(s);
        m := Accept(c, room, text, k, at);
        Spread(rooms[room], m, c);
        SoFar();
        RoomsMirrored();
        SinceEvent(alone, cfg, old(trace), Handle(c, at, []), trace);
        ghost var work := trace[|old(trace)| + 1..];
        BroadcastEffect(old(s), c, at, work);
        dropped := Overflowing(Apply(old(s), Actor(Handle(c, at, []))), work);
        if alone { BroadcastAlone(old(s), c, at, work); }
      }
    }

    /** What a message did to the objects: `dropped` are the members, other than the sender, who
        were dropped for it. Nobody else has been, every room has lost exactly those, and every
        other client that was a member, but the sender, has the message behind what it had. */
    twostate predicate BroadcastDone(room: string, c: Client, new m: Message, new dropped: set<Client>)
      reads this, rooms.Values, s.conns.Keys
    {
      room in old(rooms) &&
      var to := old(rooms[room].members) - {c};
      && dropped <= to
      && messagesTotal == old(messagesTotal) + 1
      && clients == old(clients) - dropped
      && (forall n | n in old(rooms) :: n in rooms <==> old(rooms[n].members) - dropped != {})
      && (forall n | n in rooms :: n in old(rooms) && rooms[n].members == old(rooms[n].members) - dropped)
      && s.conns.Keys == old(s.conns.Keys)
      && forall d | d in old(s.conns.Keys) ::
           && (d.closed <==> old(d.closed) || d in dropped)
           && Got(s.conns[d]) == Got(old(s).conns[d]) + (if d in to - dropped then [m] else [])
    }

    /** What it did to the channels, if nothing was taken out of them meanwhile. */
    twostate predicate ChannelsDone(room: string, c: Client, new m: Message, new dropped: set<Client>)
      reads this, s.conns.Keys
    {
      && room in old(rooms) && s.conns.Keys == old(s.conns.Keys)
      && forall d | d in old(s.conns.Keys) ::
           Messages(d.send) == Messages(old(d.send))
             + (if d in old(rooms[room].members) - {c} - dropped then [m] else [])
    }

    lemma ObjectsMirrored()
      requires Mirrors(s)
      ensures clients == s.hub.clients && rooms.Keys == s.hub.rooms.Keys && messagesTotal == s.hub.total
      ensures forall n | n in rooms :: rooms[n].members == s.hub.rooms[n]
      ensures forall d | d in s.conns :: d.send == s.conns[d].buf && d.closed == s.conns[d].closed
    {
    }

    lemma RoomsMirrored()
      requires Mirrors(s)
      ensures rooms.Keys == s.hub.rooms.Keys && messagesTotal == s.hub.total
      ensures forall n | n in rooms :: rooms[n].members == s.hub.rooms[n]
    {
    }

    /** Counting and stamping the message, and working out whom it is for. */
    method Accept(c: Client, room: string, text: string, k: nat, at: int) returns (m: Message)
      requires Valid() && Takes(c, Say(room, text, k), at) && room in rooms
      modifies this`messagesTotal, this`trace, this`s
      ensures m == Message(0, room, c.id, c.name, text, at, |old(s).log|)
      ensures Valid() && trace == old(trace) + [Actor(Handle(c, at, []))] && Extends(alone, trace, trace)
      ensures s.hub.ctl == old(s).hub.ctl.(deliver := rooms[room].members - {c}, handoff := Some(m))
      ensures s.log == old(s).log + [Entry(m, c, k, rooms[room].members - {c})]
      ensures s.hub.total == old(s).hub.total + 1 && Enabled(old(s), Actor(Handle(c, at, [])))
      ensures s.conns.Keys == old(s).conns.Keys && s.cold == old(s).cold
      ensures !s.hub.stopped && s.cancelled == old(s).cancelled
    {
      hide Safe, OnTrack, HubApply, HubEnabled, Apply, Enabled, Courteous, Runs, Exec, Ordered;
      hide Mirrors;
      SoFar();
      CountMirrored();
      m := Message(0, room, c.id, c.name, text, at, messagesTotal);
      CountOne();
      SayFacts(s, c, room, m, k);
      NotPanicked(s);
      ghost var before := Counted(s);
      Record(Actor(Handle(c, at, [])));
      Whole(before, s);
    }

    lemma CountMirrored()
      requires Mirrors(s)
      ensures messagesTotal == s.hub.total && rooms.Keys == s.hub.rooms.Keys
      ensures forall n | n in rooms :: rooms[n].members == s.hub.rooms[n]
    {
    }

    method CountOne()
      requires Mirrors(s)
      modifies this`messagesTotal
      ensures Mirrors(Counted(s))
    {
      messagesTotal := messagesTotal + 1;
    }

    /** The hot path, then the cold path. */
    method Spread(r: Room, m: Message, c: Client)
      requires Valid() && !s.hub.stopped && r in rooms.Values
      requires s.hub.ctl == QuietCtl(s.hub.ctl.ann).(deliver := r.members - {c}, handoff := Some(m))
      modifies this`trace, this`s, this`clients, this`rooms, rooms.Values, s.conns.Keys, this`cancelled, persist
      ensures Valid() && Extends(alone, old(trace), trace) && FewerRooms()
      ensures Idle(s.hub.ctl) && s.log == old(s).log && s.conns.Keys == old(s.conns.Keys)
      ensures alone ==>
                persist.items == old(persist.items) + [m]
                || (persist.items == old(persist.items) && (old(cancelled) || |persist.items| >= persist.depth))
    {
      hide Safe, OnTrack, HubApply, HubEnabled, Apply, Enabled, Courteous, Extends, Mirrors;
      InboxMirrored();
      DeliverMessage(r, Live(m), c);
      ghost var mid := trace;
      NotPanicked(s);
      Meanwhile();
      ExtendsTrans(alone, old(trace), mid, trace);
      InboxMirrored();
      ghost var delivered, queued := trace, persist.items;
      Hand(m);
      ExtendsOne(alone, old(trace), delivered, HandOff(persist.items != queued));
    }

    lemma InboxMirrored()
      requires Mirrors(s)
      ensures persist.items == s.cold.queue && cancelled == s.cancelled
    {
    }

    /** `handle`: one command of a read pump. */
    method HandleCommand(c: Client, cmd: Command, at: int) returns (panicked: bool)
      requires Valid() && Takes(c, cmd, at)
      modifies this, rooms.Values, s.conns.Keys, persist
      ensures panicked <==> cmd.Join? && c !in old(clients)
      ensures !panicked ==> Valid() && Idle(s.hub.ctl)
      ensures exists order: seq<Client> :: Extends(alone, old(trace) + [Actor(Handle(c, at, order))], trace)
    {
      hide Safe, OnTrack, HubApply, HubEnabled, Apply, Enabled, Courteous, Extends, Mirrors, BroadcastDone;
      panicked := false;
      ghost var order: seq<Client> := [];
      match cmd {
        case Join(room) => ghost var frame; panicked, order, frame := JoinRoom(c, room, at);
        case Leave(room) => ghost var frame; order, frame := LeaveRoom(c, room, at);
        case Say(room, text, k) => var _, _ := Broadcast(c, room, text, k, at);
      }
    }

    /** The sampler's tick. */
    method SampleRate()
      requires Valid() && !s.hub.stopped && Idle(s.hub.ctl)
      modifies this`trace, this`s, this`messageRate, this`lastSampledTotal
      ensures Valid() && Idle(s.hub.ctl) && trace == old(trace) + [Actor(Sample)]
      ensures messageRate == messagesTotal - old(lastSampledTotal) && lastSampledTotal == messagesTotal
    {
      hide Safe, OnTrack, HubApply, HubEnabled, Apply, Enabled, Courteous;
      SampleFacts(s);
      NotPanicked(s);
      messageRate := messagesTotal - lastSampledTotal;
      lastSampledTotal := messagesTotal;
      Record(Actor(Sample));
    }

    /** `snapshot`: every live room once, with its size. */
    method Snapshot() returns (st: Stats)
      requires Valid() && Idle(s.hub.ctl)
      ensures st.connections == |clients| && st.total == messagesTotal && st.rate == messageRate
      ensures |st.rooms| == |rooms|
      ensures forall i, j | 0 <= i < j < |st.rooms| :: st.rooms[i].name != st.rooms[j].name
      ensures forall i | 0 <= i < |st.rooms| ::
                && st.rooms[i].name in rooms && st.rooms[i].members == |rooms[st.rooms[i].name].members|
                && 1 <= st.rooms[i].members <= st.connections
      ensures Headcount(st.rooms) == |Pairs(s.hub.rooms, rooms.Keys)|
    {
      hide OnTrack, Safe, Pairs;
      var infos: seq<RoomInfo> := [];
      var todo := rooms.Keys;
      while todo != {}
        invariant todo <= rooms.Keys && |infos| + |todo| == |rooms.Keys|
        invariant forall i, j | 0 <= i < j < |infos| :: infos[i].name != infos[j].name
        invariant forall i | 0 <= i < |infos| :: infos[i].name in rooms && infos[i].name !in todo
                    && infos[i].members == |rooms[infos[i].name].members| && 1 <= infos[i].members <= |clients|
        invariant forall n | n in rooms.Keys - todo :: n in RoomNames(infos)
        decreases todo
      {
        var n :| n in todo;
        todo := todo - {n};
        RoomSize(n);
        ghost var was := infos;
        infos := infos + [RoomInfo(n, |rooms[n].members|)];
        assert RoomNames(infos) == RoomNames(was) + [n];
      }
      HeadcountIsPairs(infos, s.hub.rooms);
      st := Stats(|clients|, infos, messagesTotal, messageRate);
    }

    lemma RoomSize(n: string)
      requires Valid() && Idle(s.hub.ctl) && n in rooms
      ensures rooms[n].members == s.hub.rooms[n] && 1 <= |rooms[n].members| <= |clients|
    {
      Subset(rooms[n].members, clients);
    }
  }

  function Headcount(infos: seq<RoomInfo>): int {
    if infos == [] then 0 else Headcount(infos[..|infos| - 1]) + infos[|infos| - 1].members
  }

  function RoomNames(infos: seq<RoomInfo>): seq<string> {
    seq(|infos|, i requires 0 <= i < |infos| => infos[i].name)
  }

  lemma {:induction false} HeadcountIsSizes(infos: seq<RoomInfo>, rooms: map<string, set<Client>>)
    requires forall i | 0 <= i < |infos| :: infos[i].name in rooms && infos[i].members == |rooms[infos[i].name]|
    ensures forall n | n in RoomNames(infos) :: n in rooms
    ensures Headcount(infos) == RoomSizes(rooms, RoomNames(infos))
  {
    if infos != [] {
      var pre := infos[..|infos| - 1];
      HeadcountIsSizes(pre, rooms);
      assert RoomNames(infos)[..|infos| - 1] == RoomNames(pre);
    }
  }

  /** The member counts of all the rooms, each once, add up to the (client, room) pairs. */
  lemma HeadcountIsPairs(infos: seq<RoomInfo>, rooms: map<string, set<Client>>)
    requires forall i | 0 <= i < |infos| :: infos[i].name in rooms && infos[i].members == |rooms[infos[i].name]|
    requires forall i, j | 0 <= i < j < |infos| :: infos[i].name != infos[j].name
    requires forall n | n in rooms :: n in RoomNames(infos)
    ensures Headcount(infos) == |Pairs(rooms, rooms.Keys)|
  {
    var names := RoomNames(infos);
    HeadcountIsSizes(infos, rooms);
    SizesCountPairs(rooms, names);
    assert (set n | n in names) == rooms.Keys;
  }

  /** The frame says that `user` has joined or left `room`, and lists the names in `order`. */
  ghost predicate Announces(f: Frame, room: string, user: string, joined: bool, order: seq<Client>) {
    && f.Presence? && f.room == room && f.user == user && f.joined == joined
    && |f.members| == |order| && forall i | 0 <= i < |order| :: f.members[i] == order[i].name
  }

  /** The hub's own objects are the same. */
  ghost predicate SameObjects(h: HubState, h': HubState) {
    && h'.clients == h.clients && h'.rooms == h.rooms
    && h'.total == h.total && h'.rate == h.rate && h'.sampled == h.sampled
  }

  /** The channels are as the machine has them, but for those of `except`. */
  ghost predicate ConnsMirror(conns: map<Client, Conn>, except: set<Client>)
    reads conns.Keys - except
  {
    forall c | c in conns.Keys - except :: c.send == conns[c].buf && c.closed == conns[c].closed
  }

  lemma OneChannel(conns: map<Client, Conn>, c: Client)
    requires ConnsMirror(conns, {}) && c in conns
    ensures ConnsMirror(conns, {c}) && c.send == conns[c].buf && c.closed == conns[c].closed
  {
  }

  lemma SameChannels(conns: map<Client, Conn>, conns': map<Client, Conn>)
    requires ConnsMirror(conns, {}) && conns'.Keys == conns.Keys
    requires forall c | c in conns :: conns'[c].buf == conns[c].buf && conns'[c].closed == conns[c].closed
    ensures ConnsMirror(conns', {})
  {
  }

  lemma AllChannels(conns: map<Client, Conn>, conns': map<Client, Conn>, c: Client)
    requires ConnsMirror(conns, {c}) && c in conns && c in conns' && conns' == conns[c := conns'[c]]
    requires c.send == conns'[c].buf && c.closed == conns'[c].closed
    ensures ConnsMirror(conns', {})
  {
  }

  lemma AnnounceFacts(s: State, c: Client)
    requires HubEnabled(s, Announce(c)) && !s.panicked
    ensures Enabled(s, Actor(Announce(c))) && Courteous(s, Actor(Announce(c)))
    ensures var t := HubApply(s, Announce(c));
      && t == Apply(s, Actor(Announce(c))) && Courteous(s, Actor(Announce(c)))
      && (t.panicked <==> s.conns[c].closed)
      && (!t.panicked ==>
            && Aside(t) == Aside(s) && SameCold(t, s) && t.cfg == s.cfg && SameObjects(s.hub, t.hub)
            && t.hub.ctl == s.hub.ctl.(annTodo := s.hub.ctl.annTodo - {c})
            && t.conns == s.conns[c := Push(c, s.conns[c], s.hub.ctl.ann)])
  {
    assert s.conns[c := Push(c, s.conns[c], s.hub.ctl.ann)].Keys == s.conns.Keys;
  }

  /** All of the state that announcements leave alone. */
  ghost function Aside(s: State): (State, set<Client>) {
    var hub := s.hub.(ctl := s.hub.ctl.(annTodo := {}), anns := map[]);
    (s.(conns := map[], cold := Init(s.cfg).cold, cancelled := false, hub := hub), s.conns.Keys)
  }

  lemma StillAside(s: State, s': State)
    requires s'.hub == s.hub && s'.log == s.log && s'.cfg == s.cfg && s'.conns.Keys == s.conns.Keys
    requires s'.panicked == s.panicked
    ensures Aside(s') == Aside(s)
  {
  }

  /** Where the hub is, but for the frame it announced last. */
  ghost function Core(k: Ctl): Ctl { k.(ann := Error("")) }

  /** Another point of the same event: what the loops of `disconnect` leave alone. */
  ghost predicate SameEvent(alone: bool, s': State, s: State) {
    && s'.cfg == s.cfg && s'.log == s.log && s'.conns.Keys == s.conns.Keys
    && s'.hub.stopped == s.hub.stopped && s'.hub.clients == s.hub.clients && (alone ==> SameCold(s', s))
  }

  /** What the persister and the context's owner leave alone when they hold still. */
  ghost predicate SameCold(s': State, s: State) { s'.cold == s.cold && s'.cancelled == s.cancelled }

  lemma DepartFacts(s: State, n: string, order: seq<Client>)
    requires Safe(s) && !s.hub.stopped && s.hub.ctl.leaving.Some? && n in s.hub.ctl.leaveTodo
    requires s.hub.ctl.annTodo == {} && s.hub.ctl.reclaim.None? && n in s.hub.rooms
    requires Enumerates(order, s.hub.rooms[n] - {s.hub.ctl.leaving.value})
    ensures var a := Actor(Depart(n, order)); Enabled(s, a) && Courteous(s, a) && !Apply(s, a).panicked
    ensures var c := s.hub.ctl.leaving.value; var k := s.hub.ctl.(leaveTodo := s.hub.ctl.leaveTodo - {n});
      var t := Apply(s, Actor(Depart(n, order)));
      && t == s.(hub := t.hub) && t.hub == s.hub.(rooms := t.hub.rooms, ctl := t.hub.ctl, anns := t.hub.anns)
      && (if c !in s.hub.rooms[n] then t.hub.rooms == s.hub.rooms && t.hub.ctl == k
          else
            && t.hub.rooms == s.hub.rooms[n := s.hub.rooms[n] - {c}]
            && t.hub.ctl == k.(ann := Presence(n, c.name, false, Names(order)), annTodo := s.hub.rooms[n] - {c},
                               reclaim := Some(n)))
  {
  }

  lemma RoomKnown(s: State, n: string)
    requires Safe(s) && n in s.hub.rooms
    ensures s.hub.rooms[n] <= s.conns.Keys
  {
    forall c | c in s.hub.rooms[n] ensures c in s.conns { assert c in s.hub.clients ==> OpenTo(s, c); }
  }

  lemma ReclaimFacts(s: State)
    requires Safe(s) && !s.hub.stopped && s.hub.ctl.annTodo == {} && s.hub.ctl.reclaim.Some?
    ensures Enabled(s, Actor(Reclaim)) && Courteous(s, Actor(Reclaim))
    ensures var n := s.hub.ctl.reclaim.value; var t := Apply(s, Actor(Reclaim));
      && n in s.hub.rooms
      && t == s.(hub := s.hub.(ctl := s.hub.ctl.(reclaim := None),
                 rooms := if s.hub.rooms[n] == {} then s.hub.rooms - {n} else s.hub.rooms))
  {
  }

  ghost predicate AnyClosed(members: set<Client>)
    reads members`closed
  {
    exists c | c in members :: c.closed
  }

  /** What the machine did in between: steps of work on the event in hand, and, unless the hub
      is alone, steps of everybody else. */
  ghost predicate Extends(alone: bool, before: seq<Action>, after: seq<Action>) {
    before <= after && WithinEvent(after[|before|..]) && (alone ==> HubOnly(after[|before|..]))
  }

  lemma ExtendsNone(alone: bool, before: seq<Action>)
    ensures Extends(alone, before, before)
  {
  }

  lemma ExtendsOne(alone: bool, before: seq<Action>, mid: seq<Action>, a: HubAction)
    requires Extends(alone, before, mid) && Work(a)
    ensures Extends(alone, before, mid + [Actor(a)])
  {
    assert (mid + [Actor(a)])[|before|..] == mid[|before|..] + [Actor(a)];
  }

  lemma ExtendsTrans(alone: bool, a: seq<Action>, b: seq<Action>, c: seq<Action>)
    requires Extends(alone, a, b) && Extends(alone, b, c)
    ensures Extends(alone, a, c)
  {
    assert c[|a|..] == b[|a|..] + c[|b|..];
  }

  lemma OthersNeverPanic(s: State, a: Action)
    requires Enabled(s, a) && !a.Actor?
    ensures !Apply(s, a).panicked && Courteous(s, a)
  {
  }

  /** The machine steps `disconnect` may stand for. */
  ghost predicate Starts(start: HubAction, c: Client, s: State) {
    start == HubAction.Unregister(c) || (start.NextSlow? && s.hub.ctl.slow != [] && s.hub.ctl.slow[0] == c)
  }

  ghost function Started(k: Ctl, start: HubAction): Ctl {
    if start.NextSlow? && k.slow != [] then k.(slow := k.slow[1..]) else k
  }

  /** What handling an event leaves alone, but for accepting a message. */
  ghost predicate SameDay(alone: bool, s': State, s: State) {
    && s'.cfg == s.cfg && s'.log == s.log && s'.conns.Keys == s.conns.Keys
    && s'.hub.stopped == s.hub.stopped && (alone ==> SameCold(s', s))
  }

  lemma StartQuiet(s: State, c: Client, start: HubAction)
    requires Safe(s) && Enabled(s, Actor(start)) && Starts(start, c, s)
    ensures c in s.conns && s.hub.ctl.annTodo == {} && s.hub.ctl.reclaim.None?
    ensures s.hub.ctl.leaving.None? && s.hub.ctl.leaveTodo == {}
  {
    if start.NextSlow? { SlowKnown(s); }
  }

  lemma StartFacts(s: State, c: Client, start: HubAction)
    requires Safe(s) && !s.hub.stopped && Enabled(s, Actor(start)) && Starts(start, c, s)
    ensures Courteous(s, Actor(start)) && c in s.conns && !Apply(s, Actor(start)).panicked
    ensures var t := Apply(s, Actor(start)); var k := Started(s.hub.ctl, start);
      && t.conns.Keys == s.conns.Keys && SameDay(true, t, s)
      && (forall d | d in s.conns :: t.conns[d].buf == s.conns[d].buf && t.conns[d].closed == s.conns[d].closed)
      && (if c in s.hub.clients then
            t.hub == s.hub.(clients := s.hub.clients - {c},
                            ctl := k.(leaving := Some(c), leaveTodo := s.hub.rooms.Keys))
          else t.hub == s.hub.(ctl := k))
  {
    if start.NextSlow? { SlowKnown(s); }
  }

  lemma SlowKnown(s: State)
    requires Safe(s) && s.hub.ctl.slow != []
    ensures s.hub.ctl.slow[0] in s.conns
  {
    assert OpenTo(s, s.hub.ctl.slow[0]);
  }

  lemma CloseFacts(s: State, c: Client)
    requires Safe(s) && !s.hub.stopped && s.hub.ctl.annTodo == {} && s.hub.ctl.reclaim.None?
    requires s.hub.ctl.leaving == Some(c) && s.hub.ctl.leaveTodo == {}
    ensures c in s.conns && Enabled(s, Actor(CloseSend)) && Courteous(s, Actor(CloseSend))
    ensures Apply(s, Actor(CloseSend))
         == s.(hub := s.hub.(ctl := s.hub.ctl.(leaving := None)), conns := s.conns[c := s.conns[c].(closed := true)])
  {
    assert OpenTo(s, c);
  }

  /** No announcement, deletion or disconnect is under way. */
  ghost predicate Quiet(k: Ctl) {
    k.annTodo == {} && k.reclaim.None? && k.leaving.None?
  }

  lemma DeliverFacts(s: State, c: Client)
    requires Safe(s) && !s.hub.stopped && Quiet(s.hub.ctl) && c in s.hub.ctl.deliver && s.hub.ctl.handoff.Some?
    ensures c in s.conns && Enabled(s, Actor(Deliver(c))) && Courteous(s, Actor(Deliver(c)))
    ensures var t := Apply(s, Actor(Deliver(c))); var fits := |s.conns[c].buf| < c.depth; var k := s.hub.ctl;
      && t == s.(hub := t.hub, conns := t.conns)
      && t.hub == s.hub.(ctl := k.(deliver := k.deliver - {c}, slow := k.slow + (if fits then [] else [c])))
      && !s.conns[c].closed
      && t.conns == s.conns[c := if fits then Push(c, s.conns[c], Live(k.handoff.value))
                                 else s.conns[c].(overflow := true)]
  {
    assert OpenTo(s, c);
  }

  lemma DeliverKnown(s: State)
    requires Safe(s)
    ensures s.hub.ctl.deliver <= s.conns.Keys
  {
    forall c | c in s.hub.ctl.deliver ensures c in s.conns { assert OpenTo(s, c); }
  }

  lemma NextSlowReady(s: State)
    requires Safe(s) && !s.hub.stopped && Quiet(s.hub.ctl) && s.hub.ctl.deliver == {} && s.hub.ctl.slow != []
    ensures Enabled(s, Actor(NextSlow))
  {
  }

  lemma HandOffFacts(s: State, sent: bool)
    requires Safe(s) && !s.hub.stopped && Quiet(s.hub.ctl) && s.hub.ctl.deliver == {} && s.hub.ctl.slow == []
    requires s.hub.ctl.handoff.Some?
    requires if sent then |s.cold.queue| < s.cfg.queueDepth else s.cancelled || |s.cold.queue| >= s.cfg.queueDepth
    ensures var a := Actor(HandOff(sent)); Enabled(s, a) && Courteous(s, a)
    ensures var t := Apply(s, Actor(HandOff(sent)));
      && t == s.(hub := s.hub.(ctl := s.hub.ctl.(handoff := None)), cold := t.cold)
      && t.cold.queue == if sent then s.cold.queue + [s.hub.ctl.handoff.value] else s.cold.queue
  {
  }

  lemma RegisterFacts(s: State, c: Client)
    requires Enabled(s, Actor(HubAction.Register(c)))
    ensures c in s.conns && Courteous(s, Actor(HubAction.Register(c))) && Idle(s.hub.ctl)
    ensures Apply(s, Actor(HubAction.Register(c)))
         == s.(hub := s.hub.(clients := s.hub.clients + {c}), conns := s.conns[c := s.conns[c].(reader := Reading)])
  {
  }

  lemma UnregisterIdle(s: State, c: Client)
    requires Enabled(s, Actor(HubAction.Unregister(c)))
    ensures Idle(s.hub.ctl) && !s.hub.stopped
  {
  }

  /** The steps of a run since one event was received. */
  lemma SinceEvent(alone: bool, cfg: Config, before: seq<Action>, a: HubAction, after: seq<Action>)
    requires Runs(Init(cfg), before) && Enabled(Exec(Init(cfg), before), Actor(a))
    requires Runs(Init(cfg), after) && Extends(alone, before + [Actor(a)], after)
    ensures |before| < |after|
    ensures var s1 := Apply(Exec(Init(cfg), before), Actor(a)); var work := after[|before| + 1..];
      WithinEvent(work) && (alone ==> HubOnly(work)) && Runs(s1, work) && Exec(s1, work) == Exec(Init(cfg), after)
  {
    var work := after[|before| + 1..];
    Then(Init(cfg), before, Actor(a));
    ExecConcat(Init(cfg), before + [Actor(a)], work);
    assert after == (before + [Actor(a)]) + work;
  }

  lemma JoinFacts(s: State, c: Client, room: string, at: int, order: seq<Client>)
    requires Safe(s) && !s.hub.stopped && Idle(s.hub.ctl) && at != NO_TIME
    requires c in s.conns && s.conns[c].reader == Submitting(Join(room))
    requires Enumerates(order, Members(s.hub, room) + {c})
    ensures var a := Actor(Handle(c, at, order)); Enabled(s, a) && (Courteous(s, a) <==> c in s.hub.clients)
    ensures var t := Apply(s, Actor(Handle(c, at, order))); var members := Members(s.hub, room) + {c};
      && !t.panicked && t == s.(hub := t.hub, conns := t.conns)
      && t.hub == s.hub.(rooms := s.hub.rooms[room := members], anns := t.hub.anns,
                         ctl := s.hub.ctl.(ann := Presence(room, c.name, true, Names(order)), annTodo := members))
      && t.conns == s.conns[c := s.conns[c].(reader := Reading, joins := s.conns[c].joins + [|s.log|])]
  {
  }

  ghost predicate BroadcastSettled(alone: bool, s: State, room: string, c: Client, m: Message, dropped: set<Client>,
                                   s': State)
  {
    && room in s.hub.rooms && s.hub.rooms[room] <= s.conns.Keys
    && var to := s.hub.rooms[room] - {c}; var p := Plan(dropped, to, m);
       && dropped <= to && Settled(s, p, s') && s'.conns.Keys == s.conns.Keys
       && (alone ==> dropped == FullAmong(s, to) && ChannelsSettled(s, p, s'))
  }

  /** Exactly the clients in `dropped` had a full channel when their own turn came in the steps
      that followed the event. */
  ghost predicate FoundFull(s: State, a: HubAction, steps: seq<Action>, dropped: set<Client>) {
    Enabled(s, Actor(a)) && Runs(Apply(s, Actor(a)), steps) && dropped == Overflowing(Apply(s, Actor(a)), steps)
  }

  ghost function Joined(s: State, c: Client, room: string): State {
    s.(hub := s.hub.(rooms := s.hub.rooms[room := Members(s.hub, room) + {c}]))
  }

  ghost function Excluded(s: State, c: Client, room: string): State {
    s.(hub := s.hub.(rooms := s.hub.rooms[room := Members(s.hub, room) - {c}]))
  }

  ghost function Counted(s: State): State { s.(hub := s.hub.(total := s.hub.total + 1)) }

  ghost function Forgotten(s: State, n: string): State {
    s.(hub := s.hub.(rooms := if n in s.hub.rooms && s.hub.rooms[n] == {} then s.hub.rooms - {n} else s.hub.rooms))
  }

  lemma LeaveFacts(s: State, c: Client, room: string, at: int, order: seq<Client>)
    requires Safe(s) && !s.hub.stopped && Idle(s.hub.ctl) && at != NO_TIME && room in s.hub.rooms
    requires c in s.conns && s.conns[c].reader == Submitting(Leave(room)) && Enumerates(order, s.hub.rooms[room] - {c})
    ensures var a := Actor(Handle(c, at, order)); Enabled(s, a) && Courteous(s, a)
    ensures var t := Apply(s, Actor(Handle(c, at, order))); var members := s.hub.rooms[room] - {c};
      && t == s.(hub := t.hub, conns := t.conns)
      && t.hub == s.hub.(rooms := s.hub.rooms[room := members], anns := t.hub.anns,
                         ctl := s.hub.ctl.(ann := Presence(room, c.name, false, Names(order)), annTodo := members,
                                           reclaim := Some(room)))
      && t.conns == s.conns[c := s.conns[c].(reader := Reading)]
  {
  }

  lemma IdleFacts(s: State, c: Client, room: string, at: int)
    requires Safe(s) && !s.hub.stopped && Idle(s.hub.ctl) && at != NO_TIME && room !in s.hub.rooms
    requires c in s.conns && s.conns[c].reader.Submitting?
    requires !s.conns[c].reader.cmd.Join? && s.conns[c].reader.cmd.room == room
    ensures var a := Actor(Handle(c, at, []));
      && Enabled(s, a) && Courteous(s, a)
      && Apply(s, a) == s.(conns := s.conns[c := s.conns[c].(reader := Reading)])
  {
  }

  lemma SayFacts(s: State, c: Client, room: string, m: Message, k: nat)
    requires Safe(s) && !s.hub.stopped && Idle(s.hub.ctl) && m.at != NO_TIME && room in s.hub.rooms
    requires c in s.conns && s.conns[c].reader == Submitting(Say(room, m.content, k))
    requires m == Message(0, room, c.id, c.name, m.content, m.at, |s.log|)
    ensures var a := Actor(Handle(c, m.at, [])); Enabled(s, a) && Courteous(s, a)
    ensures var t := Apply(s, Actor(Handle(c, m.at, []))); var to := s.hub.rooms[room] - {c};
      && t == s.(hub := t.hub, conns := t.conns, log := s.log + [Entry(m, c, k, to)])
      && t.hub == s.hub.(total := s.hub.total + 1, ctl := s.hub.ctl.(deliver := to, handoff := Some(m)))
      && t.conns == s.conns[c := s.conns[c].(reader := Reading)]
  {
  }

  lemma SampleFacts(s: State)
    requires Safe(s) && !s.hub.stopped && Idle(s.hub.ctl)
    ensures Enabled(s, Actor(Sample)) && Courteous(s, Actor(Sample))
    ensures var t := Apply(s, Actor(Sample));
      t == s.(hub := s.hub.(rate := s.hub.total - s.hub.sampled, sampled := s.hub.total, rates := t.hub.rates))
  {
  }

  ghost function QuietCtl(ann: Frame): Ctl { QUIET.(ann := ann) }

  lemma IdleCtl(s: State)
    requires Safe(s) && Idle(s.hub.ctl)
    ensures s.hub.ctl == QuietCtl(s.hub.ctl.ann)
  {
  }
}

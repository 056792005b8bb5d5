/** Every event the hub takes, it finishes: it is never blocked, and each step of the
    nested loops lowers a lexicographic measure. */
module Progress {
  import opened Clients
  import opened Machine
  import opened Safety

  datatype Rank = Rank(handoff: nat, members: nat, rooms: nat, reclaim: nat, told: nat)

  function RankOf(k: Ctl): Rank {
    Rank(if k.handoff.Some? then 1 else 0, 2 * |k.deliver| + |k.slow|,
         if k.leaving.Some? then 1 + |k.leaveTodo| else 0, if k.reclaim.Some? then 1 else 0, |k.annTodo|)
  }

  ghost predicate Lower(a: Rank, b: Rank) {
    (b.handoff, b.members, b.rooms, b.reclaim, b.told decreases to a.handoff, a.members, a.rooms, a.reclaim, a.told)
  }

  predicate Work(a: HubAction) {
    a.Announce? || a.Reclaim? || a.Depart? || a.CloseSend? || a.Deliver? || a.NextSlow? || a.HandOff?
  }

  lemma WorkLowers(s: State, a: HubAction)
    requires Safe(s) && HubEnabled(s, a) && Work(a)
    ensures Lower(RankOf(HubApply(s, a).hub.ctl), RankOf(s.hub.ctl))
  {
    if a.Depart? || a.NextSlow? { RangeLowers(s, a); }
  }

  lemma RangeLowers(s: State, a: HubAction)
    requires Safe(s) && HubEnabled(s, a) && (a.Depart? || a.NextSlow?)
    ensures Lower(RankOf(HubApply(s, a).hub.ctl), RankOf(s.hub.ctl))
  {
  }

  lemma Enumerate(s: set<Client>) returns (order: seq<Client>)
    ensures Enumerates(order, s)
  {
    if s == {} {
      order := [];
    } else {
      var c :| c in s;
      var rest := Enumerate(s - {c});
      order := [c] + rest;
    }
  }

  /** While an event is being handled the hub always has a step to take. */
  lemma NeverBlocked(s: State) returns (a: HubAction)
    requires Safe(s) && !Idle(s.hub.ctl) && !s.hub.stopped
    ensures Work(a) && Enabled(s, Actor(a)) && Courteous(s, Actor(a))
    ensures a.HandOff? ==> (a.sent <==> |s.cold.queue| < s.cfg.queueDepth)
  {
    var k := s.hub.ctl;
    if k.annTodo != {} {
      var c :| c in k.annTodo;
      assert OpenTo(s, c);
      a := Announce(c);
    } else if k.reclaim.Some? {
      a := Reclaim;
    } else if k.leaving.Some? && k.leaveTodo != {} {
      var room :| room in k.leaveTodo;
      var order := Enumerate(s.hub.rooms[room] - {k.leaving.value});
      a := Depart(room, order);
    } else if k.leaving.Some? {
      a := CloseSend;
    } else if k.deliver != {} {
      var c :| c in k.deliver;
      assert OpenTo(s, c);
      a := Deliver(c);
    } else if k.slow != [] {
      a := NextSlow;
    } else {
      a := HandOff(|s.cold.queue| < s.cfg.queueDepth);
    }
  }

  ghost predicate HubOnly(acts: seq<Action>) {
    forall i | 0 <= i < |acts| :: acts[i].Actor? && Work(acts[i].h)
  }

  /** What working through an event leaves alone. */
  ghost predicate SameWorld(s: State, s': State) {
    && s'.cfg == s.cfg && s'.conns.Keys == s.conns.Keys && s'.hub.rooms.Keys <= s.hub.rooms.Keys
    && s'.cold == s.cold.(queue := s'.cold.queue, dropped := s'.cold.dropped, late := s'.cold.late)
    && s'.log == s.log && s'.hub.stopped == s.hub.stopped && s'.cancelled == s.cancelled
  }

  /** The message in hand goes to the queue if there is room for it. */
  ghost predicate HandsOver(s: State, s': State) {
    if s'.hub.ctl.handoff == s.hub.ctl.handoff then s'.cold == s.cold
    else
      && s'.hub.ctl.handoff.None? && s.hub.ctl.handoff.Some?
      && s'.cold.queue == s.cold.queue + if |s.cold.queue| < s.cfg.queueDepth then [s.hub.ctl.handoff.value] else []
  }

  lemma WorkWorld(s: State, a: HubAction)
    requires Safe(s) && HubEnabled(s, a) && Work(a)
    ensures SameWorld(s, HubApply(s, a))
    ensures (a.HandOff? ==> (a.sent <==> |s.cold.queue| < s.cfg.queueDepth)) ==> HandsOver(s, HubApply(s, a))
  {
    hide HubApply;
    OthersLeave(s, a);
    NobodyArrives(s, a);
    WorkRooms(s, a);
    if a.HandOff? { HandOffCold(s, a.sent); }
  }

  lemma WorkRooms(s: State, a: HubAction)
    requires HubEnabled(s, a) && Work(a)
    ensures HubApply(s, a).hub.rooms.Keys <= s.hub.rooms.Keys
  {
    hide Enumerates, Names, HandleApply;
    match a {
      case Depart(_, _) =>
      case _ =>
    }
  }

  lemma HandOffCold(s: State, sent: bool)
    requires HubEnabled(s, HandOff(sent))
    ensures var s' := HubApply(s, HandOff(sent)); var d' := s'.cold;
      && d' == s.cold.(queue := d'.queue, dropped := d'.dropped, late := d'.late) && s'.hub.ctl.handoff.None?
      && d'.queue == s.cold.queue + if sent then [s.hub.ctl.handoff.value] else []
  {
    hide Enumerates;
  }

  lemma WorkOn(s: State) returns (a: HubAction)
    requires Safe(s) && !Idle(s.hub.ctl) && !s.hub.stopped
    ensures Work(a) && Enabled(s, Actor(a)) && Safe(Apply(s, Actor(a))) && !Apply(s, Actor(a)).hub.stopped
    ensures Lower(RankOf(Apply(s, Actor(a)).hub.ctl), RankOf(s.hub.ctl))
    ensures SameWorld(s, Apply(s, Actor(a))) && HandsOver(s, Apply(s, Actor(a)))
  {
    a := NeverBlocked(s);
    WorkWorld(s, a);
    WorkLowers(s, a);
    StepSafe(s, Actor(a));
  }

  /** From every safe state the hub alone can bring its event to an end. */
  lemma Finish(s: State) returns (acts: seq<Action>)
    requires Safe(s) && !s.hub.stopped
    ensures HubOnly(acts) && Runs(s, acts) && Idle(Exec(s, acts).hub.ctl) && Safe(Exec(s, acts))
    ensures SameWorld(s, Exec(s, acts)) && HandsOver(s, Exec(s, acts))
    decreases RankOf(s.hub.ctl).handoff, RankOf(s.hub.ctl).members, RankOf(s.hub.ctl).rooms,
              RankOf(s.hub.ctl).reclaim, RankOf(s.hub.ctl).told
  {
    hide Safe, Apply, Enabled, RankOf;
    acts := [];
    if !Idle(s.hub.ctl) {
      var a := WorkOn(s);
      var rest := Finish(Apply(s, Actor(a)));
      acts := [Actor(a)] + rest;
      assert acts[1..] == rest;
    }
  }

  // ---------------------------------------------------------------------------
  // How long an event can take
  // ---------------------------------------------------------------------------

  function HubSteps(acts: seq<Action>): nat {
    if acts == [] then 0 else (if acts[0].Actor? then 1 else 0) + HubSteps(acts[1..])
  }

  /** Bounds on the rooms: how many there are, and how many members each has. */
  datatype Size = Size(rooms: nat, members: nat)

  function SizeOf(h: HubState): Size { Size(|h.rooms|, |h.clients| + 1) }

  ghost predicate Fits(h: HubState, z: Size) {
    |h.rooms| <= z.rooms && forall n | n in h.rooms :: |h.rooms[n]| <= z.members
  }

  /** The steps of one departure, and of one disconnect after its beginning. */
  function DepartCost(z: Size): nat { z.members + 2 }

  function LeaveCost(z: Size): nat { z.rooms * DepartCost(z) + 1 }

  /** What is left of the hub's event: members to tell, a room to reclaim, rooms to leave,
      slow clients to drop, members to send to, a message to hand off. */
  function Budget(k: Ctl, z: Size): nat {
    |k.annTodo| + (if k.reclaim.Some? then 1 else 0)
    + (if k.leaving.Some? then Times(|k.leaveTodo|, DepartCost(z)) + 1 else 0)
    + Times(|k.slow|, LeaveCost(z) + 1) + Times(|k.deliver|, LeaveCost(z) + 2) + (if k.handoff.Some? then 1 else 0)
  }

  function Times(n: nat, each: nat): nat { n * each }

  lemma NothingLeft(k: Ctl, z: Size)
    ensures Budget(k, z) == 0 ==> Idle(k)
  {
    hide LeaveCost, DepartCost;
    if k.slow != [] { Scale(1, |k.slow|, LeaveCost(z) + 1); }
    if k.deliver != {} { Scale(1, |k.deliver|, LeaveCost(z) + 2); }
  }

  lemma Fewer(a: set<Client>, b: set<Client>)
    requires a <= b
    ensures |a| <= |b|
  {
    assert b == a + (b - a);
  }

  lemma AlwaysFits(s: State)
    requires Safe(s)
    ensures Fits(s.hub, SizeOf(s.hub))
  {
    var h := s.hub;
    forall n | n in h.rooms ensures |h.rooms[n]| <= |h.clients| + 1 {
      var all := h.clients + (if h.ctl.leaving.Some? then {h.ctl.leaving.value} else {});
      Fewer(h.rooms[n], all);
    }
  }

  /** Every step of the hub's own uses up some of the budget, and makes no room larger. */
  lemma WorkCosts(s: State, a: HubAction, z: Size)
    requires Safe(s) && HubEnabled(s, a) && Work(a) && Fits(s.hub, z)
    ensures Fits(HubApply(s, a).hub, z)
    ensures Budget(HubApply(s, a).hub.ctl, z) < Budget(s.hub.ctl, z)
  {
    hide HandleApply, AnnounceApply, DeliverApply, DisconnectHub, DepartHub, ReclaimHub, Budget, Enumerates;
    match a {
      case Announce(c) => assert OpenTo(s, c); AnnounceCosts(s, c, z);
      case Deliver(c) => assert OpenTo(s, c); DeliverCosts(s, c, z);
      case Reclaim => ReclaimCosts(s.hub, z);
      case Depart(room, order) => DepartCosts(s.hub, room, order, z);
      case NextSlow => NextSlowCosts(s.hub, z);
      case _ => EndCosts(s, a, z);
    }
  }

  lemma AnnounceCosts(s: State, c: Client, z: Size)
    requires c in s.conns && !s.conns[c].closed && c in s.hub.ctl.annTodo && Fits(s.hub, z)
    ensures var h := AnnounceApply(s, c).hub; Fits(h, z) && Budget(h.ctl, z) < Budget(s.hub.ctl, z)
  {
  }

  lemma DeliverCosts(s: State, c: Client, z: Size)
    requires c in s.conns && !s.conns[c].closed && c in s.hub.ctl.deliver && s.hub.ctl.handoff.Some? && Fits(s.hub, z)
    ensures var h := DeliverApply(s, c).hub; Fits(h, z) && Budget(h.ctl, z) < Budget(s.hub.ctl, z)
  {
    hide Budget;
    OneMemberLess(s.hub.ctl, c, z);
  }

  /** Sending to one member, whether or not its channel is full. */
  lemma OneMemberLess(k: Ctl, c: Client, z: Size)
    requires c in k.deliver
    ensures Budget(k.(deliver := k.deliver - {c}), z) < Budget(k, z)
    ensures Budget(k.(deliver := k.deliver - {c}, slow := k.slow + [c]), z) < Budget(k, z)
  {
    hide LeaveCost, DepartCost;
    assert |k.deliver - {c}| == |k.deliver| - 1;
    SlowerForOneLess(|k.deliver|, |k.slow|, |k.slow|, LeaveCost(z));
    SlowerForOneLess(|k.deliver|, |k.slow|, |k.slow| + 1, LeaveCost(z));
  }

  lemma SlowerForOneLess(deliver: nat, slow: nat, slow': nat, cost: nat)
    requires deliver > 0 && slow' <= slow + 1
    ensures slow' * (cost + 1) + (deliver - 1) * (cost + 2) < slow * (cost + 1) + deliver * (cost + 2)
  {
    Scale(slow', slow + 1, cost + 1);
    assert (slow + 1) * (cost + 1) == slow * (cost + 1) + (cost + 1);
    assert deliver * (cost + 2) == (deliver - 1) * (cost + 2) + (cost + 2);
  }

  lemma Scale(a: nat, b: nat, c: nat)
    requires a <= b
    ensures a * c <= b * c
  {
  }

  lemma ReclaimCosts(h: HubState, z: Size)
    requires h.ctl.reclaim.Some? && Fits(h, z)
    ensures var h' := ReclaimHub(h); Fits(h', z) && Budget(h'.ctl, z) < Budget(h.ctl, z)
  {
    var room := h.ctl.reclaim.value;
    assert (h.rooms - {room}).Keys == h.rooms.Keys - {room};
  }

  lemma DepartCosts(h: HubState, room: string, order: seq<Client>, z: Size)
    requires h.ctl.leaving.Some? && room in h.rooms && room in h.ctl.leaveTodo && Fits(h, z)
    requires h.ctl.annTodo == {} && h.ctl.reclaim.None?
    ensures var h' := DepartHub(h, room, order); Fits(h', z) && Budget(h'.ctl, z) < Budget(h.ctl, z)
  {
    hide Names, LeaveCost;
    var c := h.ctl.leaving.value; var h' := DepartHub(h, room, order);
    Fewer(h.rooms[room] - {c}, h.rooms[room]);
    var left := |h.ctl.leaveTodo|;
    assert |h'.ctl.leaveTodo| == left - 1 && |h'.ctl.annTodo| <= z.members;
    OneRoomLess(left, z);
    assert h'.rooms.Keys == h.rooms.Keys;
  }

  lemma OneRoomLess(left: nat, z: Size)
    requires left > 0
    ensures left * DepartCost(z) == (left - 1) * DepartCost(z) + z.members + 2
  {
  }

  lemma NextSlowCosts(h: HubState, z: Size)
    requires h.ctl.slow != [] && h.ctl.leaving.None? && Fits(h, z)
    ensures var h' := DisconnectHub(h.(ctl := h.ctl.(slow := h.ctl.slow[1..])), h.ctl.slow[0]);
      Fits(h', z) && Budget(h'.ctl, z) < Budget(h.ctl, z)
  {
    hide DepartCost;
    assert |h.rooms.Keys| == |h.rooms|;
    OneSlowLess(|h.ctl.slow|, |h.rooms|, z);
  }

  lemma OneSlowLess(slow: nat, rooms: nat, z: Size)
    requires slow > 0 && rooms <= z.rooms
    ensures (slow - 1) * (LeaveCost(z) + 1) + rooms * DepartCost(z) + 1 < slow * (LeaveCost(z) + 1)
  {
    hide DepartCost;
    Scale(rooms, z.rooms, DepartCost(z));
    assert slow * (LeaveCost(z) + 1) == (slow - 1) * (LeaveCost(z) + 1) + (LeaveCost(z) + 1);
  }

  lemma EndCosts(s: State, a: HubAction, z: Size)
    requires HubEnabled(s, a) && (a.CloseSend? || a.HandOff?) && Fits(s.hub, z) && !HubApply(s, a).panicked
    ensures var h := HubApply(s, a).hub; Fits(h, z) && Budget(h.ctl, z) < Budget(s.hub.ctl, z)
  {
    hide Enumerates, HandleApply, AnnounceApply, DeliverApply, DisconnectHub, DepartHub, ReclaimHub;
  }

  /** No new event begins; everybody but the hub may do anything. */
  ghost predicate WithinEvent(acts: seq<Action>) {
    forall i | 0 <= i < |acts| :: acts[i].Actor? ==> Work(acts[i].h)
  }

  lemma {:induction false} EventCosts(s: State, acts: seq<Action>, z: Size)
    requires Safe(s) && Runs(s, acts) && WithinEvent(acts) && Fits(s.hub, z)
    ensures HubSteps(acts) + Budget(Exec(s, acts).hub.ctl, z) <= Budget(s.hub.ctl, z)
    decreases |acts|
  {
    hide Safe, Fits, Budget;
    if acts != [] {
      StepSafe(s, acts[0]);
      if acts[0].Actor? { WorkCosts(s, acts[0].h, z); } else { OthersLeaveHub(s, acts[0]); }
      assert WithinEvent(acts[1..]);
      EventCosts(Apply(s, acts[0]), acts[1..], z);
    }
  }

  lemma OthersLeaveHub(s: State, a: Action)
    requires Enabled(s, a) && !a.Actor?
    ensures Apply(s, a).hub == s.hub
  {
  }

  /** However the goroutines interleave, the hub takes at most as many steps in its event as
      can be read off the state, and is between events once it has taken them all; until then
      it always has one to take. */
  lemma EventEnds(s: State, acts: seq<Action>)
    requires Safe(s) && Runs(s, acts) && WithinEvent(acts)
    ensures HubSteps(acts) <= Budget(s.hub.ctl, SizeOf(s.hub))
    ensures HubSteps(acts) == Budget(s.hub.ctl, SizeOf(s.hub)) ==> Idle(Exec(s, acts).hub.ctl)
  {
    NothingLeft(Exec(s, acts).hub.ctl, SizeOf(s.hub));
    AlwaysFits(s);
    EventCosts(s, acts, SizeOf(s.hub));
  }
}

/** When a run panics, exactly: the hypothesis of open-channel safety is necessary, and it
    does not hold by itself. */
module Crash {
  import opened Protocol
  import opened Clients
  import opened Machine
  import opened Safety
  import opened Progress
  import opened Ordering
  import opened EventEffect
  import opened Scenarios

  /** The hub is ranging over members that include a client whose channel is closed. */
  ghost predicate Doomed(s: State, c: Client) {
    !s.panicked && !s.hub.stopped && c in s.hub.ctl.annTodo && c in s.conns && s.conns[c].closed
  }

  /** Taking a join from a dropped client adds it to the room and announces to it. */
  lemma DroppedJoinDooms(s: State, c: Client, at: int, order: seq<Client>)
    requires Safe(s) && Enabled(s, Actor(Handle(c, at, order)))
    requires s.conns[c].reader.cmd.Join? && c !in s.hub.clients
    ensures Doomed(Apply(s, Actor(Handle(c, at, order))), c)
  {
  }

  /** Nothing rescues the hub then: other goroutines leave it where it is, and its own
      steps only use up the members it has not told yet. */
  lemma DoomedStep(s: State, c: Client, a: Action)
    requires Doomed(s, c) && Enabled(s, a)
    ensures Apply(s, a).panicked || Doomed(Apply(s, a), c)
    ensures !Apply(s, a).panicked ==>
              |Apply(s, a).hub.ctl.annTodo| == |s.hub.ctl.annTodo| - (if a.Actor? then 1 else 0)
  {
    hide HubEnabled, HubApply;
    if a.Actor? { DoomedHubStep(s, c, a.h); }
  }

  lemma DoomedHubStep(s: State, c: Client, a: HubAction)
    requires Doomed(s, c) && HubEnabled(s, a)
    ensures a.Announce?
    ensures var s' := HubApply(s, a);
      (s'.panicked || (Doomed(s', c) && |s'.hub.ctl.annTodo| == |s.hub.ctl.annTodo| - 1))
  {
    hide Enumerates, HandleApply, DeliverApply, DisconnectHub, DepartHub, ReclaimHub;
  }

  /** However the goroutines interleave, the hub panics before it has taken as many steps
      as there were members to tell; and until then its next step can be the panic. */
  lemma {:induction false} DoomedPanics(s: State, c: Client, acts: seq<Action>)
    requires Doomed(s, c) && Runs(s, acts)
    ensures !Exec(s, acts).panicked ==>
              HubSteps(acts) < |s.hub.ctl.annTodo| && Doomed(Exec(s, acts), c)
              && Enabled(Exec(s, acts), Actor(Announce(c))) && Apply(Exec(s, acts), Actor(Announce(c))).panicked
    decreases |acts|
  {
    if acts != [] {
      DoomedStep(s, c, acts[0]);
      if Apply(s, acts[0]).panicked {
        assert acts[1..] == [] && Exec(s, acts) == Apply(s, acts[0]);
      } else {
        DoomedPanics(Apply(s, acts[0]), c, acts[1..]);
        assert Apply(s, acts[0]).hub.ctl.annTodo == s.hub.ctl.annTodo
            || |Apply(s, acts[0]).hub.ctl.annTodo| == |s.hub.ctl.annTodo| - 1;
      }
    } else {
      assert {c} <= s.hub.ctl.annTodo;
      assert |s.hub.ctl.annTodo| == |s.hub.ctl.annTodo - {c}| + 1;
    }
  }

  /** A run keeps the server safe if and only if the hub takes no join from a client it has
      dropped; otherwise the process has panicked, or the hub is bound to. */
  lemma {:induction false} SafeExactlyWhenPolite(s: State, acts: seq<Action>)
    requires Safe(s) && Runs(s, acts)
    ensures Polite(s, acts) <==> Safe(Exec(s, acts))
    ensures !Polite(s, acts) ==>
              Exec(s, acts).panicked || exists c | c in Exec(s, acts).hub.ctl.annTodo :: Doomed(Exec(s, acts), c)
    decreases |acts|
  {
    hide Safe;
    if acts != [] {
      var s' := Apply(s, acts[0]);
      if Courteous(s, acts[0]) {
        StepSafe(s, acts[0]);
        SafeExactlyWhenPolite(s', acts[1..]);
      } else {
        var h := acts[0].h;
        DroppedJoinDooms(s, h.c, h.at, h.order);
        DoomedPanics(s', h.c, acts[1..]);
        DoomedIsUnsafe(Exec(s, acts), h.c);
      }
    }
  }

  lemma DoomedIsUnsafe(s: State, c: Client)
    requires s.panicked || Doomed(s, c)
    ensures !Safe(s)
  {
    assert c in s.hub.clients ==> !OpenTo(s, c) || s.panicked;
  }

  // ---------------------------------------------------------------------------
  // A run that panics
  // ---------------------------------------------------------------------------

  /** From every safe state of a running server, whatever else is going on and whatever the
      channels' depths, two newcomers can bring the process down: `a` enters a room and asks
      to join another; before the hub takes that join, `b` talks until `a` is dropped. */
  lemma CanPanic(s: State, a: Client, b: Client, x: string, y: string) returns (acts: seq<Action>)
    requires Safe(s) && Ordered(s) && !s.hub.stopped && !s.cancelled
    requires a != b && a !in s.conns && b !in s.conns && x != "" && y != ""
    ensures Runs(s, acts) && Exec(s, acts).panicked && Cancel !in acts
  {
    hide Safe, Ordered;
    var t, more;
    Start(s);
    acts, t, more := Settle(s, [], s);
    acts, t := Meet(s, acts, t, a, b, x);
    acts, t := AskToJoin(s, acts, t, a, y);
    acts, t := Pester(s, acts, t, a, b, x, Submitting(Join(y)));
    var order := Enumerate(Members(t.hub, y) + {a});
    var join := Actor(Handle(a, 1, order));
    NotPanicked(t);
    Step(s, acts, t, join);
    DroppedJoinDooms(t, a, 1, order);
    DoomedPanics(Apply(t, join), a, []);
    acts := acts + [join];
    Step(s, acts, Apply(t, join), Actor(Announce(a)));
    acts := acts + [Actor(Announce(a))];
  }

  lemma PanicFromStart(cfg: Config, a: Client, b: Client, x: string, y: string) returns (acts: seq<Action>)
    requires a != b && x != "" && y != ""
    ensures Runs(Init(cfg), acts) && Exec(Init(cfg), acts).panicked && Cancel !in acts
  {
    InitSafe(cfg);
    acts := CanPanic(Init(cfg), a, b, x, y);
  }

  /** From every safe state of a running server with a store and a positive limit, whatever
      else is going on, a read pump can come to find its channel closed: `a` enters a room and
      asks for another, whose history query fails; before the reply is sent, `b` talks until
      `a` is dropped. The pump panics, and the server is as safe as before. */
  lemma CanUnwind(s: State, a: Client, b: Client, x: string, y: string) returns (acts: seq<Action>)
    requires Safe(s) && Ordered(s) && !s.hub.stopped && !s.cancelled && s.cfg.hasStore && s.cfg.historyLimit > 0
    requires a != b && a !in s.conns && b !in s.conns && x != "" && y != ""
    ensures Runs(s, acts) && Cancel !in acts && Safe(Exec(s, acts))
    ensures a in Exec(s, acts).conns && Exec(s, acts).conns[a].unwound
  {
    hide Safe, Ordered;
    var t, more;
    Start(s);
    acts, t, more := Settle(s, [], s);
    acts, t := Meet(s, acts, t, a, b, x);
    acts, t := AskForHistory(s, acts, t, a, y);
    acts, t := Pester(s, acts, t, a, b, x, Answering(y, Failed));
    NotPanicked(t);
    DroppedIsClosed(t, a);
    Step(s, acts, t, Pump(a, Answer));
    CalmStep(t, Pump(a, Answer));
    acts := acts + [Pump(a, Answer)];
  }

  lemma DroppedIsClosed(t: State, c: Client)
    requires Safe(t) && Idle(t.hub.ctl) && !t.hub.stopped && c in t.conns && c !in t.hub.clients
    requires !t.conns[c].reader.Fresh?
    ensures t.conns[c].closed
  {
  }

  /** Exactly then: without a store, or with no positive limit, no pump ever unwinds. */
  lemma UnwindsOnlyWithHistory(cfg: Config, acts: seq<Action>, c: Client)
    requires Runs(Init(cfg), acts) && c in Exec(Init(cfg), acts).conns
    requires !cfg.hasStore || cfg.historyLimit <= 0
    ensures !Exec(Init(cfg), acts).conns[c].unwound
  {
    NothingToReply(Init(cfg), acts);
  }

  /** Every history query has come back empty. */
  ghost predicate NoReplies(s: State) {
    forall c | c in s.conns :: !s.conns[c].unwound && (s.conns[c].reader.Answering? ==> Reply(s.conns[c]).None?)
  }

  lemma {:induction false} NothingToReply(s: State, acts: seq<Action>)
    requires Runs(s, acts) && NoReplies(s) && (!s.cfg.hasStore || s.cfg.historyLimit <= 0)
    ensures NoReplies(Exec(s, acts))
    decreases |acts|
  {
    hide NoReplies;
    if acts != [] {
      NothingToReplyStep(s, acts[0]);
      NothingToReply(Apply(s, acts[0]), acts[1..]);
    }
  }

  lemma NothingToReplyStep(s: State, a: Action)
    requires Enabled(s, a) && NoReplies(s) && (!s.cfg.hasStore || s.cfg.historyLimit <= 0)
    ensures NoReplies(Apply(s, a)) && Apply(s, a).cfg == s.cfg
  {
    hide HubEnabled, HubApply, NoReplies, PumpEnabled, PumpApply;
    match a {
      case Actor(h) => HubRepliesNothing(s, h);
      case Pump(c, p) => PumpRepliesNothing(s, c, p);
      case _ => SameReplies(s, Apply(s, a));
    }
  }

  lemma SameReplies(s: State, s': State)
    requires NoReplies(s) && s'.conns == s.conns
    ensures NoReplies(s')
  {
  }

  lemma PumpRepliesNothing(s: State, c: Client, p: PumpAction)
    requires PumpEnabled(s, c, p) && NoReplies(s) && (!s.cfg.hasStore || s.cfg.historyLimit <= 0)
    ensures NoReplies(PumpApply(s, c, p)) && PumpApply(s, c, p).cfg == s.cfg
  {
  }

  lemma HubRepliesNothing(s: State, a: HubAction)
    requires HubEnabled(s, a) && NoReplies(s)
    ensures NoReplies(HubApply(s, a)) && HubApply(s, a).cfg == s.cfg
  {
    hide HubEnabled, HubApply;
    NobodyArrives(s, a);
    if a.Handle? { HandleIsLocal(s, a); } else { OthersLeave(s, a); }
    forall c | c in s.conns
      ensures var k := HubApply(s, a).conns[c]; !k.unwound && (k.reader.Answering? ==> Reply(k).None?)
    {
      HubMoves(s, a, c);
    }
  }

  lemma HandleIsLocal(s: State, a: HubAction)
    requires HubEnabled(s, a) && a.Handle?
    ensures HubApply(s, a).cfg == s.cfg
  {
    hide HandleApply;
    HandleLeaves(s, a.c, a.at, a.order);
  }

  /** Two newcomers enter the same room. */
  lemma Meet(s: State, before: seq<Action>, t: State, a: Client, b: Client, room: string)
    returns (acts: seq<Action>, u: State)
    requires Leads(s, before, t) && Calm(t) && a != b && a !in t.conns && b !in t.conns && room != ""
    ensures Leads(s, acts, u) && Calm(u) && Listening(u, a) && Listening(u, b)
    ensures room in u.hub.rooms && {a, b} <= u.hub.rooms[room] && u.cfg == t.cfg
  {
    hide Leads, Safe, Ordered;
    acts, u := Arrive(s, before, t, a);
    acts, u := AskToJoin(s, acts, u, a, room);
    acts, u := Enter(s, acts, u, a, room);
    acts, u := Arrive(s, acts, u, b);
    StillOpen(u, a);
    acts, u := AskToJoin(s, acts, u, b, room);
    acts, u := Enter(s, acts, u, b, room);
    StillOpen(u, a);
  }

  /** `b` talks in a room until `a`, whose read pump waits for the hub or for its history and
      whose write pump does nothing, has been dropped. Every message but the last fills one slot more. */
  lemma Pester(s: State, before: seq<Action>, t: State, a: Client, b: Client, room: string, r: Reader)
    returns (acts: seq<Action>, u: State)
    requires Leads(s, before, t) && Calm(t) && a != b && room != ""
    requires room in t.hub.rooms && {a, b} <= t.hub.rooms[room]
    requires Holds(t, a, r) && Listening(t, b)
    ensures Leads(s, acts, u) && Calm(u) && u.cfg == t.cfg
    ensures a in u.conns && a !in u.hub.clients && u.conns[a].reader == r
    decreases if |Messages(t.conns[a].buf)| <= a.depth then a.depth - |Messages(t.conns[a].buf)| + 1 else 0
  {
    hide Leads, Safe, Ordered, Messages;
    var full := |t.conns[a].buf| >= a.depth;
    acts, u := SayOnce(s, before, t, a, b, room, r);
    if !full {
      acts, u := Pester(s, acts, u, a, b, room, r);
    }
  }

  lemma SayOnce(s: State, before: seq<Action>, t: State, a: Client, b: Client, room: string, r: Reader)
    returns (acts: seq<Action>, u: State)
    requires Leads(s, before, t) && Calm(t) && a != b && room != ""
    requires room in t.hub.rooms && {a, b} <= t.hub.rooms[room]
    requires Holds(t, a, r) && Listening(t, b)
    ensures Leads(s, acts, u) && Calm(u) && u.cfg == t.cfg && a in u.conns && u.conns[a].reader == r
    ensures if |t.conns[a].buf| >= a.depth then a !in u.hub.clients
            else
              && Holds(u, a, r) && Listening(u, b) && room in u.hub.rooms && {a, b} <= u.hub.rooms[room]
              && |Messages(u.conns[a].buf)| == |Messages(t.conns[a].buf)| + 1
  {
    hide Leads, Safe, Ordered, Messages, Apply, Enabled, Got;
    var mid, after, more;
    acts, mid := AskToSay(s, before, t, b, room);
    acts, after := Accept(s, acts, mid, b, room);
    acts, u, more := Settle(s, acts, after);
    BroadcastAlone(mid, b, 1, more);
  }

  // ---------------------------------------------------------------------------
  // A dropped client's own reply
  // ---------------------------------------------------------------------------

  /** The read pump of a dropped client unwinds when, and only when, it answers a join with
      a frame. Its connection loses the frame and the join; the hub, the persister and all
      other connections stay as they are. */
  lemma UnwindsAlone(s: State, a: Action, c: Client)
    requires Enabled(s, a) && c in s.conns && !s.conns[c].unwound
    ensures c in Apply(s, a).conns
    ensures Apply(s, a).conns[c].unwound
        <==> a == Pump(c, Answer) && s.conns[c].closed && Reply(s.conns[c]).Some?
    ensures Apply(s, a).conns[c].unwound ==>
              Apply(s, a) == s.(conns := s.conns[c := s.conns[c].(reader := Unregistering, unwound := true)])
  {
    hide HubEnabled, HubApply;
    if a.Actor? { HubMoves(s, a.h, c); }
  }

  /** Nothing comes of an unwound read pump but its `Unregister`: on every continuation the
      hub takes no command from it, and it reads and answers nothing. */
  lemma {:induction false} UnwoundIsOver(s: State, c: Client, acts: seq<Action>)
    requires Runs(s, acts) && c in s.conns && (s.conns[c].reader.Unregistering? || s.conns[c].reader.Gone?)
    ensures var k := s.conns[c]; var s' := Exec(s, acts);
      && c in s'.conns && (s'.conns[c].reader.Unregistering? || s'.conns[c].reader.Gone?)
      && s'.conns[c].joins == k.joins && s'.conns[c].said == k.said
    ensures forall at, order :: Actor(Handle(c, at, order)) !in acts
    decreases |acts|
  {
    if acts != [] {
      OverStep(s, c, acts[0]);
      UnwoundIsOver(Apply(s, acts[0]), c, acts[1..]);
    }
  }

  lemma OverStep(s: State, c: Client, a: Action)
    requires Enabled(s, a) && c in s.conns && (s.conns[c].reader.Unregistering? || s.conns[c].reader.Gone?)
    ensures var k := s.conns[c]; var s' := Apply(s, a);
      && c in s'.conns && (s'.conns[c].reader.Unregistering? || s'.conns[c].reader.Gone?)
      && s'.conns[c].joins == k.joins && s'.conns[c].said == k.said
    ensures forall at, order :: a != Actor(Handle(c, at, order))
  {
    hide HubEnabled, HubApply;
    if a.Actor? { HubMoves(s, a.h, c); }
  }
}

/** Runs built step by step, from any state in which the server is running: newcomers connect,
    join and talk. Every step in them is one the program can take. */
module Scenarios {
  import opened Protocol
  import opened Clients
  import opened Machine
  import opened Safety
  import opened Progress
  import opened Ordering

  /** Between events, before shutdown. */
  ghost predicate Calm(s: State) {
    Safe(s) && Ordered(s) && Idle(s.hub.ctl) && !s.hub.stopped && !s.cancelled
  }

  /** The run so far, and where it has led. */
  ghost predicate Leads(s: State, acts: seq<Action>, t: State) {
    Runs(s, acts) && Exec(s, acts) == t && Cancel !in acts
  }

  lemma Start(s: State)
    ensures Leads(s, [], s)
  {
  }

  lemma Step(s: State, acts: seq<Action>, t: State, a: Action)
    requires Leads(s, acts, t) && Enabled(t, a) && a != Cancel
    ensures Leads(s, acts + [a], Apply(t, a))
  {
    Then(s, acts, a);
  }

  lemma Steps(s: State, acts: seq<Action>, t: State, more: seq<Action>)
    requires Leads(s, acts, t) && Runs(t, more) && Cancel !in more
    ensures Leads(s, acts + more, Exec(t, more))
  {
    ExecConcat(s, acts, more);
  }

  lemma CalmStep(t: State, a: Action)
    requires Safe(t) && Ordered(t) && Enabled(t, a) && Courteous(t, a)
    ensures Safe(Apply(t, a)) && Ordered(Apply(t, a))
  {
    StepSafe(t, a);
    StepOrdered(t, a);
  }

  /** The hub finishes the event it is in. */
  lemma Settle(s: State, before: seq<Action>, t: State)
    returns (acts: seq<Action>, u: State, more: seq<Action>)
    requires Leads(s, before, t) && Safe(t) && Ordered(t) && !t.hub.stopped && !t.cancelled
    ensures Leads(s, acts, u) && Calm(u) && SameWorld(t, u) && HandsOver(t, u)
    ensures HubOnly(more) && Runs(t, more) && u == Exec(t, more) && SamePumps(t, u)
  {
    more := Finish(t);
    AloneSamePumps(t, more);
    u := Exec(t, more);
    Steps(s, before, t, more);
    RunOrdered(t, more);
    acts := before + more;
  }

  /** What a history query may always answer: nothing, or a failure. */
  function Answered(cfg: Config): HistoryResult {
    if cfg.hasStore && cfg.historyLimit > 0 then Failed else Loaded([])
  }

  /** A client that is reading, with its connection and channel open. */
  ghost predicate Listening(t: State, c: Client) {
    c in t.conns && c in t.hub.clients && t.conns[c].reader.Reading? && t.conns[c].open && !t.conns[c].closed
  }

  /** A client whose read pump is at `r`, with its connection and channel open. */
  ghost predicate Holds(t: State, c: Client, r: Reader) {
    c in t.conns && c in t.hub.clients && t.conns[c].reader == r && t.conns[c].open && !t.conns[c].closed
  }

  ghost predicate Offers(t: State, c: Client, cmd: Command) { Holds(t, c, Submitting(cmd)) }

  /** All but connection `c`. */
  ghost predicate OnlyConn(t: State, u: State, c: Client) {
    u == t.(conns := u.conns, hub := t.hub.(clients := u.hub.clients)) && c in u.conns
    && u.conns == t.conns[c := u.conns[c]] && u.hub.clients == t.hub.clients + {c}
  }

  /** A newcomer connects and registers. */
  lemma Arrive(s: State, before: seq<Action>, t: State, c: Client) returns (acts: seq<Action>, u: State)
    requires Leads(s, before, t) && Calm(t) && c !in t.conns
    ensures Leads(s, acts, u) && Calm(u) && OnlyConn(t, u, c) && Listening(u, c)
  {
    hide Leads, Safe, Ordered;
    var a, b := Pump(c, Connect), Actor(HubAction.Register(c));
    NotPanicked(t);
    Step(s, before, t, a);
    CalmStep(t, a);
    var mid := Apply(t, a);
    Step(s, before + [a], mid, b);
    CalmStep(mid, b);
    acts, u := before + [a] + [b], Apply(mid, b);
  }

  /** A client reads a request to join, and its read pump offers the join to the hub. */
  lemma AskToJoin(s: State, before: seq<Action>, t: State, c: Client, room: string)
    returns (acts: seq<Action>, u: State)
    requires Leads(s, before, t) && Calm(t) && Listening(t, c) && room != ""
    ensures Leads(s, acts, u) && Calm(u) && OnlyConn(t, u, c) && Offers(u, c, Join(room))
  {
    hide Leads, Safe, Ordered;
    var a, b := Pump(c, ReadJoin(room, Answered(t.cfg))), Pump(c, Answer);
    NotPanicked(t);
    Step(s, before, t, a);
    CalmStep(t, a);
    var mid := Apply(t, a);
    NotPanicked(mid);
    Step(s, before + [a], mid, b);
    CalmStep(mid, b);
    acts, u := before + [a] + [b], Apply(mid, b);
  }

  /** A client reads a request to join, and the history query fails. */
  lemma AskForHistory(s: State, before: seq<Action>, t: State, c: Client, room: string)
    returns (acts: seq<Action>, u: State)
    requires Leads(s, before, t) && Calm(t) && Listening(t, c) && room != ""
    requires t.cfg.hasStore && t.cfg.historyLimit > 0
    ensures Leads(s, acts, u) && Calm(u) && OnlyConn(t, u, c) && Holds(u, c, Answering(room, Failed))
  {
    hide Leads, Safe, Ordered;
    var a := Pump(c, ReadJoin(room, Failed));
    NotPanicked(t);
    Step(s, before, t, a);
    CalmStep(t, a);
    acts, u := before + [a], Apply(t, a);
  }

  /** The pumps are where they were. */
  ghost predicate SamePumps(t: State, u: State) {
    && u.conns.Keys == t.conns.Keys
    && forall d | d in t.conns :: u.conns[d].reader == t.conns[d].reader && u.conns[d].open == t.conns[d].open
  }

  lemma {:induction false} AloneSamePumps(t: State, acts: seq<Action>)
    requires HubOnly(acts) && Runs(t, acts)
    ensures SamePumps(t, Exec(t, acts))
    decreases |acts|
  {
    if acts != [] {
      WorkSamePumps(t, acts[0].h);
      AloneSamePumps(Apply(t, acts[0]), acts[1..]);
    }
  }

  lemma WorkSamePumps(t: State, a: HubAction)
    requires HubEnabled(t, a) && Work(a)
    ensures SamePumps(t, HubApply(t, a))
  {
    hide HubEnabled, HubApply;
    forall d | d in t.conns
      ensures d in HubApply(t, a).conns
      ensures HubApply(t, a).conns[d].reader == t.conns[d].reader && HubApply(t, a).conns[d].open == t.conns[d].open
    {
      HubMoves(t, a, d);
    }
    NobodyArrives(t, a);
  }

  /** A client enters a room: everybody in it, the newcomer included, is told. */
  lemma Enter(s: State, before: seq<Action>, t: State, c: Client, room: string)
    returns (acts: seq<Action>, u: State)
    requires Leads(s, before, t) && Calm(t) && Offers(t, c, Join(room))
    ensures Leads(s, acts, u) && Calm(u) && Listening(u, c)
    ensures u.hub.rooms == t.hub.rooms[room := Members(t.hub, room) + {c}]
    ensures u.cfg == t.cfg && u.cold == t.cold && u.log == t.log && u.hub.clients == t.hub.clients
    ensures u.conns.Keys == t.conns.Keys
    ensures forall d | d in t.conns && d != c ::
              u.conns[d].reader == t.conns[d].reader && u.conns[d].open == t.conns[d].open
  {
    hide Leads, Safe, Ordered, Enumerates;
    NotPanicked(t);
    var order := Enumerate(Members(t.hub, room) + {c});
    var a := Actor(Handle(c, 1, order));
    Step(s, before, t, a);
    CalmStep(t, a);
    acts, u := TellAll(s, before + [a], Apply(t, a));
    StillOpen(u, c);
  }

  lemma StillOpen(t: State, c: Client)
    requires Safe(t) && c in t.hub.clients
    ensures c in t.conns && !t.conns[c].closed
  {
    assert OpenTo(t, c);
  }

  /** Only an announcement is left of the event. */
  ghost predicate OnlyTelling(k: Ctl) {
    Idle(k.(annTodo := {}))
  }

  lemma TellAll(s: State, before: seq<Action>, t: State) returns (acts: seq<Action>, u: State)
    requires Leads(s, before, t) && Safe(t) && Ordered(t) && !t.hub.stopped && !t.cancelled && OnlyTelling(t.hub.ctl)
    ensures Leads(s, acts, u) && Calm(u) && SamePumps(t, u)
    ensures u.hub.rooms == t.hub.rooms && u.hub.clients == t.hub.clients
    ensures u.cfg == t.cfg && u.cold == t.cold && u.log == t.log
    decreases t.hub.ctl.annTodo
  {
    hide Leads, Safe, Ordered;
    acts, u := before, t;
    if t.hub.ctl.annTodo != {} {
      var c :| c in t.hub.ctl.annTodo;
      TellOne(t, c);
      var a := Actor(Announce(c));
      Step(s, before, t, a);
      CalmStep(t, a);
      acts, u := TellAll(s, before + [a], Apply(t, a));
    }
  }

  lemma TellOne(t: State, c: Client)
    requires Safe(t) && !t.hub.stopped && OnlyTelling(t.hub.ctl) && c in t.hub.ctl.annTodo
    ensures var a := Actor(Announce(c)); Enabled(t, a) && Courteous(t, a)
    ensures var u := Apply(t, Actor(Announce(c)));
      && OnlyTelling(u.hub.ctl) && u.hub.ctl.annTodo == t.hub.ctl.annTodo - {c} && SamePumps(t, u)
      && u.hub.rooms == t.hub.rooms && u.hub.clients == t.hub.clients && !u.hub.stopped && !u.cancelled == !t.cancelled
      && u.cfg == t.cfg && u.cold == t.cold && u.log == t.log
  {
    assert OpenTo(t, c);
  }

  /** A client reads a message, and its read pump offers it to the hub. */
  lemma AskToSay(s: State, before: seq<Action>, t: State, c: Client, room: string)
    returns (acts: seq<Action>, u: State)
    requires Leads(s, before, t) && Calm(t) && Listening(t, c) && room != ""
    ensures Leads(s, acts, u) && Calm(u) && OnlyConn(t, u, c) && Offers(u, c, Say(room, "hi", t.conns[c].said))
  {
    hide Leads, Safe, Ordered;
    var a := Pump(c, ReadSay(room, "hi"));
    NotPanicked(t);
    Step(s, before, t, a);
    CalmStep(t, a);
    acts, u := before + [a], Apply(t, a);
  }

  /** The hub accepts a message for a room that exists, and is about to deliver it. */
  lemma Accept(s: State, before: seq<Action>, t: State, c: Client, room: string)
    returns (acts: seq<Action>, u: State)
    requires Leads(s, before, t) && Calm(t) && room in t.hub.rooms
    requires c in t.conns && t.conns[c].reader.Submitting?
    requires t.conns[c].reader.cmd.Say? && t.conns[c].reader.cmd.room == room
    ensures Enabled(t, Actor(Handle(c, 1, []))) && u == Apply(t, Actor(Handle(c, 1, [])))
    ensures Leads(s, acts, u) && Safe(u) && Ordered(u) && !u.hub.stopped && !u.cancelled
    ensures u.conns == t.conns[c := t.conns[c].(reader := Reading)]
    ensures u.cold == t.cold && u.cfg == t.cfg && |u.log| == |t.log| + 1 && t.log <= u.log
    ensures u.hub.ctl.handoff == Some(u.log[|t.log|].m)
  {
    hide Leads, Safe, Ordered;
    NotPanicked(t);
    var a := Actor(Handle(c, 1, []));
    Step(s, before, t, a);
    CalmStep(t, a);
    acts, u := before + [a], Apply(t, a);
  }
}

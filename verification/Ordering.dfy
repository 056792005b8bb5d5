/** One total order: on every run, whatever the interleaving, each connection's stream of
    messages follows the order in which the hub accepted them. */
module Ordering {
  import opened Protocol
  import opened Clients
  import opened Machine

  function Got(k: Conn): seq<Message> { Messages(Stream(k)) }

  /** The log numbers and stamps its messages, and lists each sender's in the order they were read. */
  ghost predicate LogOk(log: seq<Entry>) {
    && (forall i | 0 <= i < |log| ::
          log[i].m.no == i && log[i].m.senderId == log[i].sender.id && log[i].m.at != NO_TIME)
    && (forall i, j | 0 <= i < j < |log| :: log[i].sender == log[j].sender ==> log[i].k < log[j].k)
  }

  /** `c` may still submit only messages read after those it has in the log. */
  ghost predicate SubmitsNext(log: seq<Entry>, c: Client, k: Conn) {
    && (forall i | 0 <= i < |log| :: log[i].sender == c ==> log[i].k < k.said)
    && (k.reader.Submitting? && k.reader.cmd.Say? ==>
          k.reader.cmd.k < k.said && forall i | 0 <= i < |log| :: log[i].sender == c ==> log[i].k < k.reader.cmd.k)
  }

  /** Messages below position `n` only, in log order, each as it was accepted. */
  ghost predicate InOrder(ms: seq<Message>, log: seq<Entry>, n: nat)
    requires n <= |log|
  {
    Increasing(ms) && forall i | 0 <= i < |ms| :: 0 <= ms[i].no < n && ms[i] == log[ms[i].no].m
  }

  /** What connection `c` has been given; a `pending` one has yet to be given the
      message in delivery, which is the last of the log. */
  ghost predicate ConnOk(log: seq<Entry>, pending: bool, c: Client, k: Conn) {
    && (pending ==> log != [])
    && InOrder(Got(k), log, if pending then |log| - 1 else |log|)
    && SubmitsNext(log, c, k)
  }

  ghost predicate ConnsOk(s: State) {
    forall c | c in s.conns :: ConnOk(s.log, c in s.hub.ctl.deliver, c, s.conns[c])
  }

  /** The hub deals with clients that have connected only. */
  ghost predicate Known(s: State) {
    s.hub.ctl.deliver <= s.conns.Keys && forall n | n in s.hub.rooms :: s.hub.rooms[n] <= s.conns.Keys
  }

  /** The message in hand is the last one accepted. */
  ghost predicate HandoffOk(s: State) {
    s.hub.ctl.handoff.Some? ==> s.log != [] && s.hub.ctl.handoff.value == s.log[|s.log| - 1].m
  }

  ghost predicate Ordered(s: State) {
    && LogOk(s.log)
    && (forall i | 0 <= i < |s.log| :: s.log[i].sender in s.conns)
    && HandoffOk(s)
    && (s.hub.ctl.handoff.None? ==> s.hub.ctl.deliver == {})
    && (s.hub.ctl.ann.Presence? || s.hub.ctl.ann.Error?)
    && Known(s)
    && ConnsOk(s)
  }

  // ---------------------------------------------------------------------------

  lemma StepKnown(s: State, a: Action)
    requires Known(s) && Enabled(s, a)
    ensures Known(Apply(s, a))
  {
    if a.Actor? { HubKnown(s, a.h); }
  }

  lemma HubKnown(s: State, a: HubAction)
    requires Known(s) && HubEnabled(s, a)
    ensures Known(HubApply(s, a))
  {
    hide HandleApply, AnnounceApply, DeliverApply, DepartHub, ReclaimHub, Enumerates, Names;
    NobodyArrives(s, a);
    match a {
      case Handle(c, at, order) => HandleKnown(s, c, at, order);
      case Depart(room, order) => DepartKnown(s.hub, room, order);
      case Reclaim => ReclaimKnown(s.hub);
      case Announce(c) => SendKnown(s, c);
      case Deliver(c) => SendKnown(s, c);
      case _ =>
    }
  }

  lemma HandleKnown(s: State, c: Client, at: int, order: seq<Client>)
    requires Known(s) && c in s.conns && s.conns[c].reader.Submitting?
    ensures Known(HandleApply(s, c, at, order))
  {
  }

  ghost predicate FewerIn(h: HubState, h': HubState) {
    && h'.ctl.deliver <= h.ctl.deliver
    && forall n | n in h'.rooms :: n in h.rooms && h'.rooms[n] <= h.rooms[n]
  }

  lemma DepartKnown(h: HubState, room: string, order: seq<Client>)
    requires h.ctl.leaving.Some? && room in h.rooms
    ensures FewerIn(h, DepartHub(h, room, order))
  {
  }

  lemma ReclaimKnown(h: HubState)
    requires h.ctl.reclaim.Some?
    ensures FewerIn(h, ReclaimHub(h))
  {
  }

  lemma SendKnown(s: State, c: Client)
    requires c in s.conns
    ensures FewerIn(s.hub, AnnounceApply(s, c).hub)
    ensures s.hub.ctl.handoff.Some? ==> FewerIn(s.hub, DeliverApply(s, c).hub)
  {
  }

  lemma PushGot(c: Client, k: Conn, f: Frame)
    ensures Got(Push(c, k, f)) == if f.Live? && |k.buf| < c.depth then Got(k) + [f.m] else Got(k)
  {
    if |k.buf| < c.depth {
      assert k.taken + (k.buf + [f]) == (k.taken + k.buf) + [f];
      MessagesAppend(Stream(k), f);
    }
  }

  lemma PumpGot(c: Client, k: Conn, p: PumpAction)
    ensures Got(PumpConn(c, k, p)) == Got(k)
  {
    match p {
      case Answer => if k.reader.Answering? && Reply(k).Some? { PushGot(c, k, Reply(k).value); }
      case Take => if k.buf != [] { assert (k.taken + [k.buf[0]]) + k.buf[1..] == k.taken + k.buf; }
      case _ =>
    }
  }


  /** One step of a connection's own goroutines. */
  lemma PumpConnOk(log: seq<Entry>, pending: bool, c: Client, k: Conn, p: PumpAction)
    requires ConnOk(log, pending, c, k)
    ensures ConnOk(log, pending, c, PumpConn(c, k, p))
  {
    PumpGot(c, k, p);
  }

  lemma PumpOrdered(s: State, c: Client, p: PumpAction)
    requires Ordered(s) && Enabled(s, Pump(c, p))
    ensures Ordered(Apply(s, Pump(c, p)))
  {
    hide ConnOk, LogOk;
    StepKnown(s, Pump(c, p));
    if p.Connect? { FreshOk(s, c); } else { PumpConnOk(s.log, c in s.hub.ctl.deliver, c, s.conns[c], p); }
  }

  lemma FreshOk(s: State, c: Client)
    requires Ordered(s) && c !in s.conns
    ensures ConnOk(s.log, false, c, NewConn())
  {
  }

  /** A connection that submits nothing newer is untouched by one more log entry. */
  lemma LogGrows(log: seq<Entry>, e: Entry, c: Client, k: Conn, pending: bool)
    requires ConnOk(log, false, c, k)
    requires e.sender == c ==> e.k < k.said && !k.reader.Submitting?
    ensures ConnOk(log + [e], pending, c, k)
  {
    var ms := Got(k);
    assert forall i | 0 <= i < |ms| :: log[ms[i].no] == (log + [e])[ms[i].no];
  }

  /** Taking the offered command leaves the pump reading, with nothing more to submit. */
  lemma HandledConn(log: seq<Entry>, c: Client, k: Conn, k': Conn)
    requires ConnOk(log, false, c, k) && k.reader.Submitting?
    requires k' == k.(reader := Reading, joins := k'.joins)
    ensures ConnOk(log, false, c, k')
    ensures k.reader.cmd.Say? ==>
              && k.reader.cmd.k < k.said
              && forall i | 0 <= i < |log| :: log[i].sender == c ==> log[i].k < k.reader.cmd.k
  {
    assert Stream(k') == Stream(k);
  }

  lemma HandleOrdered(s: State, c: Client, at: int, order: seq<Client>)
    requires Ordered(s) && Enabled(s, Actor(Handle(c, at, order)))
    ensures Ordered(HandleApply(s, c, at, order))
  {
    hide ConnOk, Known, HandleApply, HubEnabled;
    StepKnown(s, Actor(Handle(c, at, order)));
    Accepts(s, c, at, order);
    HandleLeaves(s, c, at, order);
    HandleAnnounces(s, c, at, order);
    var s' := HandleApply(s, c, at, order);
    HandledConn(s.log, c, s.conns[c], s'.conns[c]);
    if s'.log != s.log {
      var e := s'.log[|s.log|];
      forall d | d in s'.conns ensures ConnOk(s'.log, d in s'.hub.ctl.deliver, d, s'.conns[d]) {
        LogGrows(s.log, e, d, s'.conns[d], d in s'.hub.ctl.deliver);
      }
    }
  }

  lemma HandleAnnounces(s: State, c: Client, at: int, order: seq<Client>)
    requires c in s.conns && s.conns[c].reader.Submitting? && (s.hub.ctl.ann.Presence? || s.hub.ctl.ann.Error?)
    ensures var ann := HandleApply(s, c, at, order).hub.ctl.ann; ann.Presence? || ann.Error?
  {
  }

  lemma GivenNext(log: seq<Entry>, c: Client, k: Conn)
    requires LogOk(log) && ConnOk(log, true, c, k)
    ensures ConnOk(log, false, c, k)
    ensures ConnOk(log, false, c, k.(overflow := true))
    ensures ConnOk(log, false, c, Push(c, k, Live(log[|log| - 1].m)))
  {
    hide LogOk, SubmitsNext, InOrder, Got;
    PushGot(c, k, Live(log[|log| - 1].m));
    LastInOrder(Got(k), log);
    FlagKeeps(log, c, k);
  }

  lemma LastInOrder(ms: seq<Message>, log: seq<Entry>)
    requires LogOk(log) && log != [] && InOrder(ms, log, |log| - 1)
    ensures InOrder(ms + [log[|log| - 1].m], log, |log|) && InOrder(ms, log, |log|)
  {
  }

  lemma FlagKeeps(log: seq<Entry>, c: Client, k: Conn)
    requires SubmitsNext(log, c, k)
    ensures Got(k.(overflow := true)) == Got(k) && SubmitsNext(log, c, k.(overflow := true))
    ensures forall f :: SubmitsNext(log, c, Push(c, k, f))
  {
  }

  lemma DeliverOrdered(s: State, c: Client)
    requires Ordered(s) && Enabled(s, Actor(Deliver(c)))
    ensures Ordered(DeliverApply(s, c))
  {
    hide ConnOk, LogOk, Known;
    StepKnown(s, Actor(Deliver(c)));
    GivenNext(s.log, c, s.conns[c]);
  }

  lemma ToldConn(log: seq<Entry>, pending: bool, c: Client, k: Conn, f: Frame)
    requires ConnOk(log, pending, c, k) && !f.Live?
    ensures ConnOk(log, pending, c, Push(c, k, f))
  {
    PushGot(c, k, f);
  }

  lemma AnnounceOrdered(s: State, c: Client)
    requires Ordered(s) && Enabled(s, Actor(Announce(c)))
    ensures Ordered(AnnounceApply(s, c))
  {
    hide ConnOk, LogOk, Known;
    StepKnown(s, Actor(Announce(c)));
    ToldConn(s.log, c in s.hub.ctl.deliver, c, s.conns[c], s.hub.ctl.ann);
  }

  lemma OtherOrdered(s: State, a: HubAction)
    requires Ordered(s) && HubEnabled(s, a) && !a.Handle? && !a.Deliver? && !a.Announce? && Enabled(s, Actor(a))
    ensures Ordered(HubApply(s, a))
  {
    hide ConnOk, LogOk, Known, HubApply, HubEnabled;
    StepKnown(s, Actor(a));
    QuietStep(s, a);
    var s' := HubApply(s, a);
    forall d | d in s'.conns ensures ConnOk(s'.log, d in s'.hub.ctl.deliver, d, s'.conns[d]) {
      SameGot(s.log, d in s.hub.ctl.deliver, d, s.conns[d], s'.conns[d]);
    }
  }

  lemma SameGot(log: seq<Entry>, pending: bool, c: Client, k: Conn, k': Conn)
    requires ConnOk(log, pending, c, k) && Stream(k') == Stream(k) && k'.said == k.said
    requires k'.reader.Submitting? ==> k'.reader == k.reader
    ensures ConnOk(log, pending, c, k')
  {
  }

  lemma StepOrdered(s: State, a: Action)
    requires Ordered(s) && Enabled(s, a)
    ensures Ordered(Apply(s, a))
  {
    hide Ordered;
    match a {
      case Pump(c, p) => PumpOrdered(s, c, p);
      case Actor(h) =>
        if h.Handle? { HandleOrdered(s, h.c, h.at, h.order); }
        else if h.Deliver? { DeliverOrdered(s, h.c); }
        else if h.Announce? { AnnounceOrdered(s, h.c); }
        else { OtherOrdered(s, h); }
      case _ => OrderedKept(s, Apply(s, a));
    }
  }

  lemma OrderedKept(s: State, s': State)
    requires Ordered(s) && s'.hub == s.hub && s'.conns == s.conns && s'.log == s.log
    ensures Ordered(s')
  {
    hide ConnOk, LogOk;
    assert Known(s');
  }

  lemma {:induction false} RunOrdered(s: State, acts: seq<Action>)
    requires Ordered(s) && Runs(s, acts)
    ensures Ordered(Exec(s, acts))
    decreases |acts|
  {
    if acts != [] {
      StepOrdered(s, acts[0]);
      RunOrdered(Apply(s, acts[0]), acts[1..]);
    }
  }

  // ---------------------------------------------------------------------------

  lemma OrderedFromStart(cfg: Config, acts: seq<Action>)
    requires Runs(Init(cfg), acts)
    ensures Ordered(Exec(Init(cfg), acts))
  {
    RunOrdered(Init(cfg), acts);
  }

  /** Messages delivered to both of two connections arrive in the same relative order,
      and messages of one sender arrive in the order its read pump read them. */
  lemma TotalOrder(cfg: Config, acts: seq<Action>, c: Client, d: Client, i: nat, j: nat, x: nat, y: nat)
    requires Runs(Init(cfg), acts)
    requires var s := Exec(Init(cfg), acts);
      c in s.conns && d in s.conns
      && i < |Got(s.conns[c])| && j < |Got(s.conns[c])| && x < |Got(s.conns[d])| && y < |Got(s.conns[d])|
      && Got(s.conns[c])[i] == Got(s.conns[d])[x] && Got(s.conns[c])[j] == Got(s.conns[d])[y]
    ensures i < j <==> x < y
    ensures var s := Exec(Init(cfg), acts); var a := Got(s.conns[c])[i]; var b := Got(s.conns[c])[j];
      && 0 <= a.no < |s.log| && 0 <= b.no < |s.log| && s.log[a.no].m == a && s.log[b.no].m == b
      && (s.log[a.no].sender == s.log[b.no].sender ==> (i < j <==> s.log[a.no].k < s.log[b.no].k))
  {
    hide Runs, Exec, SubmitsNext, Known, HandoffOk, LogOk, InOrder;
    OrderedFromStart(cfg, acts);
    var s := Exec(Init(cfg), acts);
    assert ConnOk(s.log, c in s.hub.ctl.deliver, c, s.conns[c]);
    assert ConnOk(s.log, d in s.hub.ctl.deliver, d, s.conns[d]);
    LogDecides(s.log, Got(s.conns[c]), if c in s.hub.ctl.deliver then |s.log| - 1 else |s.log|, i, j);
    LogDecides(s.log, Got(s.conns[d]), if d in s.hub.ctl.deliver then |s.log| - 1 else |s.log|, x, y);
  }

  lemma LogDecides(log: seq<Entry>, ms: seq<Message>, n: nat, i: nat, j: nat)
    requires LogOk(log) && n <= |log| && InOrder(ms, log, n) && i < |ms| && j < |ms|
    ensures i < j <==> ms[i].no < ms[j].no
    ensures var a := ms[i]; var b := ms[j];
      && 0 <= a.no < |log| && 0 <= b.no < |log| && log[a.no].m == a && log[b.no].m == b
      && (log[a.no].sender == log[b.no].sender ==> (i < j <==> log[a.no].k < log[b.no].k))
  {
  }
}

/** History and live messages in one stream: on every run, history sent for a join comes
    before every message accepted after that join, and repeats none of them. */
module Backlog {
  import opened Protocol
  import opened Storage
  import opened Clients
  import opened Machine
  import opened Ordering

  /** Every message below this position has been through the hub's hand-off. */
  function Frontier(s: State): int {
    |s.log| - (if s.hub.ctl.handoff.Some? then 1 else 0)
  }

  ghost predicate ColdBelow(s: State) {
    var n := Frontier(s); var d := s.cold;
    Below(d.queue, n) && Below(d.table, n) && (d.worker.Saving? ==> d.worker.m.no < n)
  }

  /** A history frame, seen against the joins handled so far: it repeats only messages
      handed off before its join was handled. */
  ghost predicate ReplyOk(f: Frame, joins: seq<nat>, n: int) {
    f.History? ==> f.join <= |joins| && Below(f.msgs, n) && (f.join < |joins| ==> Below(f.msgs, joins[f.join]))
  }

  /** A history frame and a live frame behind it, or ahead of it. */
  ghost predicate PairOk(a: Frame, b: Frame, joins: seq<nat>) {
    && (a.History? && b.Live? ==> Below(a.msgs, b.m.no))
    && (a.Live? && b.History? && b.join < |joins| ==> a.m.no < joins[b.join])
  }

  ghost predicate StreamOk(fs: seq<Frame>, joins: seq<nat>, n: int) {
    && (forall i | 0 <= i < |fs| :: ReplyOk(fs[i], joins, n))
    && (forall i, j | 0 <= i < j < |fs| :: PairOk(fs[i], fs[j], joins))
  }

  ghost predicate BacklogOk(k: Conn, n: int) {
    && StreamOk(Stream(k), k.joins, n)
    && (k.reader.Answering? && k.reader.result.Loaded? ==> Below(k.reader.result.msgs, n))
  }

  ghost predicate Replayed(s: State) {
    ColdBelow(s) && forall c | c in s.conns :: BacklogOk(s.conns[c], Frontier(s))
  }

  // ---------------------------------------------------------------------------

  lemma {:induction false} InRoomBelow(table: seq<Message>, room: string, n: int)
    requires Below(table, n)
    ensures Below(InRoom(table, room), n)
  {
    if table != [] { InRoomBelow(table[..|table| - 1], room, n); }
  }

  lemma {:induction false} InsertBelow(m: Message, rows: seq<Message>, n: int)
    requires m.no < n && Below(rows, n)
    ensures Below(InsertNewest(m, rows), n)
    decreases |rows|
  {
    if rows != [] && !Newer(m, rows[0]) { InsertBelow(m, rows[1..], n); }
  }

  lemma {:induction false} SortBelow(rows: seq<Message>, n: int)
    requires Below(rows, n)
    ensures Below(NewestFirst(rows), n)
  {
    if rows != [] {
      SortBelow(rows[..|rows| - 1], n);
      InsertBelow(rows[|rows| - 1], NewestFirst(rows[..|rows| - 1]), n);
    }
  }

  lemma RecentBelow(table: seq<Message>, room: string, limit: nat, n: int)
    requires Below(table, n)
    ensures Below(Recent(table, room, limit), n)
  {
    InRoomBelow(table, room, n);
    SortBelow(InRoom(table, room), n);
  }

  /** Queueing one more frame. */
  lemma PushStream(fs: seq<Frame>, f: Frame, joins: seq<nat>, n: int)
    requires StreamOk(fs, joins, n) && ReplyOk(f, joins, n)
    requires f.History? ==> f.join == |joins|
    requires f.Live? ==> f.m.no >= n
    ensures StreamOk(fs + [f], joins, n)
  {
    forall i, j | 0 <= i < j < |fs + [f]| ensures PairOk((fs + [f])[i], (fs + [f])[j], joins) {
      if j < |fs| { assert PairOk(fs[i], fs[j], joins); } else { assert ReplyOk(fs[i], joins, n); }
    }
    forall i | 0 <= i < |fs + [f]| ensures ReplyOk((fs + [f])[i], joins, n) {
      if i < |fs| { assert ReplyOk(fs[i], joins, n); }
    }
  }

  lemma PushConn(c: Client, k: Conn, f: Frame, n: int)
    requires BacklogOk(k, n) && ReplyOk(f, k.joins, n)
    requires f.History? ==> f.join == |k.joins|
    requires f.Live? ==> f.m.no >= n
    ensures BacklogOk(Push(c, k, f), n)
  {
    PushStream(Stream(k), f, k.joins, n);
    assert k.taken + (k.buf + [f]) == Stream(k) + [f];
  }

  /** The history query answers with messages that are through the hand-off. */
  lemma PumpConnReplayed(s: State, c: Client, p: PumpAction)
    requires ColdBelow(s) && c in s.conns && BacklogOk(s.conns[c], Frontier(s)) && PumpEnabled(s, c, p)
    ensures BacklogOk(PumpConn(c, s.conns[c], p), Frontier(s))
  {
    var k := s.conns[c]; var n := Frontier(s);
    match p {
      case ReadJoin(room, result) =>
        if result.Loaded? && result.msgs != [] { RecentBelow(s.cold.table, room, s.cfg.historyLimit, n); }
      case Answer => if Reply(k).Some? { PushConn(c, k, Reply(k).value, n); }
      case Take => assert (k.taken + [k.buf[0]]) + k.buf[1..] == Stream(k);
      case _ =>
    }
  }

  /** A later frontier is a weaker demand. */
  lemma Later(k: Conn, n: int, n': int)
    requires BacklogOk(k, n) && n <= n'
    ensures BacklogOk(k, n')
  {
    var fs := Stream(k);
    forall i | 0 <= i < |fs| ensures ReplyOk(fs[i], k.joins, n') { assert ReplyOk(fs[i], k.joins, n); }
  }

  /** One more join is handled while every live frame is below the frontier. */
  lemma JoinStream(fs: seq<Frame>, joins: seq<nat>, n: nat)
    requires StreamOk(fs, joins, n) && forall i | 0 <= i < |fs| :: fs[i].Live? ==> fs[i].m.no < n
    ensures StreamOk(fs, joins + [n], n)
  {
    forall i | 0 <= i < |fs| ensures ReplyOk(fs[i], joins + [n], n) { assert ReplyOk(fs[i], joins, n); }
    forall i, j | 0 <= i < j < |fs| ensures PairOk(fs[i], fs[j], joins + [n]) {
      assert PairOk(fs[i], fs[j], joins) && ReplyOk(fs[j], joins, n);
    }
  }

  lemma {:induction false} LiveBelow(fs: seq<Frame>, n: int)
    requires Below(Messages(fs), n)
    ensures forall i | 0 <= i < |fs| :: fs[i].Live? ==> fs[i].m.no < n
  {
    if fs != [] {
      var ms := Messages(fs[..|fs| - 1]);
      assert forall i | 0 <= i < |ms| :: ms[i] == Messages(fs)[i];
      assert fs[|fs| - 1].Live? ==> Messages(fs)[|ms|] == fs[|fs| - 1].m;
      LiveBelow(fs[..|fs| - 1], n);
    }
  }

  lemma JoinConn(s: State, c: Client)
    requires Ordered(s) && c in s.conns && Idle(s.hub.ctl) && BacklogOk(s.conns[c], Frontier(s))
    ensures var k := s.conns[c]; BacklogOk(k.(reader := Reading, joins := k.joins + [|s.log|]), Frontier(s))
  {
    var k := s.conns[c];
    assert ConnOk(s.log, false, c, k);
    LiveBelow(Stream(k), |s.log|);
    JoinStream(Stream(k), k.joins, |s.log|);
    assert Stream(k.(reader := Reading, joins := k.joins + [|s.log|])) == Stream(k);
  }

  lemma HandleReplayed(s: State, c: Client, at: int, order: seq<Client>)
    requires Ordered(s) && Replayed(s) && HubEnabled(s, Handle(c, at, order))
    ensures Replayed(HandleApply(s, c, at, order))
  {
    hide BacklogOk, LogOk, ConnsOk, Known, HandleApply, HubEnabled;
    Accepts(s, c, at, order);
    HandleLeaves(s, c, at, order);
    var s' := HandleApply(s, c, at, order);
    assert Frontier(s') == Frontier(s);
    if s.conns[c].reader.cmd.Join? { JoinConn(s, c); } else { SameBacklog(s.conns[c], s'.conns[c], Frontier(s)); }
  }

  lemma SameBacklog(k: Conn, k': Conn, n: int)
    requires BacklogOk(k, n) && Stream(k') == Stream(k) && k'.joins == k.joins
    requires k'.reader.Answering? ==> k'.reader == k.reader
    ensures BacklogOk(k', n)
  {
  }

  lemma SendReplayed(s: State, a: HubAction)
    requires Ordered(s) && Replayed(s) && HubEnabled(s, a) && (a.Deliver? || a.Announce?)
    ensures Replayed(HubApply(s, a))
  {
    hide BacklogOk, LogOk, ConnsOk, Known;
    var k := s.conns[a.c]; var s' := HubApply(s, a);
    if a.Deliver? {
      LastOfLog(s);
      PushConn(a.c, k, Live(s.hub.ctl.handoff.value), Frontier(s));
      SameBacklog(k, k.(overflow := true), Frontier(s));
    } else {
      PushConn(a.c, k, s.hub.ctl.ann, Frontier(s));
    }
  }

  lemma LastOfLog(s: State)
    requires Ordered(s) && s.hub.ctl.handoff.Some?
    ensures s.hub.ctl.handoff.value.no == Frontier(s)
  {
  }

  lemma OtherReplayed(s: State, a: HubAction)
    requires Ordered(s) && Replayed(s) && HubEnabled(s, a) && !a.Handle? && !a.Deliver? && !a.Announce?
    ensures Replayed(HubApply(s, a))
  {
    hide BacklogOk, LogOk, ConnsOk, Known, HubApply, HubEnabled;
    QuietStep(s, a);
    var s' := HubApply(s, a);
    ColdKept(s, a);
    forall d | d in s'.conns ensures BacklogOk(s'.conns[d], Frontier(s')) {
      SameBacklog(s.conns[d], s'.conns[d], Frontier(s));
      Later(s'.conns[d], Frontier(s), Frontier(s'));
    }
  }

  lemma ColdKept(s: State, a: HubAction)
    requires HandoffOk(s) && LogOk(s.log) && ColdBelow(s)
    requires HubEnabled(s, a) && !a.Handle? && !a.Deliver? && !a.Announce?
    ensures ColdBelow(HubApply(s, a)) && Frontier(s) <= Frontier(HubApply(s, a))
  {
    hide DisconnectHub, DepartHub, ReclaimHub, Enumerates;
    OthersLeave(s, a);
  }

  lemma PersistReplayed(s: State, a: ColdAction)
    requires ColdBelow(s) && ColdEnabled(s, a)
    ensures ColdBelow(ColdApply(s, a))
  {
  }

  lemma StepReplayed(s: State, a: Action)
    requires Ordered(s) && Replayed(s) && Enabled(s, a)
    ensures Replayed(Apply(s, a))
  {
    hide BacklogOk, Ordered;
    match a {
      case Pump(c, p) =>
        if p.Connect? { assert BacklogOk(NewConn(), Frontier(s)) by { FreshBacklog(Frontier(s)); } }
        else { PumpConnReplayed(s, c, p); }
      case Actor(h) =>
        if h.Handle? { HandleReplayed(s, h.c, h.at, h.order); }
        else if h.Deliver? || h.Announce? { SendReplayed(s, h); }
        else { OtherReplayed(s, h); }
      case Persist(w) => PersistReplayed(s, w);
      case Cancel =>
    }
  }

  lemma FreshBacklog(n: int)
    ensures BacklogOk(NewConn(), n)
  {
  }

  lemma {:induction false} RunReplayed(s: State, acts: seq<Action>)
    requires Ordered(s) && Replayed(s) && Runs(s, acts)
    ensures Ordered(Exec(s, acts)) && Replayed(Exec(s, acts))
    decreases |acts|
  {
    hide Ordered, Replayed;
    if acts != [] {
      StepOrdered(s, acts[0]);
      StepReplayed(s, acts[0]);
      RunReplayed(Apply(s, acts[0]), acts[1..]);
    }
  }

  // ---------------------------------------------------------------------------

  /** Let frame `i` of a stream be the history sent for the client's `n`-th join, and let
      that join have been handled. Every message accepted since then is behind it in the
      stream, and newer than everything the history repeats. */
  lemma HistoryBeforeLive(cfg: Config, acts: seq<Action>, c: Client, i: nat, j: nat)
    requires Runs(Init(cfg), acts) && c in Exec(Init(cfg), acts).conns
    requires var k := Exec(Init(cfg), acts).conns[c]; var fs := Stream(k);
      && i < |fs| && j < |fs| && fs[i].History? && fs[j].Live?
      && fs[i].join < |k.joins| && fs[j].m.no >= k.joins[fs[i].join]
    ensures i < j
    ensures var fs := Stream(Exec(Init(cfg), acts).conns[c]);
      forall x | 0 <= x < |fs[i].msgs| :: fs[i].msgs[x].no < fs[j].m.no
  {
    RunReplayed(Init(cfg), acts);
    var k := Exec(Init(cfg), acts).conns[c];
    var fs := Stream(k);
    assert ReplyOk(fs[i], k.joins, Frontier(Exec(Init(cfg), acts)));
  }

  /** No message behind a history frame repeats one of its messages, whether or not the
      client was in the room when the history was read. */
  lemma NeverTwice(cfg: Config, acts: seq<Action>, c: Client, i: nat, j: nat)
    requires Runs(Init(cfg), acts) && c in Exec(Init(cfg), acts).conns
    requires var fs := Stream(Exec(Init(cfg), acts).conns[c]);
      i < j < |fs| && fs[i].History? && fs[j].Live?
    ensures var fs := Stream(Exec(Init(cfg), acts).conns[c]);
      forall x | 0 <= x < |fs[i].msgs| :: fs[i].msgs[x].no < fs[j].m.no
  {
    RunReplayed(Init(cfg), acts);
    var k := Exec(Init(cfg), acts).conns[c];
    assert BacklogOk(k, Frontier(Exec(Init(cfg), acts)));
    assert PairOk(Stream(k)[i], Stream(k)[j], k.joins);
  }
}

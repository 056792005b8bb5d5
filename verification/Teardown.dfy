/** Once the hub has closed a connection's channel, its two pumps come to an end. */
module Teardown {
  import opened Clients
  import opened Machine
  import opened Safety
  import opened Progress
  import opened Crash

  function ReaderRank(r: Reader): nat {
    match r
    case Gone => 0
    case Unregistering => 1
    case Reading => 2
    case Submitting(_) => 3
    case Answering(_, _) => 4
    case Fresh => 5
  }

  /** What is left of a connection: frames to drain, a write pump to end, a connection to
      close, and, once the connection is closed, a read pump to end. */
  function Left(k: Conn): nat {
    6 * (|k.buf| + (if k.writing then 1 else 0) + (if k.open then 1 else 0))
    + (if k.open then 5 else ReaderRank(k.reader))
  }

  ghost predicate TornDown(k: Conn) { !k.writing && !k.open && k.reader.Gone? }

  /** The steps that take connection `c` down: those of the write pump and the close, and, once
      the connection is closed, those of the read pump and of the hub taking what it offers.
      Before that the peer can keep the read pump busy for as long as it likes. */
  predicate TakesDown(s: State, c: Client, a: Action) {
    c in s.conns &&
    match a
    case Pump(d, p) => d == c && (p.Take? || p.WriterExit? || p.CloseConn? || !s.conns[c].open)
    case Actor(h) => !s.conns[c].open && (h.Unregister? || h.Handle?) && h.c == c
    case _ => false
  }

  ghost predicate Closed(s: State, c: Client) {
    c in s.conns && s.conns[c].closed && !s.conns[c].reader.Fresh?
  }

  /** No step adds to what is left, and each of those steps lowers it. */
  lemma StepTakesDown(s: State, c: Client, a: Action)
    requires Closed(s, c) && Enabled(s, a)
    ensures Closed(Apply(s, a), c)
    ensures Left(Apply(s, a).conns[c]) + (if TakesDown(s, c, a) then 1 else 0) <= Left(s.conns[c])
  {
    match a {
      case Pump(d, p) => PumpTakesDown(s, c, d, p);
      case Actor(h) => HubTakesDown(s, c, h);
      case _ =>
    }
  }

  lemma PumpTakesDown(s: State, c: Client, d: Client, p: PumpAction)
    requires Closed(s, c) && PumpEnabled(s, d, p)
    ensures Closed(PumpApply(s, d, p), c)
    ensures Left(PumpApply(s, d, p).conns[c]) + (if TakesDown(s, c, Pump(d, p)) then 1 else 0) <= Left(s.conns[c])
  {
  }

  lemma HubTakesDown(s: State, c: Client, a: HubAction)
    requires Closed(s, c) && HubEnabled(s, a)
    ensures Closed(HubApply(s, a), c)
    ensures Left(HubApply(s, a).conns[c]) + (if TakesDown(s, c, Actor(a)) then 1 else 0) <= Left(s.conns[c])
  {
    hide HubEnabled, HubApply;
    HubMoves(s, a, c);
  }

  function StepsDown(s: State, c: Client, acts: seq<Action>): nat
    requires Runs(s, acts)
    decreases |acts|
  {
    if acts == [] then 0
    else (if TakesDown(s, c, acts[0]) then 1 else 0) + StepsDown(Apply(s, acts[0]), c, acts[1..])
  }

  /** However the goroutines interleave, at most `Left` more of these steps are taken. */
  lemma {:induction false} TeardownTerminates(s: State, c: Client, acts: seq<Action>)
    requires Closed(s, c) && Runs(s, acts)
    ensures Closed(Exec(s, acts), c)
    ensures StepsDown(s, c, acts) + Left(Exec(s, acts).conns[c]) <= Left(s.conns[c])
    decreases |acts|
  {
    if acts != [] {
      StepTakesDown(s, c, acts[0]);
      TeardownTerminates(Apply(s, acts[0]), c, acts[1..]);
    }
  }

  /** A join of a dropped client is waiting for a hub that will take it. */
  ghost predicate JoinPending(s: State, c: Client)
    requires c in s.conns
  {
    s.conns[c].reader.Submitting? && s.conns[c].reader.cmd.Join? && !s.hub.stopped
  }

  /** Until the connection is down, one of its own steps is enabled, or the hub is in the
      middle of an event and has a step of its own; no such step is a panic. The exception
      is a pending join. */
  lemma TeardownNeverStuck(s: State, c: Client) returns (a: Action)
    requires Safe(s) && Closed(s, c) && !TornDown(s.conns[c]) && !JoinPending(s, c)
    ensures Enabled(s, a) && Safe(Apply(s, a)) && Closed(Apply(s, a), c)
    ensures TakesDown(s, c, a) || (a.Actor? && Work(a.h) && !Idle(s.hub.ctl) && !s.hub.stopped)
    ensures !WillJoin(s, c) ==> !WillJoin(Apply(s, a), c)
  {
    hide Safe;
    var k := s.conns[c];
    NotPanicked(s);
    if k.writing || k.open || k.reader.Reading? || k.reader.Answering? || s.hub.stopped {
      var p := PumpDown(s, c);
      a := Pump(c, p);
    } else {
      var h := HubDown(s, c);
      a := Actor(h);
    }
    StepSafe(s, a);
    StepTakesDown(s, c, a);
  }

  /** What the two pumps can do by themselves. */
  lemma PumpDown(s: State, c: Client) returns (p: PumpAction)
    requires !s.panicked && Closed(s, c) && !TornDown(s.conns[c])
    requires var k := s.conns[c]; k.writing || k.open || k.reader.Reading? || k.reader.Answering? || s.hub.stopped
    ensures Enabled(s, Pump(c, p)) && TakesDown(s, c, Pump(c, p))
    ensures !WillJoin(s, c) ==> c in Apply(s, Pump(c, p)).conns && !WillJoin(Apply(s, Pump(c, p)), c)
  {
    var k := s.conns[c];
    if k.writing {
      p := if k.buf != [] then Take else WriterExit;
    } else if k.open {
      p := CloseConn;
    } else if k.reader.Reading? {
      p := ReadFail;
    } else if k.reader.Answering? {
      p := Answer;
    } else {
      p := GiveUp;
    }
  }

  /** What only the hub can do: end its event, or take what the read pump is offering. */
  lemma HubDown(s: State, c: Client) returns (a: HubAction)
    requires Safe(s) && Closed(s, c) && !s.conns[c].open && !JoinPending(s, c) && !s.hub.stopped
    requires s.conns[c].reader.Submitting? || s.conns[c].reader.Unregistering?
    ensures Enabled(s, Actor(a)) && Courteous(s, Actor(a))
    ensures TakesDown(s, c, Actor(a)) || (Work(a) && !Idle(s.hub.ctl))
    ensures c in Apply(s, Actor(a)).conns && !WillJoin(Apply(s, Actor(a)), c)
  {
    if !Idle(s.hub.ctl) {
      a := NeverBlocked(s);
      WorkKeepsReader(s, a, c);
    } else if s.conns[c].reader.Unregistering? {
      a := HubAction.Unregister(c);
    } else {
      var order := Enumerate(Members(s.hub, s.conns[c].reader.cmd.room) - {c});
      a := Handle(c, 1, order);
    }
  }

  lemma WorkKeepsReader(s: State, a: HubAction, c: Client)
    requires HubEnabled(s, a) && Work(a) && c in s.conns
    ensures var s' := HubApply(s, a);
      c in s'.conns && s'.conns[c].reader == s.conns[c].reader && s'.conns[c].joins == s.conns[c].joins
      && (s.conns[c].closed ==> s'.conns[c].closed) && s'.hub.stopped == s.hub.stopped
  {
    hide HubEnabled, HubApply;
    HubMoves(s, a, c);
    OthersLeave(s, a);
  }

  /** The exception is exact: once the writer and the connection are gone, the only step that
      takes down a connection with a pending join dooms the hub. */
  lemma PendingJoinDooms(s: State, c: Client, a: Action)
    requires Safe(s) && Closed(s, c) && !s.conns[c].writing && !s.conns[c].open && JoinPending(s, c)
    requires Enabled(s, a) && TakesDown(s, c, a)
    ensures a.Actor? && a.h.Handle? && Doomed(Apply(s, a), c)
  {
    assert c in s.hub.clients ==> OpenTo(s, c);
    if a.Actor? && a.h.Handle? { DroppedJoinDooms(s, c, a.h.at, a.h.order); }
  }

  /** A join is pending, or will be: its history is empty, so nothing stops the read pump. */
  ghost predicate WillJoin(s: State, c: Client)
    requires c in s.conns
  {
    JoinPending(s, c) || (s.conns[c].reader.Answering? && Reply(s.conns[c]).None? && !s.hub.stopped)
  }

  /** Every other closed connection can be taken down all the way, safely, by its own pumps
      and the hub. */
  lemma TakeDown(s: State, c: Client) returns (acts: seq<Action>)
    requires Safe(s) && Closed(s, c) && !WillJoin(s, c)
    ensures Runs(s, acts) && Safe(Exec(s, acts)) && c in Exec(s, acts).conns && TornDown(Exec(s, acts).conns[c])
    decreases Left(s.conns[c]), RankOf(s.hub.ctl).handoff, RankOf(s.hub.ctl).members, RankOf(s.hub.ctl).rooms,
              RankOf(s.hub.ctl).reclaim, RankOf(s.hub.ctl).told
  {
    hide Safe, Apply, Enabled, TakesDown, RankOf, Left, WillJoin;
    acts := [];
    if !TornDown(s.conns[c]) {
      NotJoining(s, c);
      var a := TeardownNeverStuck(s, c);
      StepTakesDown(s, c, a);
      NotPanicked(Apply(s, a));
      if !TakesDown(s, c, a) { WorkLowersRank(s, a); }
      var rest := TakeDown(Apply(s, a), c);
      acts := [a] + rest;
      assert acts[1..] == rest;
    }
  }

  /** And every closed connection can be, without exception, by shutting the server down: the
      hub stops before it would take the join. */
  lemma ShutDown(s: State, c: Client) returns (acts: seq<Action>)
    requires Safe(s) && Closed(s, c)
    ensures Runs(s, acts) && Safe(Exec(s, acts)) && c in Exec(s, acts).conns && TornDown(Exec(s, acts).conns[c])
  {
    hide Safe;
    var t, before := Stopped(s, c);
    var rest := TakeDown(t, c);
    ExecConcat(s, before, rest);
    acts := before + rest;
  }

  /** The context is cancelled, the hub finishes its event and stops. */
  lemma Stopped(s: State, c: Client) returns (t: State, acts: seq<Action>)
    requires Safe(s) && Closed(s, c)
    ensures Runs(s, acts) && t == Exec(s, acts) && Safe(t) && Closed(t, c) && t.hub.stopped
  {
    hide Safe, Apply, Enabled;
    t, acts := s, [];
    if !s.hub.stopped {
      CancelStep(s);
      Then(s, [], Cancel);
      var u := s.(cancelled := true);
      SafeKept(s, u);
      var work := Finish(u);
      var v := Exec(u, work);
      StaysClosed(u, c, work);
      StopStep(v, c);
      ExecConcat(s, [] + [Cancel], work);
      acts := [] + [Cancel] + work;
      Then(s, acts, Actor(Stop));
      acts, t := acts + [Actor(Stop)], Apply(v, Actor(Stop));
    }
  }

  lemma StopStep(s: State, c: Client)
    requires Safe(s) && Closed(s, c) && Idle(s.hub.ctl) && !s.hub.stopped && s.cancelled
    ensures var a := Actor(Stop);
      Enabled(s, a) && Safe(Apply(s, a)) && Closed(Apply(s, a), c) && Apply(s, a).hub.stopped
  {
    StepSafe(s, Actor(Stop));
  }

  lemma {:induction false} StaysClosed(s: State, c: Client, acts: seq<Action>)
    requires Closed(s, c) && Runs(s, acts)
    ensures Closed(Exec(s, acts), c)
    decreases |acts|
  {
    hide Closed;
    if acts != [] {
      StepTakesDown(s, c, acts[0]);
      StaysClosed(Apply(s, acts[0]), c, acts[1..]);
    }
  }

  lemma NotJoining(s: State, c: Client)
    requires c in s.conns && !WillJoin(s, c)
    ensures !JoinPending(s, c)
  {
  }

  lemma WorkLowersRank(s: State, a: Action)
    requires Safe(s) && Enabled(s, a) && a.Actor? && Work(a.h)
    ensures Lower(RankOf(Apply(s, a).hub.ctl), RankOf(s.hub.ctl))
  {
    WorkLowers(s, a.h);
  }

  /** The read pump's closing `Unregister` changes nothing in the hub. */
  lemma LastUnregisterIsNoOp(s: State, c: Client)
    requires Safe(s) && Closed(s, c) && Enabled(s, Actor(HubAction.Unregister(c)))
    ensures Apply(s, Actor(HubAction.Unregister(c))).hub == s.hub
  {
    assert c in s.hub.clients ==> OpenTo(s, c);
  }
}

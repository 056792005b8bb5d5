/** The cold path: where every accepted message is, on every run, and what is left when the
    persister has returned. */
module ColdPath {
  import opened Protocol
  import opened Storage
  import opened Clients
  import opened Machine
  import opened Safety
  import opened Progress
  import opened Ordering
  import opened Scenarios

  function Attempted(processed: seq<Attempt>): seq<Message> {
    seq(|processed|, i requires 0 <= i < |processed| => processed[i].m)
  }

  function SavedOf(processed: seq<Attempt>): seq<Message> {
    if processed == [] then []
    else
      var rest := SavedOf(processed[..|processed| - 1]);
      if processed[|processed| - 1].saved then rest + [processed[|processed| - 1].m] else rest
  }

  function InSave(w: Worker): seq<Message> { if w.Saving? then [w.m] else [] }

  function InHand(k: Ctl): seq<Message> { if k.handoff.Some? then [k.handoff.value] else [] }

  /** The accepted messages that were not dropped at the hand-off, from the one attempted
      first to the one the hub still has in hand. */
  function Kept(s: State): seq<Message> {
    Attempted(s.cold.processed) + InSave(s.cold.worker) + s.cold.queue + InHand(s.hub.ctl)
  }

  /** `kept` and `dropped` split the log: in log order, nothing twice, nothing missing. */
  ghost predicate Splits(kept: seq<Message>, dropped: seq<Message>, log: seq<Entry>) {
    && InOrder(kept, log, |log|) && InOrder(dropped, log, |log|)
    && |kept| + |dropped| == |log|
    && forall n | 0 <= n < |log| :: (log[n].m in kept) != (log[n].m in dropped)
  }

  /** The table holds what it held at the start, then the saved messages, in the order they
      were saved, each with an id above all those before it. */
  ghost predicate TableOk(table: seq<Message>, found: seq<Message>, processed: seq<Attempt>, micros: bool) {
    && found <= table && |table| == |found| + |SavedOf(processed)|
    && (forall i | |found| <= i < |table| ::
          table[i] == Row(SavedOf(processed)[i - |found|], micros, table[i].id))
    && (forall i, j | 0 <= i < j < |table| && |found| <= j :: table[i].id < table[j].id)
  }

  /** The table begins with the rows that were there before the server. */
  ghost predicate StartsWith(table: seq<Message>, found: seq<Message>, micros: bool) {
    |found| <= |table| && forall i | 0 <= i < |found| ::
      && table[i] == found[i].(at := table[i].at, no := table[i].no) && table[i].no < 0
      && (if micros then table[i].at <= found[i].at < table[i].at + 1000 else table[i].at == found[i].at)
  }

  ghost predicate Conserved(s: State) {
    && Splits(Kept(s), s.cold.dropped, s.log)
    && TableOk(s.cold.table, Found(s.cfg), s.cold.processed, s.cfg.micros)
    && s.hub.total == |s.log|
    && (s.hub.stopped ==> Idle(s.hub.ctl))
    && |s.cold.queue| <= s.cfg.queueDepth
    && (if s.cold.worker.Exited? then s.cold.queue == s.cold.late else s.cold.late == [] && !s.cold.hubDown)
    && (s.cold.hubDown ==> s.hub.stopped && s.cold.late == [])
  }

  // ---------------------------------------------------------------------------

  lemma LogExtends(kept: seq<Message>, dropped: seq<Message>, log: seq<Entry>, e: Entry)
    requires Splits(kept, dropped, log) && e.m.no == |log|
    ensures Splits(kept + [e.m], dropped, log + [e])
  {
    forall n | 0 <= n < |log + [e]|
      ensures ((log + [e])[n].m in kept + [e.m]) != ((log + [e])[n].m in dropped)
    {
      if n < |log| { assert (log[n].m in kept) != (log[n].m in dropped); }
    }
  }

  lemma DropLast(kept: seq<Message>, m: Message, dropped: seq<Message>, log: seq<Entry>)
    requires Splits(kept + [m], dropped, log) && LogOk(log) && m.no == |log| - 1
    ensures Splits(kept, dropped + [m], log)
  {
    assert forall i | 0 <= i < |kept| :: kept[i] == (kept + [m])[i];
    assert (kept + [m])[|kept|] == m;
    forall i | 0 <= i < |dropped| ensures dropped[i].no < |log| - 1 {
      assert log[dropped[i].no].m == dropped[i] && dropped[i] in dropped && m in kept + [m];
    }
    forall n | 0 <= n < |log| ensures (log[n].m in kept) != (log[n].m in dropped + [m]) {
      assert (log[n].m in kept + [m]) != (log[n].m in dropped);
    }
  }

  lemma HandleConserved(s: State, c: Client, at: int, order: seq<Client>)
    requires Conserved(s) && HubEnabled(s, Handle(c, at, order))
    ensures Conserved(HandleApply(s, c, at, order))
  {
    hide Splits, TableOk, Found, HandleApply, HubEnabled;
    Accepts(s, c, at, order);
    HandleLeaves(s, c, at, order);
    var s' := HandleApply(s, c, at, order);
    if s'.log != s.log {
      assert Kept(s') == Kept(s) + [s'.hub.ctl.handoff.value];
      LogExtends(Kept(s), s.cold.dropped, s.log, s'.log[|s.log|]);
    } else {
      assert Kept(s') == Kept(s);
    }
  }

  lemma HandOffConserved(s: State, sent: bool)
    requires Conserved(s) && LogOk(s.log) && HandoffOk(s) && HubEnabled(s, HandOff(sent))
    ensures Conserved(HandOffApply(s, sent))
  {
    hide Splits, TableOk, Found, Found;
    var s' := HandOffApply(s, sent);
    var m := s.hub.ctl.handoff.value;
    assert Kept(s) == (Attempted(s.cold.processed) + InSave(s.cold.worker) + s.cold.queue) + [m];
    if sent {
      assert Kept(s') == Kept(s);
    } else {
      assert Kept(s') == Attempted(s.cold.processed) + InSave(s.cold.worker) + s.cold.queue;
      DropLast(Kept(s'), m, s.cold.dropped, s.log);
    }
  }

  lemma OtherConserved(s: State, a: HubAction)
    requires Conserved(s) && HubEnabled(s, a) && !a.Handle? && !a.HandOff?
    ensures Conserved(HubApply(s, a))
  {
    hide Splits, TableOk, Found, HubApply;
    OthersLeave(s, a);
    assert Kept(HubApply(s, a)) == Kept(s);
  }

  lemma PersistConserved(s: State, a: ColdAction)
    requires Conserved(s) && LogOk(s.log) && ColdEnabled(s, a)
    ensures Conserved(ColdApply(s, a))
  {
    hide Splits, TableOk, Found, Idle;
    var s' := ColdApply(s, a); var d := s.cold;
    match a {
      case Receive =>
        assert InSave(s'.cold.worker) + s'.cold.queue == d.queue;
        assert Kept(s') == Kept(s);
      case Save(id, now) =>
        SavedIsStamped(s);
        assert Attempted(s'.cold.processed) == Attempted(d.processed) + [d.worker.m];
        assert Kept(s') == Kept(s);
        TableGrows(d.table, Found(s.cfg), d.processed, d.worker.m, id, s.cfg.micros);
      case _ => assert Kept(s') == Kept(s);
    }
  }

  /** What the hub accepted carries a time, so the store has none to add. */
  lemma SavedIsStamped(s: State)
    requires Conserved(s) && LogOk(s.log) && s.cold.worker.Saving?
    ensures s.cold.worker.m.at != NO_TIME
  {
    assert Kept(s)[|s.cold.processed|] == s.cold.worker.m;
  }

  lemma TableGrows(table: seq<Message>, found: seq<Message>, processed: seq<Attempt>, m: Message, id: Option<int>,
                   micros: bool)
    requires TableOk(table, found, processed, micros) && (id.Some? ==> FreshId(table, id.value))
    ensures var table' := if id.Some? then table + [Row(m, micros, id.value)] else table;
            TableOk(table', found, processed + [Attempt(m, id.Some?)], micros)
  {
    assert (processed + [Attempt(m, id.Some?)])[..|processed|] == processed;
  }

  lemma StepConserved(s: State, a: Action)
    requires Conserved(s) && LogOk(s.log) && HandoffOk(s) && Enabled(s, a)
    ensures Conserved(Apply(s, a))
  {
    hide Conserved, LogOk;
    match a {
      case Actor(h) =>
        if h.Handle? { HandleConserved(s, h.c, h.at, h.order); }
        else if h.HandOff? { HandOffConserved(s, h.sent); }
        else { OtherConserved(s, h); }
      case Persist(w) => PersistConserved(s, w);
      case _ => ConservedKept(s, Apply(s, a));
    }
  }

  lemma ConservedKept(s: State, s': State)
    requires Conserved(s) && s'.hub == s.hub && s'.cold == s.cold && s'.log == s.log && s'.cfg == s.cfg
    ensures Conserved(s')
  {
    hide Splits, TableOk, Found, Found;
    assert Kept(s') == Kept(s);
  }

  lemma {:induction false} RunConserved(s: State, acts: seq<Action>)
    requires Ordered(s) && Conserved(s) && Runs(s, acts)
    ensures Ordered(Exec(s, acts)) && Conserved(Exec(s, acts))
    decreases |acts|
  {
    hide Known, ConnsOk, LogOk, Conserved;
    if acts != [] {
      StepConserved(s, acts[0]);
      StepOrdered(s, acts[0]);
      RunConserved(Apply(s, acts[0]), acts[1..]);
    }
  }

  lemma FromStart(cfg: Config, acts: seq<Action>)
    requires Runs(Init(cfg), acts)
    ensures Ordered(Exec(Init(cfg), acts)) && Conserved(Exec(Init(cfg), acts))
  {
    InitConserved(cfg);
    RunConserved(Init(cfg), acts);
  }

  lemma InitConserved(cfg: Config)
    ensures Ordered(Init(cfg)) && Conserved(Init(cfg))
  {
  }

  // ---------------------------------------------------------------------------
  // Conservation
  // ---------------------------------------------------------------------------

  lemma FoundFirst(table: seq<Message>, cfg: Config)
    requires Found(cfg) <= table
    ensures StartsWith(table, cfg.found, cfg.micros)
  {
    assert forall i | 0 <= i < |cfg.found| :: table[i] == Found(cfg)[i];
  }

  /** On every run: processed ++ in save ++ queue ++ in the hub's hand is in acceptance
      order, the messages dropped at the hand-off likewise; together they are the accepted
      messages, each exactly once, and as many as the counter says. */
  lemma Conservation(cfg: Config, acts: seq<Action>)
    requires Runs(Init(cfg), acts)
    ensures var s := Exec(Init(cfg), acts);
      && Increasing(Kept(s)) && Increasing(s.cold.dropped)
      && (forall n | 0 <= n < |s.log| :: (s.log[n].m in Kept(s)) != (s.log[n].m in s.cold.dropped))
      && s.hub.total == |s.log|
      && |s.cold.processed| + |InSave(s.cold.worker)| + |s.cold.queue| + |InHand(s.hub.ctl)| + |s.cold.dropped|
         == s.hub.total
      && TableOk(s.cold.table, Found(s.cfg), s.cold.processed, s.cfg.micros)
      && StartsWith(s.cold.table, cfg.found, cfg.micros)
  {
    hide LogOk, ConnsOk, Known, Runs, Exec;
    FromStart(cfg, acts);
    SameCfg(Init(cfg), acts);
    FoundFirst(Exec(Init(cfg), acts).cold.table, cfg);
    assert Splits(Kept(Exec(Init(cfg), acts)), Exec(Init(cfg), acts).cold.dropped, Exec(Init(cfg), acts).log);
  }

  // ---------------------------------------------------------------------------
  // Shutdown
  // ---------------------------------------------------------------------------

  /** Once the persister has returned, the messages it leaves behind are exactly those
      handed off after that. */
  lemma LeftBehind(cfg: Config, acts: seq<Action>)
    requires Runs(Init(cfg), acts) && Exec(Init(cfg), acts).cold.worker.Exited?
    ensures var s := Exec(Init(cfg), acts); Kept(s) == Attempted(s.cold.processed) + s.cold.late + InHand(s.hub.ctl)
  {
    hide Ordered, Splits, TableOk, Runs, Exec;
    FromStart(cfg, acts);
  }

  /** Shutdown drain: if the hub had stopped when the persister returned, then every
      accepted message was dropped at the hand-off or given to `SaveMessage` once, and
      nothing is left in the queue. */
  lemma ShutdownDrain(cfg: Config, acts: seq<Action>)
    requires Runs(Init(cfg), acts)
    requires Exec(Init(cfg), acts).cold.worker.Exited? && Exec(Init(cfg), acts).cold.hubDown
    ensures var s := Exec(Init(cfg), acts); var done := Attempted(s.cold.processed);
      && s.cold.queue == [] && Increasing(done)
      && |done| + |s.cold.dropped| == |s.log|
      && forall n | 0 <= n < |s.log| :: (s.log[n].m in done) != (s.log[n].m in s.cold.dropped)
  {
    hide LogOk, TableOk, ConnsOk, Known, Runs, Exec;
    FromStart(cfg, acts);
    var s := Exec(Init(cfg), acts);
    assert Kept(s) == Attempted(s.cold.processed);
    assert Splits(Kept(s), s.cold.dropped, s.log);
  }

  /** What the persister still has to do, once nothing more arrives. */
  function Remaining(d: Cold): nat {
    3 * |d.queue| + match d.worker
                    case Exited => 0
                    case Draining => 1
                    case Waiting => 2
                    case Saving(_, draining) => if draining then 2 else 3
  }

  function PersistSteps(acts: seq<Action>): nat {
    if acts == [] then 0 else (if acts[0].Persist? then 1 else 0) + PersistSteps(acts[1..])
  }

  lemma StepRemaining(s: State, a: Action)
    requires Enabled(s, a) && (a.Actor? ==> s.hub.stopped)
    ensures Apply(s, a).hub.stopped == s.hub.stopped
    ensures Remaining(Apply(s, a).cold) + (if a.Persist? then 1 else 0) <= Remaining(s.cold)
  {
  }

  /** Once the hub has stopped, the persister takes at most `Remaining` more steps, however
      the other goroutines interleave. */
  lemma {:induction false} DrainTerminates(s: State, acts: seq<Action>)
    requires Runs(s, acts) && s.hub.stopped
    ensures PersistSteps(acts) + Remaining(Exec(s, acts).cold) <= Remaining(s.cold)
    decreases |acts|
  {
    if acts != [] {
      StepRemaining(s, acts[0]);
      DrainTerminates(Apply(s, acts[0]), acts[1..]);
    }
  }

  /** And it has a step to take until it has returned. */
  lemma DrainNeverStuck(s: State) returns (a: ColdAction)
    requires s.cancelled && !s.panicked && !s.cold.worker.Exited?
    ensures Enabled(s, Persist(a))
  {
    match s.cold.worker {
      case Waiting => a := StartDrain;
      case Saving(_, _) => a := Save(None, NO_TIME);
      case Draining => a := if s.cold.queue == [] then Exit else Receive;
    }
  }

  /** Exactly: once both have returned, every accepted message was dropped at the hand-off or
      given to `SaveMessage` if and only if nothing was handed off after the persister had
      found the queue empty. */
  lemma DrainedExactly(cfg: Config, acts: seq<Action>)
    requires Runs(Init(cfg), acts) && Exec(Init(cfg), acts).cold.worker.Exited? && Exec(Init(cfg), acts).hub.stopped
    ensures var s := Exec(Init(cfg), acts); var done := Attempted(s.cold.processed);
      && s.cold.queue == s.cold.late
      && (s.cold.late == [] <==> forall n | 0 <= n < |s.log| :: s.log[n].m in done || s.log[n].m in s.cold.dropped)
  {
    hide LogOk, TableOk, ConnsOk, Known, Runs, Exec, Increasing;
    FromStart(cfg, acts);
    var s := Exec(Init(cfg), acts);
    var done := Attempted(s.cold.processed);
    assert Splits(Kept(s), s.cold.dropped, s.log) && Kept(s) == done + s.cold.late;
    if s.cold.late != [] {
      var m := Kept(s)[|done|];
      assert s.log[m.no].m == m && m in Kept(s) && m !in s.cold.dropped;
      assert m !in done by {
        assert Increasing(Kept(s));
        LastIsNew(done, s.cold.late);
      }
    }
  }

  lemma LastIsNew(done: seq<Message>, late: seq<Message>)
    requires Increasing(done + late) && late != []
    ensures (done + late)[|done|] !in done
  {
    assert forall i | 0 <= i < |done| :: (done + late)[i] == done[i];
  }

  // ---------------------------------------------------------------------------
  // The ordering is needed
  // ---------------------------------------------------------------------------

  /** A hub that is still in an event when the persister has returned finishes it, hands its
      message to a queue nobody reads, and stops. */
  lemma LateHandOff(s: State) returns (acts: seq<Action>)
    requires Safe(s) && s.cancelled && !s.hub.stopped && s.cold.worker.Exited?
    requires s.hub.ctl.handoff.Some? && |s.cold.queue| < s.cfg.queueDepth
    ensures Runs(s, acts) && forall i | 0 <= i < |acts| :: acts[i].Actor?
    ensures var t := Exec(s, acts);
      && Safe(t) && t.hub.stopped && t.cold.worker.Exited? && t.cold.processed == s.cold.processed && t.log == s.log
      && t.cold.queue == s.cold.queue + [s.hub.ctl.handoff.value]
  {
    hide Safe;
    var work := Finish(s);
    NotPanicked(Exec(s, work));
    Then(s, work, Actor(Stop));
    StepSafe(Exec(s, work), Actor(Stop));
    acts := work + [Actor(Stop)];
  }

  /** And lost it is: after both have returned nothing is taken from the queue again. */
  lemma {:induction false} LostForGood(s: State, acts: seq<Action>)
    requires Runs(s, acts) && s.hub.stopped && s.cold.worker.Exited?
    ensures Exec(s, acts).cold == s.cold && Exec(s, acts).log == s.log
    decreases |acts|
  {
    if acts != [] { LostForGood(Apply(s, acts[0]), acts[1..]); }
  }

  /** The persister alone empties the queue and returns. */
  lemma DrainOut(s: State) returns (acts: seq<Action>)
    requires s.cancelled && !s.panicked && !s.cold.worker.Exited?
    ensures Runs(s, acts) && forall i | 0 <= i < |acts| :: acts[i].Persist?
    ensures var t := Exec(s, acts); t == s.(cold := t.cold) && t.cold.worker.Exited? && t.cold.queue == []
    decreases Remaining(s.cold)
  {
    var a := DrainNeverStuck(s);
    var s' := Apply(s, Persist(a));
    StepRemaining(s, Persist(a));
    if s'.cold.worker.Exited? {
      acts := [Persist(a)];
      assert acts[1..] == [];
    } else {
      var rest := DrainOut(s');
      acts := [Persist(a)] + rest;
      assert acts[1..] == rest;
    }
  }

  /** From every safe state of a running server a message can be lost to the shutdown,
      although the queue has room for it: a newcomer says something, the context is cancelled
      while the hub delivers it, and the persister returns first. After the cancellation only
      the persister and the hub take steps. */
  lemma LossReachable(s: State, c: Client, room: string) returns (acts: seq<Action>)
    requires Safe(s) && Ordered(s) && Conserved(s) && !s.hub.stopped && !s.cancelled && !s.cold.worker.Exited?
    requires s.cfg.queueDepth > 0 && c !in s.conns && room != ""
    ensures Runs(s, acts)
    ensures forall i, j | 0 <= i < j < |acts| && acts[i] == Cancel :: acts[j].Persist? || acts[j].Actor?
    ensures var t := Exec(s, acts);
      && |t.log| == |s.log| + 1 && t.cold.queue == [t.log[|s.log|].m]
      && t.log[|s.log|].m !in Attempted(t.cold.processed)
      && t.hub.stopped && t.cold.worker.Exited?
      && forall more | Runs(t, more) :: Exec(t, more).cold == t.cold
  {
    hide Safe, Ordered, Conserved, Apply, Enabled;
    var before, t := UpToDelivery(s, c, room);
    var u := t.(cancelled := true);
    CancelStep(t);
    Then(s, before, Cancel);
    SafeKept(t, u);
    NotPanicked(u);
    var drain := DrainOut(u);
    var v := Exec(u, drain);
    SafeKept(u, v);
    var late := LateHandOff(v);
    var w := Exec(v, late);
    ExecConcat(u, drain, late);
    ExecConcat(s, before + [Cancel], drain + late);
    acts := before + [Cancel] + (drain + late);
    RunConserved(s, acts);
    NotAttempted(w);
    forall more | Runs(w, more) ensures Exec(w, more).cold == w.cold { LostForGood(w, more); }
  }

  lemma NotAttempted(s: State)
    requires Conserved(s) && s.cold.worker.Exited? && |s.cold.queue| == 1
    ensures s.cold.queue[0] !in Attempted(s.cold.processed)
  {
    var done := Attempted(s.cold.processed); var rest := s.cold.queue + InHand(s.hub.ctl);
    assert Kept(s) == done + rest;
    LastIsNew(done, rest);
  }

  /** A newcomer enters a room and says something there; the hub has not delivered it yet. */
  lemma UpToDelivery(s: State, c: Client, room: string) returns (acts: seq<Action>, t: State)
    requires Safe(s) && Ordered(s) && !s.hub.stopped && !s.cancelled && c !in s.conns && room != ""
    ensures Leads(s, acts, t) && Safe(t) && !t.hub.stopped && t.cold.worker == s.cold.worker && t.cfg == s.cfg
    ensures |t.log| == |s.log| + 1 && t.hub.ctl.handoff == Some(t.log[|s.log|].m)
  {
    hide Leads, Safe, Ordered;
    var more;
    Start(s);
    acts, t, more := Settle(s, [], s);
    acts, t := Arrive(s, acts, t, c);
    acts, t := AskToJoin(s, acts, t, c, room);
    acts, t := Enter(s, acts, t, c, room);
    acts, t := AskToSay(s, acts, t, c, room);
    acts, t := Accept(s, acts, t, c, room);
  }
}

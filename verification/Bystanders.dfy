/** Everybody else. The loops of one goroutine are proved with all the others running in
    between: what those do is a list of machine steps, of which the ones that are possible
    when their turn comes are taken. */
module Bystanders {
  import opened Clients
  import opened Machine
  import opened Safety

  /** A goroutine, named by whose loop it runs. Newcomers connect between the hub's events. */
  datatype Who = ReadPumpOf(c: Client) | WritePumpOf(c: Client) | Saver | HubLoop

  /** The machine steps that are the goroutine's own. */
  predicate Own(who: Who, a: Action) {
    match who
    case ReadPumpOf(c) =>
      && a.Pump? && a.c == c
      && (a.p.ReadJoin? || a.p.Answer? || a.p.ReadLeave? || a.p.ReadSay? || a.p.ReadFail? || a.p.GiveUp?)
    case WritePumpOf(c) => a.Pump? && a.c == c && (a.p.Take? || a.p.WriterExit? || a.p.CloseConn?)
    case Saver => a.Persist?
    case HubLoop => a.Actor? || (a.Pump? && a.p.Connect?)
  }

  ghost predicate NoneOwn(who: Who, acts: seq<Action>) {
    forall i | 0 <= i < |acts| :: !Own(who, acts[i])
  }

  /** The steps of `plan` that the others get to take. */
  function Taken(s: State, plan: seq<Action>, who: Who): (acts: seq<Action>)
    ensures Runs(s, acts) && NoneOwn(who, acts)
    decreases |plan|
  {
    if plan == [] then []
    else if Enabled(s, plan[0]) && !Own(who, plan[0]) then
      var rest := Taken(Apply(s, plan[0]), plan[1..], who);
      assert ([plan[0]] + rest)[1..] == rest;
      [plan[0]] + rest
    else Taken(s, plan[1..], who)
  }

  /** No behaviour of the others is left out: every run without the goroutine's own steps is
      taken as it stands. */
  lemma {:induction false} TakenIsAnything(s: State, plan: seq<Action>, who: Who)
    requires Runs(s, plan) && NoneOwn(who, plan)
    ensures Taken(s, plan, who) == plan
    decreases |plan|
  {
    if plan != [] {
      assert !Own(who, plan[0]);
      assert NoneOwn(who, plan[1..]);
      TakenIsAnything(Apply(s, plan[0]), plan[1..], who);
    }
  }

  /** What the others leave of the persister's own state: they can only add to its queue. */
  ghost predicate SaverKept(s: State, s': State) {
    && s'.cold.worker == s.cold.worker && s'.cold.processed == s.cold.processed && s'.cold.table == s.cold.table
    && s.cold.queue <= s'.cold.queue && s'.cfg == s.cfg && (s.cancelled ==> s'.cancelled)
  }

  lemma {:induction false} OthersKeepSaver(s: State, acts: seq<Action>)
    requires Runs(s, acts) && NoneOwn(Saver, acts)
    ensures SaverKept(s, Exec(s, acts))
    decreases |acts|
  {
    if acts != [] {
      assert !Own(Saver, acts[0]);
      assert NoneOwn(Saver, acts[1..]);
      OtherKeepsSaver(s, acts[0]);
      OthersKeepSaver(Apply(s, acts[0]), acts[1..]);
    }
  }

  lemma OtherKeepsSaver(s: State, a: Action)
    requires Enabled(s, a) && !a.Persist?
    ensures SaverKept(s, Apply(s, a))
  {
    hide HubEnabled, HubApply;
    if a.Actor? { HubKeepsSaver(s, a.h); }
  }

  lemma HubKeepsSaver(s: State, a: HubAction)
    requires HubEnabled(s, a)
    ensures SaverKept(s, HubApply(s, a))
  {
    hide HandleApply, AnnounceApply, DeliverApply, DisconnectHub, DepartHub, ReclaimHub, Enumerates;
    if a.Handle? { HandleLeaves(s, a.c, a.at, a.order); } else { OthersLeave(s, a); }
  }

  /** What the others leave of a write pump's own state: they can only add to its channel,
      and not even that once the channel is closed. */
  ghost predicate WriterKept(k: Conn, k': Conn) {
    && k'.writing == k.writing && k'.open == k.open && k'.taken == k.taken && k.buf <= k'.buf
    && (!k.reader.Fresh? ==> !k'.reader.Fresh?) && (k.closed ==> k'.closed && k'.buf == k.buf)
  }

  lemma {:induction false} OthersKeepWriter(s: State, acts: seq<Action>, c: Client)
    requires Runs(s, acts) && NoneOwn(WritePumpOf(c), acts) && c in s.conns
    ensures c in Exec(s, acts).conns && WriterKept(s.conns[c], Exec(s, acts).conns[c])
    decreases |acts|
  {
    if acts != [] {
      assert !Own(WritePumpOf(c), acts[0]);
      assert NoneOwn(WritePumpOf(c), acts[1..]);
      OtherKeepsWriter(s, acts[0], c);
      OthersKeepWriter(Apply(s, acts[0]), acts[1..], c);
    }
  }

  lemma OtherKeepsWriter(s: State, a: Action, c: Client)
    requires Enabled(s, a) && !Own(WritePumpOf(c), a) && c in s.conns
    ensures c in Apply(s, a).conns && WriterKept(s.conns[c], Apply(s, a).conns[c])
  {
    hide HubEnabled, HubApply, WriterKept;
    if a.Actor? { HubKeepsPumps(s, a.h, c); }
    else if a.Pump? && a.c == c { ReaderKeepsWriter(s, c, a.p); }
    else { SameWriter(s.conns[c]); }
  }

  lemma SameWriter(k: Conn)
    ensures WriterKept(k, k)
  {
  }

  lemma ReaderKeepsWriter(s: State, c: Client, p: PumpAction)
    requires PumpEnabled(s, c, p) && !Own(WritePumpOf(c), Pump(c, p)) && c in s.conns
    ensures c in PumpApply(s, c, p).conns && WriterKept(s.conns[c], PumpApply(s, c, p).conns[c])
  {
  }

  /** What the others leave of a read pump's own state: only the hub moves it on, by taking
      what it offers. */
  ghost predicate ReaderKept(k: Conn, k': Conn) {
    && k'.said == k.said && k'.unwound == k.unwound && (k.closed ==> k'.closed) && (!k.open ==> !k'.open)
    && (k'.reader == k.reader || (k.reader.Submitting? && k'.reader.Reading?)
        || (k.reader.Unregistering? && k'.reader.Gone?) || k.reader.Fresh?)
  }

  lemma {:induction false} OthersKeepReader(s: State, acts: seq<Action>, c: Client)
    requires Runs(s, acts) && NoneOwn(ReadPumpOf(c), acts) && c in s.conns
    ensures c in Exec(s, acts).conns && ReaderKept(s.conns[c], Exec(s, acts).conns[c])
    decreases |acts|
  {
    if acts != [] {
      assert !Own(ReadPumpOf(c), acts[0]);
      assert NoneOwn(ReadPumpOf(c), acts[1..]);
      OtherKeepsReader(s, acts[0], c);
      OthersKeepReader(Apply(s, acts[0]), acts[1..], c);
    }
  }

  lemma OtherKeepsReader(s: State, a: Action, c: Client)
    requires Enabled(s, a) && !Own(ReadPumpOf(c), a) && c in s.conns
    ensures c in Apply(s, a).conns && ReaderKept(s.conns[c], Apply(s, a).conns[c])
  {
    if a.Actor? { HubKeepsPumps(s, a.h, c); }
  }

  lemma HubKeepsPumps(s: State, a: HubAction, c: Client)
    requires HubEnabled(s, a) && c in s.conns
    ensures c in HubApply(s, a).conns
    ensures WriterKept(s.conns[c], HubApply(s, a).conns[c]) && ReaderKept(s.conns[c], HubApply(s, a).conns[c])
  {
    hide HubEnabled, HubApply;
    HubMoves(s, a, c);
  }

  /** What the others leave of the hub's own state, and of everybody's channel: they take
      frames out, and add their own replies, but close nothing. */
  ghost predicate HubKept(s: State, s': State) {
    && s'.hub == s.hub && s'.log == s.log && s'.cfg == s.cfg && s'.conns.Keys == s.conns.Keys
    && s'.panicked == s.panicked && (Safe(s) ==> Safe(s'))
    && forall c | c in s.conns :: s'.conns[c].closed == s.conns[c].closed
  }

  lemma {:induction false} OthersKeepHub(s: State, acts: seq<Action>)
    requires Runs(s, acts) && NoneOwn(HubLoop, acts)
    ensures HubKept(s, Exec(s, acts))
    decreases |acts|
  {
    hide Safe;
    if acts != [] {
      assert !Own(HubLoop, acts[0]);
      assert NoneOwn(HubLoop, acts[1..]);
      OtherKeepsHub(s, acts[0]);
      OthersKeepHub(Apply(s, acts[0]), acts[1..]);
    }
  }

  lemma OtherKeepsHub(s: State, a: Action)
    requires Enabled(s, a) && !Own(HubLoop, a)
    ensures HubKept(s, Apply(s, a))
  {
    hide Safe, HubEnabled, HubApply, PumpConn;
    if Safe(s) { StepSafe(s, a); }
    if a.Pump? { PumpClosesNothing(a.c, if a.c in s.conns then s.conns[a.c] else NewConn(), a.p); }
  }

  lemma PumpClosesNothing(c: Client, k: Conn, p: PumpAction)
    ensures PumpConn(c, k, p).closed == k.closed
  {
  }
}

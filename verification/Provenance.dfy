/** What is accepted and delivered is what was read: every message of the log has the room and
    the text of one message frame of its sender. */
module Provenance {
  import opened Clients
  import opened Machine
  import opened Ordering

  datatype Spoken = Spoken(room: string, text: string)

  /** The message frames that the read pump of `c` has read along a run, in order. */
  function Heard(acts: seq<Action>, c: Client): seq<Spoken> {
    if acts == [] then []
    else
      var a := acts[|acts| - 1];
      Heard(acts[..|acts| - 1], c)
      + (if a.Pump? && a.c == c && a.p.ReadSay? then [Spoken(a.p.room, a.p.text)] else [])
  }

  lemma HeardThen(acts: seq<Action>, a: Action, c: Client)
    ensures Heard(acts + [a], c) ==
              if a.Pump? && a.c == c && a.p.ReadSay? then Heard(acts, c) + [Spoken(a.p.room, a.p.text)]
              else Heard(acts, c)
  {
    assert (acts + [a])[..|acts|] == acts;
  }

  /** One connection: how many messages it has read, and the one it is offering. */
  ghost predicate ConnFrom(heard: seq<Spoken>, k: Conn) {
    && |heard| == k.said
    && (k.reader.Submitting? && k.reader.cmd.Say? ==>
          k.reader.cmd.k < |heard| && heard[k.reader.cmd.k] == Spoken(k.reader.cmd.room, k.reader.cmd.text))
  }

  ghost predicate EntryFrom(heard: seq<Spoken>, e: Entry) {
    && e.k < |heard| && heard[e.k] == Spoken(e.m.room, e.m.content)
    && e.m.senderId == e.sender.id && e.m.senderName == e.sender.name
  }

  ghost predicate FromFrames(s: State, acts: seq<Action>) {
    && (forall c | c in s.conns :: ConnFrom(Heard(acts, c), s.conns[c]))
    && (forall i | 0 <= i < |acts| :: acts[i].Pump? ==> acts[i].c in s.conns)
    && (forall n | 0 <= n < |s.log| :: EntryFrom(Heard(acts, s.log[n].sender), s.log[n]))
  }

  lemma {:induction false} StrangersUnheard(acts: seq<Action>, c: Client)
    requires forall i | 0 <= i < |acts| :: acts[i].Pump? ==> acts[i].c != c
    ensures Heard(acts, c) == []
  {
    if acts != [] { StrangersUnheard(acts[..|acts| - 1], c); }
  }

  lemma PumpConnFrom(heard: seq<Spoken>, c: Client, k: Conn, p: PumpAction)
    requires ConnFrom(heard, k) && !p.Connect?
    ensures ConnFrom(if p.ReadSay? then heard + [Spoken(p.room, p.text)] else heard, PumpConn(c, k, p))
  {
  }

  lemma LongerHeard(heard: seq<Spoken>, more: seq<Spoken>, e: Entry)
    requires EntryFrom(heard, e)
    ensures EntryFrom(heard + more, e)
  {
  }

  lemma PumpFrom(s: State, acts: seq<Action>, c: Client, p: PumpAction)
    requires FromFrames(s, acts) && PumpEnabled(s, c, p)
    ensures FromFrames(PumpApply(s, c, p), acts + [Pump(c, p)])
  {
    hide Heard, ConnFrom, EntryFrom, PumpConn;
    var a := Pump(c, p); var s' := PumpApply(s, c, p); var more := acts + [a];
    forall d | d in s'.conns ensures ConnFrom(Heard(more, d), s'.conns[d]) {
      HeardThen(acts, a, d);
      if d == c && p.Connect? { StrangersUnheard(acts, c); FreshFrom(); }
      else if d == c { PumpConnFrom(Heard(acts, c), c, s.conns[c], p); }
    }
    forall n | 0 <= n < |s.log| ensures EntryFrom(Heard(more, s.log[n].sender), s.log[n]) {
      HeardThen(acts, a, s.log[n].sender);
      if p.ReadSay? { LongerHeard(Heard(acts, s.log[n].sender), [Spoken(p.room, p.text)], s.log[n]); }
    }
  }

  lemma FreshFrom()
    ensures ConnFrom([], NewConn())
  {
  }

  /** The hub changes no frame; taking a command takes the one on offer. */
  lemma HubFrom(s: State, acts: seq<Action>, a: HubAction)
    requires FromFrames(s, acts) && HubEnabled(s, a)
    ensures FromFrames(HubApply(s, a), acts + [Actor(a)])
  {
    hide Heard, ConnFrom, EntryFrom, HubEnabled, HubApply;
    var s' := HubApply(s, a); var more := acts + [Actor(a)];
    NobodyArrives(s, a);
    forall d | d in s'.conns ensures ConnFrom(Heard(more, d), s'.conns[d]) {
      HeardThen(acts, Actor(a), d);
      HubMoves(s, a, d);
      MovedFrom(Heard(acts, d), a, d, s.conns[d], s'.conns[d]);
    }
    forall n | 0 <= n < |s'.log| ensures Heard(more, s'.log[n].sender) == Heard(acts, s'.log[n].sender) {
      HeardThen(acts, Actor(a), s'.log[n].sender);
    }
    if a.Handle? { HandledFrom(s, acts, a); } else { OthersLeave(s, a); }
  }

  lemma MovedFrom(heard: seq<Spoken>, a: HubAction, c: Client, k: Conn, k': Conn)
    requires ConnFrom(heard, k) && MovedByHub(a, c, k, k')
    ensures ConnFrom(heard, k')
  {
  }

  lemma HandledFrom(s: State, acts: seq<Action>, a: HubAction)
    requires FromFrames(s, acts) && HubEnabled(s, a) && a.Handle?
    ensures forall n | 0 <= n < |HubApply(s, a).log| ::
              var e := HubApply(s, a).log[n]; EntryFrom(Heard(acts, e.sender), e)
  {
    hide HandleApply, Heard;
    Accepts(s, a.c, a.at, a.order);
  }

  lemma StepFrom(s: State, acts: seq<Action>, a: Action)
    requires FromFrames(s, acts) && Enabled(s, a)
    ensures FromFrames(Apply(s, a), acts + [a])
  {
    hide Heard, ConnFrom, EntryFrom;
    match a {
      case Pump(c, p) => PumpFrom(s, acts, c, p);
      case Actor(h) => HubFrom(s, acts, h);
      case _ =>
        forall d | d in s.conns ensures Heard(acts + [a], d) == Heard(acts, d) { HeardThen(acts, a, d); }
        forall n | 0 <= n < |s.log| ensures Heard(acts + [a], s.log[n].sender) == Heard(acts, s.log[n].sender) {
          HeardThen(acts, a, s.log[n].sender);
        }
    }
  }

  lemma {:induction false} RunFrom(s: State, before: seq<Action>, acts: seq<Action>)
    requires FromFrames(s, before) && Runs(s, acts)
    ensures FromFrames(Exec(s, acts), before + acts)
    decreases |acts|
  {
    hide FromFrames;
    if acts == [] {
      assert before + acts == before;
    } else {
      StepFrom(s, before, acts[0]);
      RunFrom(Apply(s, acts[0]), before + [acts[0]], acts[1..]);
      assert before + [acts[0]] + acts[1..] == before + acts;
    }
  }

  /** Every accepted message is, in room and text, one of the message frames its sender's read
      pump has read; and later messages of a sender are later frames. It carries its sender's
      identity and name. */
  lemma AcceptedAsRead(cfg: Config, acts: seq<Action>, n: nat)
    requires Runs(Init(cfg), acts) && n < |Exec(Init(cfg), acts).log|
    ensures var log := Exec(Init(cfg), acts).log; var e := log[n]; var frames := Heard(acts, e.sender);
      && e.k < |frames| && e.m.room == frames[e.k].room && e.m.content == frames[e.k].text
      && e.m.senderId == e.sender.id && e.m.senderName == e.sender.name
      && forall i | 0 <= i < n && log[i].sender == e.sender :: log[i].k < e.k
  {
    hide Runs, Exec;
    StartsFrom(cfg);
    RunFrom(Init(cfg), [], acts);
    assert [] + acts == acts;
    OrderedFromStart(cfg, acts);
    var s := Exec(Init(cfg), acts);
    assert EntryFrom(Heard(acts, s.log[n].sender), s.log[n]);
  }

  lemma StartsFrom(cfg: Config)
    ensures FromFrames(Init(cfg), [])
  {
  }
}

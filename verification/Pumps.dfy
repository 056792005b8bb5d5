/** The two goroutines of a connection, as loops over the channel they share with the hub.
    They take steps of the machine, with everybody else running in between; what arrives on
    the connection, which query fails, and which `select` case fires are arguments. */
module Pumps {
  import opened Protocol
  import opened Storage
  import opened Queries
  import opened Clients
  import opened Machine
  import opened Bystanders
  import opened Handshake

  /** A frame decoded from the connection. A join is followed by a history query, which the
      store may fail. */
  datatype Incoming =
    | WantsJoin(room: string, fault: bool)
    | WantsLeave(room: string)
    | WantsSay(room: string, text: string)
    | Unknown

  function Listed<T>(o: Option<T>): seq<T> { if o.Some? then [o.value] else [] }

  /** The command a frame stands for: frames without a room, messages without text and unknown
      frames are ignored. `said` messages have been read before. */
  function CommandOf(f: Incoming, said: nat): Option<Command> {
    match f
    case WantsJoin(room, _) => if room == "" then None else Some(Join(room))
    case WantsLeave(room) => if room == "" then None else Some(Leave(room))
    case WantsSay(room, text) => if room == "" || text == "" then None else Some(Say(room, text, said))
    case Unknown => None
  }

  predicate Says(f: Incoming) { f.WantsSay? && f.room != "" && f.text != "" }

  predicate Joins(f: Incoming) { f.WantsJoin? && f.room != "" }

  function Commands(ins: seq<Incoming>, said: nat): seq<Command> {
    if ins == [] then []
    else
      var before := ins[..|ins| - 1];
      Commands(before, said) + Listed(CommandOf(ins[|ins| - 1], said + Count(before)))
  }

  /** How many frames are messages. */
  function Count(ins: seq<Incoming>): nat {
    if ins == [] then 0 else Count(ins[..|ins| - 1]) + if Says(ins[|ins| - 1]) then 1 else 0
  }

  /** `cmd` is what the frame asks for. */
  ghost predicate Asks(f: Incoming, cmd: Command) {
    || (f.WantsJoin? && cmd.Join? && cmd.room == f.room)
    || (f.WantsLeave? && cmd.Leave? && cmd.room == f.room)
    || (f.WantsSay? && cmd.Say? && cmd.room == f.room && cmd.text == f.text)
  }

  /** The commands are what the frames at the places `src` ask for, one for one and in order;
      the other frames name no room, or carry no text, or are of no known kind. */
  ghost predicate StandFor(cmds: seq<Command>, ins: seq<Incoming>, src: seq<nat>) {
    && |src| == |cmds|
    && (forall i | 0 <= i < |src| :: src[i] < |ins| && Asks(ins[src[i]], cmds[i]))
    && (forall i, j | 0 <= i < j < |src| :: src[i] < src[j])
    && (forall q {:trigger q in src} | 0 <= q < |ins| ::
          q in src <==> !ins[q].Unknown? && ins[q].room != "" && (ins[q].WantsSay? ==> ins[q].text != ""))
  }

  lemma {:induction false} CommandsStand(ins: seq<Incoming>, said: nat) returns (src: seq<nat>)
    ensures StandFor(Commands(ins, said), ins, src)
    decreases |ins|
  {
    src := [];
    if ins != [] {
      hide StandFor;
      var n := |ins| - 1;
      var before := CommandsStand(ins[..n], said);
      assert ins[..n] + [ins[n]] == ins;
      CommandsConcat(ins[..n], ins[n], said);
      src := OneMoreStands(Commands(ins[..n], said), ins, before, said + Count(ins[..n]));
    }
  }

  lemma OneMoreStands(cmds: seq<Command>, ins: seq<Incoming>, before: seq<nat>, said: nat) returns (src: seq<nat>)
    requires ins != [] && StandFor(cmds, ins[..|ins| - 1], before)
    ensures StandFor(cmds + Listed(CommandOf(ins[|ins| - 1], said)), ins, src)
  {
    var n := |ins| - 1;
    var cmd := CommandOf(ins[n], said);
    src := before + (if cmd.Some? then [n] else []);
    assert forall q | 0 <= q < n :: ins[..n][q] == ins[q];
    assert cmd.Some? ==> src[|before|] == n && Asks(ins[n], cmd.value);
    assert forall q | 0 <= q < n :: q in src <==> q in before;
  }

  /** The serial numbers of the messages among some commands. */
  function Serials(cmds: seq<Command>): seq<nat> {
    if cmds == [] then []
    else Serials(cmds[..|cmds| - 1]) + if cmds[|cmds| - 1].Say? then [cmds[|cmds| - 1].k] else []
  }

  ghost predicate Consecutive(nos: seq<nat>, first: nat) {
    forall i | 0 <= i < |nos| :: nos[i] == first + i
  }

  /** Messages leave the read pump in the order they were read, numbered without
      a repeat or a gap. */
  lemma {:induction false} NumberedInOrder(ins: seq<Incoming>, said: nat)
    ensures Consecutive(Serials(Commands(ins, said)), said) && |Serials(Commands(ins, said))| == Count(ins)
    decreases |ins|
  {
    hide Serials, Consecutive, Commands, Count, CommandOf, Says;
    if ins == [] {
      NothingSaid(said);
    } else {
      var before, f := ins[..|ins| - 1], ins[|ins| - 1];
      assert before + [f] == ins;
      NumberedInOrder(before, said);
      CommandsConcat(before, f, said);
      OneMoreSerial(Commands(before, said), f, said + Count(before));
      OneMoreNumber(Serials(Commands(before, said)), said);
    }
  }

  lemma NothingSaid(said: nat)
    ensures Count([]) == 0 && Serials(Commands([], said)) == [] && Consecutive([], said)
  {
  }

  lemma OneMoreSerial(cmds: seq<Command>, f: Incoming, said: nat)
    ensures Serials(cmds + Listed(CommandOf(f, said))) == if Says(f) then Serials(cmds) + [said] else Serials(cmds)
  {
    if CommandOf(f, said).Some? {
      assert (cmds + [CommandOf(f, said).value])[..|cmds|] == cmds;
    } else {
      assert cmds + [] == cmds;
    }
  }

  lemma OneMoreNumber(nos: seq<nat>, first: nat)
    requires Consecutive(nos, first)
    ensures Consecutive(nos + [first + |nos|], first)
  {
  }

  // ---------------------------------------------------------------------------
  // Runs
  // ---------------------------------------------------------------------------

  /** The channel is as the machine's state says. */
  ghost predicate Mirrors(c: Client, s: State)
    reads c
  {
    c in s.conns && c.send == s.conns[c].buf && c.closed == s.conns[c].closed
  }

  ghost predicate Reaches(s: State, acts: seq<Action>, t: State) {
    Runs(s, acts) && t == Exec(s, acts)
  }

  lemma {:induction false} OfferedConcat(s: State, a: seq<Action>, b: seq<Action>, c: Client)
    requires Runs(s, a + b) && Runs(s, a) && Runs(Exec(s, a), b)
    ensures Offered(s, a + b, c) == Offered(s, a, c) + Offered(Exec(s, a), b, c)
    decreases |a|
  {
    if a == [] {
      assert a + b == b;
    } else {
      assert (a + b)[1..] == a[1..] + b;
      OfferedConcat(Apply(s, a[0]), a[1..], b, c);
    }
  }

  lemma {:induction false} OthersOfferNothing(s: State, acts: seq<Action>, c: Client)
    requires Runs(s, acts) && NoneOwn(ReadPumpOf(c), acts)
    ensures Offered(s, acts, c) == []
    decreases |acts|
  {
    if acts != [] {
      assert !Own(ReadPumpOf(c), acts[0]);
      assert NoneOwn(ReadPumpOf(c), acts[1..]);
      OthersOfferNothing(Apply(s, acts[0]), acts[1..], c);
    }
  }

  /** One step of this goroutine, at the end of a run. */
  lemma One(s: State, acts: seq<Action>, t: State, a: Action, c: Client)
    requires Reaches(s, acts, t) && Enabled(t, a)
    ensures Reaches(s, acts + [a], Apply(t, a))
    ensures Offered(s, acts + [a], c) == Offered(s, acts, c) + OfferedBy(t, a, c)
  {
    hide Apply, Enabled, OfferedBy;
    Then(s, acts, a);
    OfferedConcat(s, acts, [a], c);
    assert [a][1..] == [];
    assert OfferedBy(t, a, c) + [] == OfferedBy(t, a, c);
  }

  /** What everybody else does to the channel while a pump waits. */
  method Meanwhile(c: Client, ghost s: State, ghost before: seq<Action>, t: State, others: seq<Action>, who: Who)
    returns (t': State, ghost acts: seq<Action>)
    requires Reaches(s, before, t) && Mirrors(c, t) && (who == ReadPumpOf(c) || who == WritePumpOf(c))
    modifies c
    ensures Reaches(s, acts, t') && Mirrors(c, t')
    ensures who == WritePumpOf(c) ==> WriterKept(t.conns[c], t'.conns[c])
    ensures who == ReadPumpOf(c) ==> ReaderKept(t.conns[c], t'.conns[c]) && Offered(s, acts, c) == Offered(s, before, c)
  {
    hide Apply, Enabled, WriterKept, ReaderKept;
    ghost var more := Taken(t, others, who);
    t' := Exec(t, Taken(t, others, who));
    ExecConcat(s, before, more);
    acts := before + more;
    if who == WritePumpOf(c) {
      OthersKeepWriter(t, more, c);
    } else {
      OthersKeepReader(t, more, c);
      OthersOfferNothing(t, more, c);
      OfferedConcat(s, before, more, c);
    }
    c.send, c.closed := t'.conns[c].buf, t'.conns[c].closed;
  }

  // ---------------------------------------------------------------------------
  // The write pump
  // ---------------------------------------------------------------------------

  /** Which case of `writePump`'s select fires: the context is cancelled; the channel yields,
      and the write of a frame it yields succeeds or not; the ticker fires, and the ping
      succeeds or not. */
  datatype Wake = Cancelled | Ready(ok: bool) | Tick(ok: bool)

  /** One turn of the loop: what the others do before the select, and the case that fires. */
  datatype WriteTurn = WriteTurn(others: seq<Action>, wake: Wake)

  function Readies(turns: seq<WriteTurn>): nat {
    if turns == [] then 0
    else Readies(turns[..|turns| - 1]) + (if turns[|turns| - 1].wake.Ready? then 1 else 0)
  }

  /** The write pump is in its loop. */
  ghost predicate Writing(c: Client, s: State) {
    c in s.conns && s.conns[c].writing && s.conns[c].open && !s.conns[c].reader.Fresh? && !s.panicked
  }

  /** `writePump`: writes frames in the order they were queued, whatever is queued meanwhile,
      and ends for good once the channel is closed and drained. On its way out it closes the
      connection. If it ends, it has lost at most the frame whose write failed. */
  method WritePump(c: Client, s: State, turns: seq<WriteTurn>)
    returns (written: seq<Frame>, running: bool, s': State, ghost acts: seq<Action>, last: nat)
    requires Mirrors(c, s) && Writing(c, s)
    modifies c
    ensures Reaches(s, acts, s') && Mirrors(c, s')
    ensures running ==> Writing(c, s') && s'.conns[c].taken == s.conns[c].taken + written
    ensures !running && !s'.panicked ==> !s'.conns[c].writing && !s'.conns[c].open
    ensures s.conns[c].taken + written <= s'.conns[c].taken
    ensures |s'.conns[c].taken| <= |s.conns[c].taken| + |written| + 1
    ensures old(c.closed) && Readies(turns) > |old(c.send)| ==> !running
    ensures running ==> |written| >= if Readies(turns) < |old(c.send)| then Readies(turns) else |old(c.send)|
    ensures running ==> last == |turns|
    ensures forall i | 0 <= i < last :: i < |turns| && !turns[i].wake.Cancelled? && turns[i].wake != Tick(false)
    ensures !running && !s'.panicked ==>
              last < |turns| && Stops(turns[last].wake, c)
    ensures !running && !s'.panicked && (forall r | r in turns :: r.wake == Ready(true)) ==>
              c.closed && c.send == [] && s'.conns[c].taken == s.conns[c].taken + written
  {
    hide Apply, Enabled, WriterKept, Offered, Stops, Runs, Exec, Readies;
    NoReadies();
    Nothing(s, 0, c);
    written, running, s', acts, last := [], true, s, [], 0;
    ghost var alright := forall r | r in turns :: r.wake == Ready(true);
    while last < |turns|
      invariant 0 <= last <= |turns| && Reaches(s, acts, s') && Mirrors(c, s') && Writing(c, s') && running
      invariant s'.conns[c].taken == s.conns[c].taken + written
      invariant old(c.closed) ==> c.closed && Readies(turns[..last]) + |c.send| == |old(c.send)|
      invariant forall i | 0 <= i < last :: !turns[i].wake.Cancelled? && turns[i].wake != Tick(false)
      invariant |written| + |c.send| >= |old(c.send)|
      invariant |written| >= Readies(turns[..last]) || |written| >= |old(c.send)|
    {
      MoreReadies(turns, last);
      assert turns[last] in turns;
      var wrote;
      wrote, running, s', acts := WriteOnce(c, s, acts, s', turns[last]);
      written := written + Listed(wrote);
      if s'.panicked { return; }
      if !running {
        s', acts := CloseConnection(c, s, acts, s');
        return;
      }
      last := last + 1;
    }
    assert turns[..last] == turns;
  }

  lemma NoReadies()
    ensures Readies([]) == 0
  {
  }

  lemma MoreReadies(turns: seq<WriteTurn>, i: nat)
    requires i < |turns|
    ensures Readies(turns[..i + 1]) == Readies(turns[..i]) + if turns[i].wake.Ready? then 1 else 0
  {
    assert turns[..i + 1][..i] == turns[..i];
  }

  /** Why the loop has ended: a cancelled context, a ping or a write that failed, or a channel
      that is closed and drained. */
  ghost predicate Stops(wake: Wake, c: Client)
    reads c
  {
    match wake
    case Cancelled => true
    case Tick(ok) => !ok
    case Ready(ok) => !ok || (c.closed && c.send == [])
  }

  /** The select of `writePump`. */
  method WriteOnce(c: Client, ghost s: State, ghost before: seq<Action>, t: State, turn: WriteTurn)
    returns (wrote: Option<Frame>, more: bool, t': State, ghost acts: seq<Action>)
    requires Reaches(s, before, t) && Mirrors(c, t) && Writing(c, t)
    modifies c
    ensures Reaches(s, acts, t') && Mirrors(c, t') && (t'.panicked ==> !more && wrote.None?)
    ensures !t'.panicked ==> Writing(c, t')
    ensures old(c.closed) ==> c.closed
    ensures more ==> !turn.wake.Cancelled? && turn.wake != Tick(false)
    ensures more ==> t'.conns[c].taken == t.conns[c].taken + Listed(wrote)
    ensures more ==> |c.send| + |Listed(wrote)| >= |old(c.send)|
    ensures more && turn.wake.Ready? && wrote.None? ==> c.send == [] && !c.closed
    ensures more && old(c.closed) ==> |c.send| == |old(c.send)| - if turn.wake.Ready? then 1 else 0
    ensures !more ==> wrote.None? && t.conns[c].taken <= t'.conns[c].taken
    ensures !more ==> |t'.conns[c].taken| <= |t.conns[c].taken| + 1
    ensures !more && !t'.panicked ==> Stops(turn.wake, c)
    ensures !more && !t'.panicked && turn.wake == Ready(true) ==>
              c.closed && c.send == [] && t'.conns[c].taken == t.conns[c].taken
  {
    hide Apply, Enabled, WriterKept, Offered;
    wrote := None;
    t', acts := Meanwhile(c, s, before, t, turn.others, WritePumpOf(c));
    StillWriting(c, t, t');
    more := !t'.panicked;
    if t'.panicked { return; }
    match turn.wake {
      case Cancelled => more := false;
      case Ready(ok) =>
        if c.send != [] || c.closed {
          var f;
          f, t', acts := ReceiveFrame(c, s, acts, t');
          if f.None? {
            more := false;
          } else if ok {
            wrote := f;
          } else {
            more := false;
          }
        }
      case Tick(ok) => more := ok;
    }
  }

  lemma StillWriting(c: Client, s: State, s': State)
    requires Writing(c, s) && c in s'.conns && WriterKept(s.conns[c], s'.conns[c])
    ensures s'.panicked || Writing(c, s')
    ensures s'.conns[c].taken == s.conns[c].taken
    ensures s.conns[c].closed ==> s'.conns[c].closed && s'.conns[c].buf == s.conns[c].buf
    ensures |s.conns[c].buf| <= |s'.conns[c].buf|
  {
  }

  method ReceiveFrame(c: Client, ghost s: State, ghost before: seq<Action>, t: State)
    returns (f: Option<Frame>, t': State, ghost acts: seq<Action>)
    requires Reaches(s, before, t) && Mirrors(c, t) && Writing(c, t) && (c.send != [] || c.closed)
    modifies c`send
    ensures Reaches(s, acts, t') && Mirrors(c, t') && Writing(c, t')
    ensures if old(c.send) == [] then f.None? && t' == t
            else f.Some? && t'.conns[c].taken == t.conns[c].taken + [f.value] && |c.send| == |old(c.send)| - 1
  {
    t', acts := t, before;
    f := c.Receive();
    if f.Some? {
      One(s, acts, t, Pump(c, Take), c);
      acts, t' := acts + [Pump(c, Take)], Apply(t, Pump(c, Take));
    }
  }

  method CloseConnection(c: Client, ghost s: State, ghost before: seq<Action>, t: State)
    returns (t': State, ghost acts: seq<Action>)
    requires Reaches(s, before, t) && Mirrors(c, t) && Writing(c, t)
    ensures Reaches(s, acts, t') && Mirrors(c, t') && !t'.panicked
    ensures t'.conns[c] == t.conns[c].(writing := false, open := false)
  {
    var exit, close := Pump(c, WriterExit), Pump(c, CloseConn);
    One(s, before, t, exit, c);
    One(s, before + [exit], Apply(t, exit), close, c);
    acts, t' := before + [exit] + [close], Apply(Apply(t, exit), close);
  }

  // ---------------------------------------------------------------------------
  // The read pump
  // ---------------------------------------------------------------------------

  /** One turn of the loop: what the others do while the pump waits for a frame, whether the
      read then fails (the peer has gone, the context is cancelled, the frame is too long), the
      frame if not, and what the others do during the history query of a join and while the
      hub is busy. */
  datatype ReadTurn = ReadTurn(others: seq<Action>, fails: bool, f: Incoming, querying: seq<Action>,
                               waiting: seq<Action>)

  function Frames(turns: seq<ReadTurn>): seq<Incoming> {
    seq(|turns|, i requires 0 <= i < |turns| => turns[i].f)
  }

  /** How far the read pump has come when the turns run out: it waits for a frame; it waits
      for the hub; it is finished; it has panicked, and the deferred `Unregister` has run; or
      the process is gone. */
  datatype Ending = StillReading | Offering | Finished | Unwound | Dead

  /** The read pump is in its loop, waiting for a frame. */
  ghost predicate InLoop(c: Client, s: State) {
    c in s.conns && s.conns[c].reader.Reading? && !s.conns[c].unwound && !s.panicked
  }

  /** `History`: nothing without a store or a positive limit; otherwise the recent rows. */
  function Queried(s: State, room: string, fault: bool): HistoryResult {
    if !s.cfg.hasStore || s.cfg.historyLimit <= 0 then Loaded([])
    else if fault then Failed
    else Loaded(Recent(s.cold.table, room, s.cfg.historyLimit))
  }

  /** What the query for `room` may find in state `t`: without a store or a positive limit,
      nothing; otherwise a failure, or the newest rows of that room, at most as many as the
      configured limit. */
  ghost predicate Finds(t: State, room: string, fault: bool, ps: seq<nat>, result: HistoryResult) {
    if !t.cfg.hasStore || t.cfg.historyLimit <= 0 then result == Loaded([])
    else if fault then result == Failed
    else result.Loaded? && Shows(t.cold.table, room, t.cfg.historyLimit, ps, result.msgs)
  }

  lemma QueriedFinds(t: State, room: string, fault: bool) returns (ps: seq<nat>)
    ensures Finds(t, room, fault, ps, Queried(t, room, fault))
  {
    ps := [];
    if t.cfg.hasStore && t.cfg.historyLimit > 0 { ps := RecentShows(t.cold.table, room, t.cfg.historyLimit); }
  }

  /** The reply to a join, on the channel of connection `k`: one frame, the history if the query
      found some and an error if it failed; nothing if it found none, or if the channel is full
      or closed. */
  ghost predicate Replies(c: Client, room: string, result: HistoryResult, k: Conn, send: seq<Frame>) {
    if k.closed || |k.buf| >= c.depth || result == Loaded([]) then send == k.buf
    else
      && |send| == |k.buf| + 1 && k.buf <= send
      && (if result.Failed? then send[|k.buf|] == Error(room)
          else
            && send[|k.buf|].History? && send[|k.buf|].room == room && send[|k.buf|].msgs == result.msgs
            && send[|k.buf|].join == |k.joins|)
  }

  /** `readPump`: turns frames into commands, one for one and in order, each offered until the
      hub takes it. It ends when the connection does, or when a reply to a join meets a closed
      channel; then the join is not offered. Either way `Unregister` is the last it does. */
  method ReadPump(c: Client, s: State, turns: seq<ReadTurn>, unregistering: seq<Action>)
    returns (offered: seq<Command>, read: nat, ending: Ending, s': State, ghost acts: seq<Action>, ghost src: seq<nat>)
    requires Mirrors(c, s) && InLoop(c, s)
    modifies c
    ensures Reaches(s, acts, s') && Mirrors(c, s') && Offered(s, acts, c) == offered && read <= |turns|
    ensures ending.Dead? <==> s'.panicked
    ensures offered <= Commands(Frames(turns[..read]), s.conns[c].said)
    ensures ending.StillReading? || ending.Offering? || ending.Finished? ==>
              offered == Commands(Frames(turns[..read]), s.conns[c].said)
    ensures ending.StillReading? || ending.Offering? || ending.Finished? ==>
              StandFor(offered, Frames(turns[..read]), src)
    ensures ending.Unwound? ==> read > 0 && StandFor(offered, Frames(turns[..read - 1]), src)
    ensures ending.StillReading? ==> InLoop(c, s') && read == |turns|
    ensures forall i | 0 <= i < read :: !turns[i].fails
    ensures ending.Finished? ==> read < |turns| && (turns[read].fails || !s'.conns[c].open)
    ensures ending.Offering? ==> offered != [] && s'.conns[c].reader == Submitting(offered[|offered| - 1])
    ensures ending.Finished? || ending.Unwound? ==>
              s'.conns[c].reader.Gone? || (s'.conns[c].reader.Unregistering? && !s'.hub.stopped)
    ensures ending.Unwound? ==>
              c.closed && read > 0 && Joins(turns[read - 1].f)
              && offered == Commands(Frames(turns[..read - 1]), s.conns[c].said)
    ensures !ending.Dead? ==> (ending.Unwound? <==> s'.conns[c].unwound)
    ensures !s'.hub.stopped ==> |offered| == Takings(acts, c) + if s'.conns[c].reader.Submitting? then 1 else 0
    ensures !s'.hub.stopped && s'.conns[c].reader.Gone? ==> c !in s'.hub.clients
  {
    hide Apply, Enabled, ReaderKept, CommandOf, Says, Commands, Count, Offered, StandFor;
    Nothing(s, s.conns[c].said, c);
    offered, read, ending, s', acts := [], 0, StillReading, s, [];
    src := CommandsStand(Frames(turns[..read]), s.conns[c].said);
    while read < |turns|
      invariant 0 <= read <= |turns| && Reaches(s, acts, s') && Mirrors(c, s') && InLoop(c, s')
      invariant Offered(s, acts, c) == offered && offered == Commands(Frames(turns[..read]), s.conns[c].said)
      invariant forall i | 0 <= i < read :: !turns[i].fails
      invariant StandFor(offered, Frames(turns[..read]), src)
      invariant s'.conns[c].said == s.conns[c].said + Count(Frames(turns[..read]))
    {
      ghost var before := s';
      s', acts := Meanwhile(c, s, acts, s', turns[read].others, ReadPumpOf(c));
      StillInLoop(c, before, s');
      if s'.panicked { ending := Dead; Accounted(s, acts, c); return; }
      if turns[read].fails || !s'.conns[c].open {
        ending := Finished;
        s', acts := HangUp(c, s, acts, s', unregistering);
        if s'.panicked { ending := Dead; }
        Accounted(s, acts, c);
        return;
      }
      var cmd, unwound;
      ghost var soFar := offered;
      cmd, unwound, s', acts := ReadFrame(c, s, acts, s', turns[read]);
      OneMore(turns, read, s.conns[c].said);
      offered := offered + Listed(cmd);
      read := read + 1;
      if s'.panicked { ending := Dead; Accounted(s, acts, c); return; }
      if unwound {
        ending := Unwound;
        assert offered == soFar;
        s', acts := Unregister(c, s, acts, s', unregistering);
        if s'.panicked { ending := Dead; }
        Accounted(s, acts, c);
        return;
      }
      src := CommandsStand(Frames(turns[..read]), s.conns[c].said);
      if !s'.conns[c].reader.Reading? { ending := Offering; Accounted(s, acts, c); return; }
    }
    Accounted(s, acts, c);
  }

  lemma Accounted(s: State, acts: seq<Action>, c: Client)
    requires Runs(s, acts) && c in s.conns && s.conns[c].reader.Reading?
    ensures var t := Exec(s, acts);
      && c in t.conns
      && (!t.hub.stopped ==> |Offered(s, acts, c)| == Takings(acts, c) + if t.conns[c].reader.Submitting? then 1 else 0)
      && (!t.hub.stopped && t.conns[c].reader.Gone? ==> c !in t.hub.clients)
  {
    if !Exec(s, acts).hub.stopped { OffersAreTaken(s, acts, c); }
    GoneMeansOut(s, acts, c);
  }

  lemma Nothing(s: State, said: nat, c: Client)
    ensures Reaches(s, [], s) && Offered(s, [], c) == [] && Commands(Frames([]), said) == [] && Count(Frames([])) == 0
  {
  }

  lemma CommandsConcat(a: seq<Incoming>, f: Incoming, said: nat)
    ensures Commands(a + [f], said) == Commands(a, said) + Listed(CommandOf(f, said + Count(a)))
    ensures Count(a + [f]) == Count(a) + if Says(f) then 1 else 0
  {
    assert (a + [f])[..|a|] == a;
  }

  lemma OneMore(turns: seq<ReadTurn>, i: nat, said: nat)
    requires i < |turns|
    ensures var pre := Frames(turns[..i]);
      && Commands(Frames(turns[..i + 1]), said)
         == Commands(pre, said) + Listed(CommandOf(turns[i].f, said + Count(pre)))
      && Count(Frames(turns[..i + 1])) == Count(pre) + if Says(turns[i].f) then 1 else 0
  {
    assert Frames(turns[..i + 1]) == Frames(turns[..i]) + [turns[i].f];
    CommandsConcat(Frames(turns[..i]), turns[i].f, said);
  }

  lemma StillInLoop(c: Client, s: State, s': State)
    requires InLoop(c, s) && c in s'.conns && ReaderKept(s.conns[c], s'.conns[c])
    ensures s'.panicked || InLoop(c, s')
    ensures s'.conns[c].said == s.conns[c].said
  {
  }

  /** The switch of `readPump`. */
  method ReadFrame(c: Client, ghost s: State, ghost before: seq<Action>, t: State, turn: ReadTurn)
    returns (cmd: Option<Command>, unwound: bool, t': State, ghost acts: seq<Action>)
    requires Reaches(s, before, t) && Mirrors(c, t) && InLoop(c, t) && t.conns[c].open
    modifies c
    ensures Reaches(s, acts, t') && Mirrors(c, t') && Offered(s, acts, c) == Offered(s, before, c) + Listed(cmd)
    ensures cmd == CommandOf(turn.f, t.conns[c].said) || (cmd.None? && (unwound || t'.panicked))
    ensures unwound ==>
              cmd.None? && Joins(turn.f) && c.closed && !t'.panicked
              && t'.conns[c].reader.Unregistering? && t'.conns[c].unwound
    ensures !unwound && !t'.panicked ==>
              && !t'.conns[c].unwound
              && t'.conns[c].said == t.conns[c].said + (if Says(turn.f) then 1 else 0)
              && (t'.conns[c].reader.Reading? || (cmd.Some? && t'.conns[c].reader == Submitting(cmd.value)))
  {
    hide Apply, Enabled, ReaderKept, OfferedBy, Own, Offered;
    cmd, unwound, t', acts := None, false, t, before;
    match turn.f {
      case WantsJoin(room, fault) =>
        if room != "" {
          ghost var result, ps, due;
          cmd, unwound, t', acts, result, ps, due := HandleJoin(c, s, before, t, room, fault, turn.querying);
        }
      case WantsLeave(room) =>
        if room != "" {
          cmd := Some(Leave(room));
          t', acts := ReadCommand(c, s, before, t, cmd.value);
        }
      case WantsSay(room, text) =>
        if room != "" && text != "" {
          cmd := Some(Say(room, text, t.conns[c].said));
          t', acts := ReadCommand(c, s, before, t, cmd.value);
        }
      case Unknown =>
    }
    if cmd.Some? { t', acts := Submit(c, s, acts, t', turn.waiting); }
  }

  /** A frame that stands for a command by itself. */
  method ReadCommand(c: Client, ghost s: State, ghost before: seq<Action>, t: State, cmd: Command)
    returns (t': State, ghost acts: seq<Action>)
    requires Reaches(s, before, t) && Mirrors(c, t) && InLoop(c, t) && t.conns[c].open && !cmd.Join? && cmd.room != ""
    requires cmd.Say? ==> cmd.text != "" && cmd.k == t.conns[c].said
    ensures Reaches(s, acts, t') && Mirrors(c, t') && Offered(s, acts, c) == Offered(s, before, c) + [cmd]
    ensures !t'.panicked && !t'.conns[c].unwound && t'.conns[c].reader == Submitting(cmd)
    ensures t'.conns[c].said == t.conns[c].said + if cmd.Say? then 1 else 0
  {
    hide Apply, Enabled, Offered, OfferedBy;
    if cmd.Leave? { LeaveFacts(t, c, cmd.room); } else { SayFacts(t, c, cmd.room, cmd.text); }
    var a := Pump(c, if cmd.Leave? then ReadLeave(cmd.room) else ReadSay(cmd.room, cmd.text));
    One(s, before, t, a, c);
    acts, t' := before + [a], Apply(t, a);
  }

  lemma LeaveFacts(t: State, c: Client, room: string)
    requires InLoop(c, t) && t.conns[c].open && room != ""
    ensures var a := Pump(c, ReadLeave(room));
      && Enabled(t, a) && OfferedBy(t, a, c) == [Leave(room)]
      && Apply(t, a) == t.(conns := t.conns[c := t.conns[c].(reader := Submitting(Leave(room)))])
  {
  }

  lemma SayFacts(t: State, c: Client, room: string, text: string)
    requires InLoop(c, t) && t.conns[c].open && room != "" && text != ""
    ensures var a := Pump(c, ReadSay(room, text)); var k := t.conns[c];
      && Enabled(t, a) && OfferedBy(t, a, c) == [Say(room, text, k.said)]
      && Apply(t, a) == t.(conns := t.conns[c := k.(reader := Submitting(Say(room, text, k.said)), said := k.said + 1)])
  {
  }

  /** `handleJoin`: the history query, the reply to it, then the join. The reply is sent on
      the pump's own channel, which the hub may have closed: then the pump panics. */
  method HandleJoin(c: Client, ghost s: State, ghost before: seq<Action>, t: State,
                    room: string, fault: bool, querying: seq<Action>)
    returns (cmd: Option<Command>, unwound: bool, t': State, ghost acts: seq<Action>,
             ghost result: HistoryResult, ghost ps: seq<nat>, ghost due: State)
    requires Reaches(s, before, t) && Mirrors(c, t) && InLoop(c, t) && t.conns[c].open && room != ""
    modifies c
    ensures Reaches(s, acts, t') && Mirrors(c, t') && Offered(s, acts, c) == Offered(s, before, c) + Listed(cmd)
    ensures !t'.panicked ==> cmd == if unwound then None else Some(Join(room))
    ensures t'.panicked ==> cmd.None? && !unwound
    ensures !t'.panicked ==>
              t'.conns[c].unwound == unwound && t'.conns[c].said == t.conns[c].said
              && t'.conns[c].reader == if unwound then Unregistering else Submitting(Join(room))
    ensures !t'.panicked ==> (unwound <==> c.closed && result != Loaded([]))
    ensures Finds(t, room, fault, ps, result)
    ensures !t'.panicked ==>
              acts != [] && acts[|acts| - 1] == Pump(c, Answer) && Reaches(s, acts[..|acts| - 1], due)
              && c in due.conns && c.closed == due.conns[c].closed && Replies(c, room, result, due.conns[c], c.send)
  {
    hide Apply, Enabled, ReaderKept, Recent, OfferedBy, Own, Offered;
    var found := Queried(t, room, fault);
    result, due := found, t;
    ps := QueriedFinds(t, room, fault);
    cmd, unwound := None, false;
    var read := Pump(c, ReadJoin(room, found));
    JoinFacts(t, c, room, fault);
    One(s, before, t, read, c);
    acts, t' := before + [read], Apply(t, read);
    ghost var asked := t';
    t', acts := Meanwhile(c, s, acts, t', querying, ReadPumpOf(c));
    StillAnswering(c, asked, t');
    if t'.panicked { return; }
    due := t';
    AnswerFacts(t', c);
    var sent := Sent;
    match found {
      case Failed => sent := c.Enqueue(Error(room));
      case Loaded(msgs) => if |msgs| > 0 { sent := c.Enqueue(History(room, msgs, |t'.conns[c].joins|)); }
    }
    One(s, acts, t', Pump(c, Answer), c);
    assert (acts + [Pump(c, Answer)])[..|acts|] == acts;
    acts, t' := acts + [Pump(c, Answer)], Apply(t', Pump(c, Answer));
    unwound := sent == Panics;
    if !unwound { cmd := Some(Join(room)); }
  }

  lemma JoinFacts(t: State, c: Client, room: string, fault: bool)
    requires InLoop(c, t) && t.conns[c].open && room != ""
    ensures var a := Pump(c, ReadJoin(room, Queried(t, room, fault)));
      && Enabled(t, a) && OfferedBy(t, a, c) == []
      && Apply(t, a) == t.(conns := t.conns[c := t.conns[c].(reader := Answering(room, Queried(t, room, fault)))])
  {
  }

  lemma StillAnswering(c: Client, s: State, s': State)
    requires c in s.conns && c in s'.conns && s.conns[c].reader.Answering? && ReaderKept(s.conns[c], s'.conns[c])
    ensures s'.conns[c].reader == s.conns[c].reader && s'.conns[c].said == s.conns[c].said
    ensures s'.conns[c].unwound == s.conns[c].unwound
  {
  }

  lemma AnswerFacts(t: State, c: Client)
    requires c in t.conns && t.conns[c].reader.Answering? && !t.panicked && !t.conns[c].unwound
    ensures var a := Pump(c, Answer); var k := t.conns[c]; var t' := Apply(t, a);
      && Enabled(t, a) && t' == t.(conns := t.conns[c := t'.conns[c]])
      && (if Reply(k).Some? && k.closed then
            t'.conns[c] == k.(reader := Unregistering, unwound := true) && OfferedBy(t, a, c) == []
          else
            && t'.conns[c] == (if Reply(k).Some? then Push(c, k, Reply(k).value) else k)
                              .(reader := Submitting(Join(k.reader.room)))
            && OfferedBy(t, a, c) == [Join(k.reader.room)])
  {
  }

  /** `Submit`: offers a command until the hub takes it or has stopped. */
  method Submit(c: Client, ghost s: State, ghost before: seq<Action>, t: State, waiting: seq<Action>)
    returns (t': State, ghost acts: seq<Action>)
    requires Reaches(s, before, t) && Mirrors(c, t) && !t.panicked
    requires t.conns[c].reader.Submitting? && !t.conns[c].unwound
    modifies c
    ensures Reaches(s, acts, t') && Mirrors(c, t') && Offered(s, acts, c) == Offered(s, before, c)
    ensures t'.panicked || t'.conns[c].reader.Reading?
         || (t'.conns[c].reader == t.conns[c].reader && !t'.hub.stopped)
    ensures t'.conns[c].said == t.conns[c].said && !t'.conns[c].unwound
  {
    hide Apply, Enabled;
    t', acts := Meanwhile(c, s, before, t, waiting, ReadPumpOf(c));
    if !t'.panicked && t'.conns[c].reader.Submitting? && t'.hub.stopped {
      GiveUpFacts(t', c);
      One(s, acts, t', Pump(c, GiveUp), c);
      acts, t' := acts + [Pump(c, GiveUp)], Apply(t', Pump(c, GiveUp));
    }
  }

  lemma GiveUpFacts(t: State, c: Client)
    requires c in t.conns && !t.panicked && t.hub.stopped
    requires t.conns[c].reader.Submitting? || t.conns[c].reader.Unregistering?
    ensures var a := Pump(c, GiveUp); var k := t.conns[c];
      && Enabled(t, a) && OfferedBy(t, a, c) == []
      && Apply(t, a) == t.(conns := t.conns[c := k.(reader := if k.reader.Submitting? then Reading else Gone)])
  {
  }

  /** The connection has failed: `readPump` returns. */
  method HangUp(c: Client, ghost s: State, ghost before: seq<Action>, t: State, unregistering: seq<Action>)
    returns (t': State, ghost acts: seq<Action>)
    requires Reaches(s, before, t) && Mirrors(c, t) && InLoop(c, t)
    modifies c
    ensures Reaches(s, acts, t') && Mirrors(c, t') && Offered(s, acts, c) == Offered(s, before, c)
    ensures !t'.conns[c].unwound && (!t.conns[c].open ==> !t'.conns[c].open)
    ensures t'.panicked || t'.conns[c].reader.Gone? || (t'.conns[c].reader.Unregistering? && !t'.hub.stopped)
  {
    hide Apply, Enabled;
    FailFacts(t, c);
    One(s, before, t, Pump(c, ReadFail), c);
    acts, t' := before + [Pump(c, ReadFail)], Apply(t, Pump(c, ReadFail));
    t', acts := Unregister(c, s, acts, t', unregistering);
  }

  lemma FailFacts(t: State, c: Client)
    requires InLoop(c, t)
    ensures var a := Pump(c, ReadFail);
      && Enabled(t, a) && OfferedBy(t, a, c) == []
      && Apply(t, a) == t.(conns := t.conns[c := t.conns[c].(reader := Unregistering)])
  {
  }

  /** `Unregister`: offers to leave until the hub takes it or has stopped. */
  method Unregister(c: Client, ghost s: State, ghost before: seq<Action>, t: State, unregistering: seq<Action>)
    returns (t': State, ghost acts: seq<Action>)
    requires Reaches(s, before, t) && Mirrors(c, t) && !t.panicked && t.conns[c].reader.Unregistering?
    modifies c
    ensures Reaches(s, acts, t') && Mirrors(c, t') && Offered(s, acts, c) == Offered(s, before, c)
    ensures t'.conns[c].unwound == t.conns[c].unwound && (t.conns[c].closed ==> c.closed)
    ensures !t.conns[c].open ==> !t'.conns[c].open
    ensures t'.panicked || t'.conns[c].reader.Gone? || (t'.conns[c].reader.Unregistering? && !t'.hub.stopped)
  {
    hide Apply, Enabled;
    t', acts := Meanwhile(c, s, before, t, unregistering, ReadPumpOf(c));
    if !t'.panicked && t'.conns[c].reader.Unregistering? && t'.hub.stopped {
      GiveUpFacts(t', c);
      One(s, acts, t', Pump(c, GiveUp), c);
      acts, t' := acts + [Pump(c, GiveUp)], Apply(t', Pump(c, GiveUp));
    }
  }
}

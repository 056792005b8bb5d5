/** The whole server as a state machine. One action is one atomic step of one goroutine:
    an operation on a channel, a map the hub owns, the table, or a connection. The hub's
    handling of one event is many actions, so pumps and persister run in between.
    A connection is named by its `Client` object; the machine reads only its constants. */
module Machine {
  import opened Protocol
  import opened Storage
  import opened Clients

  /** `found` is what the table holds when the server starts: saves of earlier runs. */
  datatype Config = Config(hasStore: bool, micros: bool, historyLimit: int, queueDepth: nat, found: seq<Message>)

  /** The rows of `found`, numbered so as to come before the first message of this run. */
  function Found(cfg: Config): seq<Message> {
    seq(|cfg.found|, i requires 0 <= i < |cfg.found| =>
      Row(cfg.found[i], cfg.micros, cfg.found[i].id).(no := i - |cfg.found|))
  }

  // ---------------------------------------------------------------------------
  // State
  // ---------------------------------------------------------------------------

  /** Where a connection's own goroutine is: waiting to register, waiting in
      `conn.Read`, holding the history for a join, offering a command to the hub,
      offering to unregister, or finished. */
  datatype Reader =
    | Fresh
    | Reading
    | Answering(room: string, result: HistoryResult)
    | Submitting(cmd: Command)
    | Unregistering
    | Gone

  /** One connection: the bounded channel between hub and write pump, and both pumps.
      `taken`, `said`, `joins`, `overflow` and `unwound` are history: the frames the write
      pump has received, the number of messages read, the number of messages accepted when
      each join was handled, whether a delivery found the channel full, and whether the
      read pump has panicked. */
  datatype Conn = Conn(buf: seq<Frame>, closed: bool, reader: Reader, writing: bool, open: bool,
                       taken: seq<Frame>, said: nat, joins: seq<nat>, overflow: bool, unwound: bool)

  function Stream(k: Conn): seq<Frame> { k.taken + k.buf }

  /** The hub's place inside the event it is handling, innermost work first: members still
      to be told about a membership change, a room to delete if empty, the client being
      disconnected and the rooms still to be ranged over, members still to receive the
      message, slow clients still to be dropped, the message to hand to the persister. */
  datatype Ctl = Ctl(ann: Frame, annTodo: set<Client>, reclaim: Option<string>,
                     leaving: Option<Client>, leaveTodo: set<string>,
                     deliver: set<Client>, slow: seq<Client>, handoff: Option<Message>)

  const QUIET := Ctl(Error(""), {}, None, None, {}, {}, [], None)

  predicate Idle(k: Ctl) {
    k.annTodo == {} && k.reclaim.None? && k.leaving.None? && k.deliver == {} && k.slow == [] && k.handoff.None?
  }

  /** History: the latest announcement in a room, the member order its names were read
      in, and the members whose channel was full when it was their turn. */
  datatype Announcement = Announcement(frame: Frame, order: seq<Client>, missed: set<Client>)

  datatype HubState = HubState(clients: set<Client>, rooms: map<string, set<Client>>, ctl: Ctl, stopped: bool,
                               total: int, rate: int, sampled: int,
                               anns: map<string, Announcement>, rates: seq<int>)

  datatype Worker = Waiting | Saving(m: Message, draining: bool) | Draining | Exited

  datatype Attempt = Attempt(m: Message, saved: bool)

  /** The cold path. `processed`, `dropped`, `late` and `hubDown` are history: the
      messages given to `SaveMessage`, the messages dropped at the hand-off, those handed
      off after the persister had returned, and whether the hub had stopped by then. */
  datatype Cold = Cold(queue: seq<Message>, worker: Worker, table: seq<Message>,
                       processed: seq<Attempt>, dropped: seq<Message>, late: seq<Message>, hubDown: bool)

  /** History: one accepted message, the connection that sent it, its place among the
      messages read from that connection, and the members it is due to. */
  datatype Entry = Entry(m: Message, sender: Client, k: nat, to: set<Client>)

  datatype State = State(cfg: Config, hub: HubState, conns: map<Client, Conn>, cold: Cold,
                         log: seq<Entry>, cancelled: bool, panicked: bool)

  function Init(cfg: Config): State {
    State(cfg, HubState({}, map[], QUIET, false, 0, 0, 0, map[], []), map[],
          Cold([], Waiting, Found(cfg), [], [], [], false), [], false, false)
  }

  // ---------------------------------------------------------------------------
  // Actions
  // ---------------------------------------------------------------------------

  /** Steps of one connection's goroutines. */
  datatype PumpAction =
    | Connect
    | ReadJoin(room: string, result: HistoryResult)
    | Answer
    | ReadLeave(room: string)
    | ReadSay(room: string, text: string)
    | ReadFail
    | GiveUp
    | Take
    | WriterExit
    | CloseConn

  /** Steps of the hub goroutine: receiving an event, then working through it. `order` is
      the order in which a range over a member map happened to yield the members. */
  datatype HubAction =
    | Register(c: Client)
    | Unregister(c: Client)
    | Handle(c: Client, at: int, order: seq<Client>)
    | Sample
    | Stop
    | Announce(c: Client)
    | Reclaim
    | Depart(room: string, order: seq<Client>)
    | CloseSend
    | Deliver(c: Client)
    | NextSlow
    | HandOff(sent: bool)

  /** Steps of the persister goroutine. */
  datatype ColdAction =
    | Receive
    | Save(id: Option<int>, now: int)
    | StartDrain
    | Exit

  datatype Action =
    | Pump(c: Client, p: PumpAction)
    | Actor(h: HubAction)
    | Persist(w: ColdAction)
    | Cancel

  predicate Enumerates(order: seq<Client>, s: set<Client>) {
    && (forall i, j | 0 <= i < j < |order| :: order[i] != order[j])
    && (forall c | c in order :: c in s)
    && (forall c | c in s :: c in order)
  }

  function Names(order: seq<Client>): seq<string> {
    seq(|order|, i requires 0 <= i < |order| => order[i].name)
  }

  // ---------------------------------------------------------------------------
  // The pumps
  // ---------------------------------------------------------------------------

  /** A non-blocking send: dropped when the channel is full. */
  function Push(c: Client, k: Conn, f: Frame): Conn {
    if |k.buf| < c.depth then k.(buf := k.buf + [f]) else k
  }

  /** What the history query may give: nothing without a store or a positive limit;
      otherwise the recent rows, or a failure. */
  predicate HistoryOutcome(s: State, room: string, result: HistoryResult) {
    if !s.cfg.hasStore || s.cfg.historyLimit <= 0 then result == Loaded([])
    else result.Failed? || result == Loaded(Recent(s.cold.table, room, s.cfg.historyLimit))
  }

  predicate PumpEnabled(s: State, c: Client, p: PumpAction) {
    if p.Connect? then c !in s.conns
    else
      && c in s.conns
      && var k := s.conns[c];
      match p
      case ReadJoin(room, result) => k.reader.Reading? && k.open && room != "" && HistoryOutcome(s, room, result)
      case Answer => k.reader.Answering?
      case ReadLeave(room) => k.reader.Reading? && k.open && room != ""
      case ReadSay(room, text) => k.reader.Reading? && k.open && room != "" && text != ""
      case ReadFail => k.reader.Reading?
      case GiveUp => s.hub.stopped && (k.reader.Fresh? || k.reader.Submitting? || k.reader.Unregistering?)
      case Take => k.writing && k.buf != []
      case WriterExit => k.writing && !k.reader.Fresh?
      case CloseConn => !k.writing && k.open
      case Connect => true
  }

  /** The frame a read pump queues for its own client before it submits a join. */
  function Reply(k: Conn): Option<Frame>
    requires k.reader.Answering?
  {
    match k.reader.result
    case Failed => Some(Error(k.reader.room))
    case Loaded(msgs) => if msgs == [] then None else Some(History(k.reader.room, msgs, |k.joins|))
  }

  /** A read pump that sends on its closed channel panics. It runs on the goroutine of its
      HTTP handler, whose server recovers: the deferred `Unregister` is what is left of it,
      the join is never submitted, and nobody else notices. */
  function PumpConn(c: Client, k: Conn, p: PumpAction): Conn {
    match p
    case Connect => k
    case ReadJoin(room, result) => k.(reader := Answering(room, result))
    case Answer =>
      if !k.reader.Answering? then k
      else if Reply(k).Some? && k.closed then k.(reader := Unregistering, unwound := true)
      else
        var sent := if Reply(k).Some? then Push(c, k, Reply(k).value) else k;
        sent.(reader := Submitting(Join(k.reader.room)))
    case ReadLeave(room) => k.(reader := Submitting(Leave(room)))
    case ReadSay(room, text) => k.(reader := Submitting(Say(room, text, k.said)), said := k.said + 1)
    case ReadFail => k.(reader := Unregistering)
    case GiveUp => k.(reader := if k.reader.Unregistering? then Gone else Reading)
    case Take => if k.buf == [] then k else k.(buf := k.buf[1..], taken := k.taken + [k.buf[0]])
    case WriterExit => k.(writing := false)
    case CloseConn => k.(open := false)
  }

  function NewConn(): Conn { Conn([], false, Fresh, true, true, [], 0, [], false, false) }

  function PumpApply(s: State, c: Client, p: PumpAction): State
    requires PumpEnabled(s, c, p)
  {
    if p.Connect? then s.(conns := s.conns[c := NewConn()])
    else s.(conns := s.conns[c := PumpConn(c, s.conns[c], p)])
  }

  // ---------------------------------------------------------------------------
  // The hub
  // ---------------------------------------------------------------------------

  /** Events are received only between events, and only what a goroutine is offering;
      the work of an event is done innermost first. */
  predicate HubEnabled(s: State, a: HubAction) {
    var h := s.hub; var k := h.ctl;
    && !h.stopped
    && match a
       case Register(c) => Idle(k) && c in s.conns && s.conns[c].reader.Fresh?
       case Unregister(c) => Idle(k) && c in s.conns && s.conns[c].reader.Unregistering?
       case Handle(c, at, order) =>
         && Idle(k) && c in s.conns && s.conns[c].reader.Submitting? && at != NO_TIME
         && (match s.conns[c].reader.cmd
             case Join(room) => Enumerates(order, Members(h, room) + {c})
             case Leave(room) => Enumerates(order, Members(h, room) - {c})
             case Say(_, _, _) => true)
       case Sample => Idle(k)
       case Stop => Idle(k) && s.cancelled
       case Announce(c) => c in k.annTodo && c in s.conns
       case Reclaim => k.annTodo == {} && k.reclaim.Some?
       case Depart(room, order) =>
         && k.annTodo == {} && k.reclaim.None? && k.leaving.Some? && room in k.leaveTodo && room in h.rooms
         && Enumerates(order, h.rooms[room] - {k.leaving.value})
       case CloseSend =>
         k.annTodo == {} && k.reclaim.None? && k.leaving.Some? && k.leaveTodo == {} && k.leaving.value in s.conns
       case Deliver(c) =>
         && k.annTodo == {} && k.reclaim.None? && k.leaving.None? && k.handoff.Some?
         && c in k.deliver && c in s.conns
       case NextSlow =>
         k.annTodo == {} && k.reclaim.None? && k.leaving.None? && k.deliver == {} && k.slow != []
       case HandOff(sent) =>
         && k.annTodo == {} && k.reclaim.None? && k.leaving.None? && k.deliver == {} && k.slow == []
         && k.handoff.Some?
         && (if sent then |s.cold.queue| < s.cfg.queueDepth
             else s.cancelled || |s.cold.queue| >= s.cfg.queueDepth)
  }

  function Members(h: HubState, room: string): set<Client> {
    if room in h.rooms then h.rooms[room] else {}
  }

  /** The start of `broadcastPresence`: the frame is built from the current members, who
      are then ranged over. */
  function Announcing(h: HubState, room: string, user: string, joined: bool, order: seq<Client>): HubState {
    var frame := Presence(room, user, joined, Names(order));
    h.(ctl := h.ctl.(ann := frame, annTodo := Members(h, room)),
       anns := h.anns[room := Announcement(frame, order, {})])
  }

  function JoinHub(h: HubState, c: Client, room: string, order: seq<Client>): HubState {
    Announcing(h.(rooms := h.rooms[room := Members(h, room) + {c}]), room, c.name, true, order)
  }

  function LeaveHub(h: HubState, c: Client, room: string, order: seq<Client>): HubState {
    if room !in h.rooms then h
    else
      var h' := Announcing(h.(rooms := h.rooms[room := h.rooms[room] - {c}]), room, c.name, false, order);
      h'.(ctl := h'.ctl.(reclaim := Some(room)))
  }

  /** The start of `disconnect`: nothing for a client that is not in the client set. */
  function DisconnectHub(h: HubState, c: Client): HubState {
    if c !in h.clients then h
    else h.(clients := h.clients - {c}, ctl := h.ctl.(leaving := Some(c), leaveTodo := h.rooms.Keys))
  }

  function DepartHub(h: HubState, room: string, order: seq<Client>): HubState
    requires h.ctl.leaving.Some? && room in h.rooms
  {
    var c := h.ctl.leaving.value;
    var h' := h.(ctl := h.ctl.(leaveTodo := h.ctl.leaveTodo - {room}));
    if c !in h.rooms[room] then h' else LeaveHub(h', c, room, order)
  }

  function ReclaimHub(h: HubState): HubState
    requires h.ctl.reclaim.Some?
  {
    var room := h.ctl.reclaim.value;
    h.(rooms := if room in h.rooms && h.rooms[room] == {} then h.rooms - {room} else h.rooms,
       ctl := h.ctl.(reclaim := None))
  }

  /** The hub receives the command a read pump is offering; the pump goes back to reading. */
  function HandleApply(s: State, c: Client, at: int, order: seq<Client>): State
    requires c in s.conns && s.conns[c].reader.Submitting?
  {
    var k := s.conns[c].(reader := Reading);
    match s.conns[c].reader.cmd
    case Join(room) =>
      s.(conns := s.conns[c := k.(joins := k.joins + [|s.log|])], hub := JoinHub(s.hub, c, room, order))
    case Leave(room) => s.(conns := s.conns[c := k], hub := LeaveHub(s.hub, c, room, order))
    case Say(room, text, j) =>
      var s' := s.(conns := s.conns[c := k]);
      if room !in s.hub.rooms then s'
      else
        var m := Message(0, room, c.id, c.name, text, at, |s.log|);
        var to := s.hub.rooms[room] - {c};
        s'.(log := s.log + [Entry(m, c, j, to)],
            hub := s.hub.(total := s.hub.total + 1,
                          ctl := s.hub.ctl.(deliver := to, handoff := Some(m))))
  }

  function AnnounceApply(s: State, c: Client): State
    requires c in s.conns
  {
    var h := s.hub;
    if s.conns[c].closed then s.(panicked := true)
    else
      var room := if h.ctl.ann.Presence? then h.ctl.ann.room else "";
      var anns := if |s.conns[c].buf| < c.depth || room !in h.anns then h.anns
                  else h.anns[room := h.anns[room].(missed := h.anns[room].missed + {c})];
      s.(conns := s.conns[c := Push(c, s.conns[c], h.ctl.ann)],
         hub := h.(ctl := h.ctl.(annTodo := h.ctl.annTodo - {c}), anns := anns))
  }

  function DeliverApply(s: State, c: Client): State
    requires c in s.conns && s.hub.ctl.handoff.Some?
  {
    var k := s.hub.ctl; var conn := s.conns[c];
    if conn.closed then s.(panicked := true)
    else if |conn.buf| < c.depth then
      s.(conns := s.conns[c := Push(c, conn, Live(k.handoff.value))],
         hub := s.hub.(ctl := k.(deliver := k.deliver - {c})))
    else
      s.(conns := s.conns[c := conn.(overflow := true)],
         hub := s.hub.(ctl := k.(deliver := k.deliver - {c}, slow := k.slow + [c])))
  }

  function HandOffApply(s: State, sent: bool): State
    requires s.hub.ctl.handoff.Some?
  {
    var m := s.hub.ctl.handoff.value;
    var cold := if !sent then s.cold.(dropped := s.cold.dropped + [m])
                else s.cold.(queue := s.cold.queue + [m],
                             late := if s.cold.worker.Exited? then s.cold.late + [m] else s.cold.late);
    s.(cold := cold, hub := s.hub.(ctl := s.hub.ctl.(handoff := None)))
  }

  function HubApply(s: State, a: HubAction): State
    requires HubEnabled(s, a)
  {
    var h := s.hub; var k := h.ctl;
    match a
    case Register(c) =>
      s.(hub := h.(clients := h.clients + {c}), conns := s.conns[c := s.conns[c].(reader := Reading)])
    case Unregister(c) =>
      s.(hub := DisconnectHub(h, c), conns := s.conns[c := s.conns[c].(reader := Gone)])
    case Handle(c, at, order) => HandleApply(s, c, at, order)
    case Sample =>
      s.(hub := h.(rate := h.total - h.sampled, sampled := h.total, rates := h.rates + [h.total - h.sampled]))
    case Stop => s.(hub := h.(stopped := true))
    case Announce(c) => AnnounceApply(s, c)
    case Reclaim => s.(hub := ReclaimHub(h))
    case Depart(room, order) => s.(hub := DepartHub(h, room, order))
    case CloseSend =>
      var c := k.leaving.value;
      if s.conns[c].closed then s.(panicked := true)
      else s.(hub := h.(ctl := k.(leaving := None)), conns := s.conns[c := s.conns[c].(closed := true)])
    case Deliver(c) => DeliverApply(s, c)
    case NextSlow => s.(hub := DisconnectHub(h.(ctl := k.(slow := k.slow[1..])), k.slow[0]))
    case HandOff(sent) => HandOffApply(s, sent)
  }

  /** Nothing about a connection but its pumps' whereabouts and the end of its channel. */
  ghost predicate SameContents(k: Conn, k': Conn) {
    && k'.buf == k.buf && k'.taken == k.taken && k'.said == k.said && k'.joins == k.joins && k'.overflow == k.overflow
    && k'.unwound == k.unwound
    && (k'.reader.Fresh? ==> k.reader.Fresh?)
    && (k'.reader.Submitting? || k'.reader.Answering? ==> k'.reader == k.reader)
  }

  /** The steps of the hub that neither take a command nor send a frame. */
  lemma QuietStep(s: State, a: HubAction)
    requires HubEnabled(s, a) && !a.Handle? && !a.Deliver? && !a.Announce?
    ensures var s' := HubApply(s, a);
      && s'.log == s.log && s'.conns.Keys == s.conns.Keys
      && s'.hub.ctl.deliver == s.hub.ctl.deliver
      && (s'.hub.ctl.ann == s.hub.ctl.ann || s'.hub.ctl.ann.Presence?)
      && (s'.hub.ctl.handoff == s.hub.ctl.handoff || (s'.hub.ctl.handoff.None? && s.hub.ctl.deliver == {}))
      && (!a.NextSlow? ==> s'.hub.ctl.slow == s.hub.ctl.slow)
      && (!a.Register? ==> s'.hub.clients <= s.hub.clients)
      && forall d | d in s.conns :: SameContents(s.conns[d], s'.conns[d])
  {
    hide HubApply;
    NobodyArrives(s, a);
    OthersLeave(s, a);
    QuietHub(s, a);
    forall d | d in s.conns ensures SameContents(s.conns[d], HubApply(s, a).conns[d]) { QuietConn(s, a, d); }
  }

  lemma QuietConn(s: State, a: HubAction, d: Client)
    requires HubEnabled(s, a) && !a.Handle? && !a.Deliver? && !a.Announce? && d in s.conns
    ensures d in HubApply(s, a).conns && SameContents(s.conns[d], HubApply(s, a).conns[d])
  {
    hide Enumerates, Names, HandleApply, AnnounceApply, DeliverApply, DisconnectHub, DepartHub, ReclaimHub;
  }

  lemma QuietHub(s: State, a: HubAction)
    requires HubEnabled(s, a) && !a.Handle? && !a.Deliver? && !a.Announce?
    ensures var h' := HubApply(s, a).hub; var h := s.hub;
      && h'.ctl.deliver == h.ctl.deliver
      && (h'.ctl.ann == h.ctl.ann || h'.ctl.ann.Presence?)
      && (h'.ctl.handoff == h.ctl.handoff || (h'.ctl.handoff.None? && h.ctl.deliver == {}))
      && (!a.NextSlow? ==> h'.ctl.slow == h.ctl.slow)
      && (!a.Register? ==> h'.clients <= h.clients)
  {
    hide Enumerates, Names, HandleApply, AnnounceApply, DeliverApply;
    match a {
      case Depart(_, _) =>
      case _ =>
    }
  }

  /** What a step of the hub can do to one connection: add to an open channel, close it, and
      take what its read pump is offering. */
  ghost predicate MovedByHub(a: HubAction, c: Client, k: Conn, k': Conn) {
    && k'.taken == k.taken && k'.writing == k.writing && k'.open == k.open && k'.said == k.said
    && k'.unwound == k.unwound && k.buf <= k'.buf && (k.closed ==> k'.closed && k'.buf == k.buf)
    && (if a.Register? && a.c == c then k.reader.Fresh? && k'.reader.Reading?
        else if a.Handle? && a.c == c then k.reader.Submitting? && k'.reader.Reading?
        else if a.Unregister? && a.c == c then k.reader.Unregistering? && k'.reader.Gone?
        else k'.reader == k.reader)
    && ((a.Handle? && a.c == c) || k'.joins == k.joins)
  }

  lemma HubMoves(s: State, a: HubAction, c: Client)
    requires HubEnabled(s, a) && c in s.conns
    ensures c in HubApply(s, a).conns && MovedByHub(a, c, s.conns[c], HubApply(s, a).conns[c])
  {
    hide Enumerates, HandleApply, AnnounceApply, DeliverApply, MovedByHub;
    match a {
      case Announce(d) => AnnounceMoves(s, d, c);
      case Deliver(d) => DeliverMoves(s, d, c);
      case Handle(d, at, order) => HandleMoves(s, d, at, order, c);
      case _ => OthersMove(s, a, c);
    }
  }

  lemma AnnounceMoves(s: State, d: Client, c: Client)
    requires c in s.conns && d in s.conns
    ensures c in AnnounceApply(s, d).conns && MovedByHub(Announce(d), c, s.conns[c], AnnounceApply(s, d).conns[c])
  {
  }

  lemma DeliverMoves(s: State, d: Client, c: Client)
    requires c in s.conns && d in s.conns && s.hub.ctl.handoff.Some?
    ensures c in DeliverApply(s, d).conns && MovedByHub(Deliver(d), c, s.conns[c], DeliverApply(s, d).conns[c])
  {
    hide MovedByHub;
    var k := s.conns[d];
    SentMoves(Deliver(d), c, s.conns[c], s.conns[c]);
    if !k.closed {
      SentMoves(Deliver(d), c, k, Push(d, k, Live(s.hub.ctl.handoff.value)));
      SentMoves(Deliver(d), c, k, k.(overflow := true));
    }
  }

  lemma SentMoves(a: HubAction, c: Client, k: Conn, k': Conn)
    requires !a.Register? && !a.Handle? && !a.Unregister?
    requires k' == k.(buf := k'.buf, overflow := k'.overflow) && k.buf <= k'.buf && (k.closed ==> k'.buf == k.buf)
    ensures MovedByHub(a, c, k, k')
  {
  }

  lemma HandleMoves(s: State, d: Client, at: int, order: seq<Client>, c: Client)
    requires c in s.conns && d in s.conns && s.conns[d].reader.Submitting?
    ensures var s' := HandleApply(s, d, at, order);
      c in s'.conns && MovedByHub(Handle(d, at, order), c, s.conns[c], s'.conns[c])
  {
    hide HandleApply;
    HandleLeaves(s, d, at, order);
  }

  /** Taking a command changes one connection, and neither the cold path nor the samples. */
  lemma HandleLeaves(s: State, d: Client, at: int, order: seq<Client>)
    requires d in s.conns && s.conns[d].reader.Submitting?
    ensures var s' := HandleApply(s, d, at, order); var k := s.conns[d];
      && s' == s.(conns := s'.conns, hub := s'.hub, log := s'.log)
      && s'.conns == s.conns[d := k.(reader := Reading, joins := s'.conns[d].joins)]
      && s'.hub.stopped == s.hub.stopped && s'.hub.clients == s.hub.clients
      && s'.hub.rates == s.hub.rates && s'.hub.sampled == s.hub.sampled
      && s'.hub.total - |s'.log| == s.hub.total - |s.log| && s.log <= s'.log
  {
    hide JoinHub, LeaveHub;
    match s.conns[d].reader.cmd {
      case Join(room) => MembershipLeaves(s.hub, d, room, order);
      case Leave(room) => MembershipLeaves(s.hub, d, room, order);
      case Say(_, _, _) =>
    }
  }

  /** A command is taken between events; only a message for a room that exists is accepted. */
  lemma Accepts(s: State, d: Client, at: int, order: seq<Client>)
    requires HubEnabled(s, Handle(d, at, order))
    ensures Idle(s.hub.ctl) && !s.hub.stopped && d in s.conns && s.conns[d].reader.Submitting? && at != NO_TIME
    ensures var cmd := s.conns[d].reader.cmd; var s' := HandleApply(s, d, at, order);
      if cmd.Say? && cmd.room in s.hub.rooms then
        var m := Message(0, cmd.room, d.id, d.name, cmd.text, at, |s.log|);
        var to := s.hub.rooms[cmd.room] - {d};
        && s'.log == s.log + [Entry(m, d, cmd.k, to)] && s'.conns[d].joins == s.conns[d].joins
        && s'.hub == s.hub.(total := s.hub.total + 1, ctl := s.hub.ctl.(deliver := to, handoff := Some(m)))
      else
        && s'.log == s.log && s'.hub.ctl.deliver == {} && s'.hub.ctl.slow == [] && s'.hub.ctl.handoff.None?
        && s'.conns[d].joins == s.conns[d].joins + if cmd.Join? then [|s.log|] else []
  {
    hide Names, Enumerates;
  }

  lemma MembershipLeaves(h: HubState, c: Client, room: string, order: seq<Client>)
    ensures var h' := JoinHub(h, c, room, order); h' == h.(rooms := h'.rooms, ctl := h'.ctl, anns := h'.anns)
    ensures var h' := LeaveHub(h, c, room, order); h' == h.(rooms := h'.rooms, ctl := h'.ctl, anns := h'.anns)
  {
  }

  lemma OthersMove(s: State, a: HubAction, c: Client)
    requires HubEnabled(s, a) && c in s.conns && !a.Handle? && !a.Announce? && !a.Deliver?
    ensures c in HubApply(s, a).conns && MovedByHub(a, c, s.conns[c], HubApply(s, a).conns[c])
  {
    hide Enumerates, HandleApply, AnnounceApply, DeliverApply, DisconnectHub, DepartHub, ReclaimHub;
  }

  lemma NobodyArrives(s: State, a: HubAction)
    requires HubEnabled(s, a)
    ensures HubApply(s, a).conns.Keys == s.conns.Keys
  {
    hide Enumerates, HandleApply;
    match a {
      case Handle(d, at, order) => HandleLeaves(s, d, at, order);
      case Deliver(_) =>
      case Announce(_) =>
      case _ =>
    }
  }

  /** Every other step leaves the log alone, and all but the hand-off the cold path. */
  lemma OthersLeave(s: State, a: HubAction)
    requires HubEnabled(s, a) && !a.Handle?
    ensures var s' := HubApply(s, a);
      && s'.cfg == s.cfg && s'.cancelled == s.cancelled && s'.log == s.log && s'.hub.total == s.hub.total
      && (!a.HandOff? ==> s'.cold == s.cold && s'.hub.ctl.handoff == s.hub.ctl.handoff)
      && (if a.Stop? then s'.hub == s.hub.(stopped := true) else s'.hub.stopped == s.hub.stopped)
      && (!a.Sample? ==> s'.hub.rates == s.hub.rates && s'.hub.sampled == s.hub.sampled)
  {
    hide Enumerates, HandleApply, Names, DepartHub, AnnounceApply, DeliverApply;
    match a {
      case Depart(room, order) => DepartLeaves(s.hub, room, order);
      case Deliver(c) => SendLeaves(s, c);
      case Announce(c) => SendLeaves(s, c);
      case _ =>
    }
  }

  lemma DepartLeaves(h: HubState, room: string, order: seq<Client>)
    requires h.ctl.leaving.Some? && room in h.rooms
    ensures var h' := DepartHub(h, room, order);
      h' == h.(rooms := h'.rooms, ctl := h'.ctl, anns := h'.anns) && h'.ctl.handoff == h.ctl.handoff
  {
  }

  lemma SendLeaves(s: State, c: Client)
    requires c in s.conns
    ensures var s' := AnnounceApply(s, c);
      && s' == s.(conns := s'.conns, hub := s'.hub, panicked := s'.panicked)
      && s'.hub == s.hub.(ctl := s'.hub.ctl, anns := s'.hub.anns) && s'.hub.ctl.handoff == s.hub.ctl.handoff
    ensures s.hub.ctl.handoff.Some? ==> var s' := DeliverApply(s, c);
      && s' == s.(conns := s'.conns, hub := s'.hub, panicked := s'.panicked)
      && s'.hub == s.hub.(ctl := s'.hub.ctl) && s'.hub.ctl.handoff == s.hub.ctl.handoff
  {
  }

  // ---------------------------------------------------------------------------
  // The persister
  // ---------------------------------------------------------------------------

  predicate ColdEnabled(s: State, a: ColdAction) {
    var d := s.cold;
    match a
    case Receive => (d.worker.Waiting? || d.worker.Draining?) && d.queue != []
    case Save(id, _) => d.worker.Saving? && (id.Some? ==> FreshId(d.table, id.value))
    case StartDrain => d.worker.Waiting? && s.cancelled
    case Exit => d.worker.Draining? && d.queue == []
  }

  function ColdApply(s: State, a: ColdAction): State
    requires ColdEnabled(s, a)
  {
    var d := s.cold;
    match a
    case Receive => s.(cold := d.(queue := d.queue[1..], worker := Saving(d.queue[0], d.worker.Draining?)))
    case Save(id, now) =>
      s.(cold := d.(worker := if d.worker.draining then Draining else Waiting,
                    processed := d.processed + [Attempt(d.worker.m, id.Some?)],
                    table := if id.None? then d.table
                             else d.table + [Row(Stamped(d.worker.m, now), s.cfg.micros, id.value)]))
    case StartDrain => s.(cold := d.(worker := Draining))
    case Exit => s.(cold := d.(worker := Exited, hubDown := s.hub.stopped))
  }

  // ---------------------------------------------------------------------------
  // Runs
  // ---------------------------------------------------------------------------

  /** After a panic of the hub's goroutine, which nobody recovers, the process is gone and
      nothing happens any more. */
  predicate Enabled(s: State, a: Action) {
    && !s.panicked
    && match a
       case Pump(c, p) => PumpEnabled(s, c, p)
       case Actor(h) => HubEnabled(s, h)
       case Persist(w) => ColdEnabled(s, w)
       case Cancel => true
  }

  function Apply(s: State, a: Action): State
    requires Enabled(s, a)
  {
    match a
    case Pump(c, p) => PumpApply(s, c, p)
    case Actor(h) => HubApply(s, h)
    case Persist(w) => ColdApply(s, w)
    case Cancel => s.(cancelled := true)
  }

  predicate Runs(s: State, acts: seq<Action>)
    decreases |acts|
  {
    acts == [] || (Enabled(s, acts[0]) && Runs(Apply(s, acts[0]), acts[1..]))
  }

  function Exec(s: State, acts: seq<Action>): State
    requires Runs(s, acts)
    decreases |acts|
  {
    if acts == [] then s else Exec(Apply(s, acts[0]), acts[1..])
  }

  lemma {:induction false} ExecConcat(s: State, a: seq<Action>, b: seq<Action>)
    requires Runs(s, a)
    ensures Runs(s, a + b) <==> Runs(Exec(s, a), b)
    ensures Runs(s, a + b) ==> Exec(s, a + b) == Exec(Exec(s, a), b)
    decreases |a|
  {
    if a == [] {
      assert a + b == b;
    } else {
      assert (a + b)[1..] == a[1..] + b;
      ExecConcat(Apply(s, a[0]), a[1..], b);
    }
  }

  /** One more step at the end of a run. */
  lemma Then(s: State, acts: seq<Action>, a: Action)
    requires Runs(s, acts) && Enabled(Exec(s, acts), a)
    ensures Runs(s, acts + [a]) && Exec(s, acts + [a]) == Apply(Exec(s, acts), a)
  {
    ExecConcat(s, acts, [a]);
    assert [a][1..] == [];
  }

  /** The configuration never changes. */
  lemma {:induction false} SameCfg(s: State, acts: seq<Action>)
    requires Runs(s, acts)
    ensures Exec(s, acts).cfg == s.cfg
    decreases |acts|
  {
    hide Apply, Enabled;
    if acts != [] {
      StepCfg(s, acts[0]);
      SameCfg(Apply(s, acts[0]), acts[1..]);
    }
  }

  lemma StepCfg(s: State, a: Action)
    requires Enabled(s, a)
    ensures Apply(s, a).cfg == s.cfg
  {
    hide HubEnabled, HubApply;
    if a.Actor? { HubCfg(s, a.h); }
  }

  lemma HubCfg(s: State, a: HubAction)
    requires HubEnabled(s, a)
    ensures HubApply(s, a).cfg == s.cfg
  {
    hide HandleApply, AnnounceApply, DeliverApply, DisconnectHub, DepartHub, ReclaimHub, Enumerates;
    if a.Handle? { HandleLeaves(s, a.c, a.at, a.order); } else { OthersLeave(s, a); }
  }
}

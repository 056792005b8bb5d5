/** What a client that asks to join is sent: from the query to its stream. */
module JoinReply {
  import opened Protocol
  import opened Queries
  import opened Clients
  import opened Machine
  import opened Bystanders

  /** What a query may find: without a store or a positive limit, nothing; otherwise a failure,
      or the newest rows of the room, at most as many as the configured limit. */
  lemma OutcomeShows(s: State, room: string, result: HistoryResult) returns (ps: seq<nat>)
    requires HistoryOutcome(s, room, result)
    ensures if !s.cfg.hasStore || s.cfg.historyLimit <= 0 then result == Loaded([])
            else result.Failed? || Shows(s.cold.table, room, s.cfg.historyLimit, ps, result.msgs)
  {
    ps := [];
    if s.cfg.hasStore && s.cfg.historyLimit > 0 && result.Loaded? {
      ps := RecentShows(s.cold.table, room, s.cfg.historyLimit);
    }
  }

  /** The reply adds one frame to the stream, the history if the query found some and an error
      if it failed; none if it found none, or if the channel is full or closed. */
  lemma AnswerSends(s: State, c: Client)
    requires Enabled(s, Pump(c, Answer))
    ensures var k := s.conns[c]; var fs := Stream(k);
      && c in Apply(s, Pump(c, Answer)).conns
      && var fs' := Stream(Apply(s, Pump(c, Answer)).conns[c]);
      if k.closed || |k.buf| >= c.depth || k.reader.result == Loaded([]) then fs' == fs
      else
        && |fs'| == |fs| + 1 && fs <= fs'
        && (if k.reader.result.Failed? then fs'[|fs|] == Error(k.reader.room)
            else fs'[|fs|].History? && fs'[|fs|].room == k.reader.room && fs'[|fs|].msgs == k.reader.result.msgs
                 && fs'[|fs|].join == |k.joins|)
  {
    var k := s.conns[c];
    assert Reply(k).Some? ==> k.taken + (k.buf + [Reply(k).value]) == Stream(k) + [Reply(k).value];
  }

  /** No step takes anything back. */
  lemma {:induction false} StreamGrows(s: State, acts: seq<Action>, c: Client)
    requires Runs(s, acts) && c in s.conns
    ensures c in Exec(s, acts).conns && Stream(s.conns[c]) <= Stream(Exec(s, acts).conns[c])
    decreases |acts|
  {
    hide Stream;
    if acts != [] {
      StepGrows(s, acts[0], c);
      StreamGrows(Apply(s, acts[0]), acts[1..], c);
    }
  }

  lemma StepGrows(s: State, a: Action, c: Client)
    requires Enabled(s, a) && c in s.conns
    ensures c in Apply(s, a).conns && Stream(s.conns[c]) <= Stream(Apply(s, a).conns[c])
  {
    hide HubEnabled, HubApply, PumpConn;
    if a.Actor? { HubMoves(s, a.h, c); }
    else if a.Pump? && a.c == c { PumpGrows(c, s.conns[c], a.p); }
  }

  lemma PumpGrows(c: Client, k: Conn, p: PumpAction)
    ensures Stream(k) <= Stream(PumpConn(c, k, p))
  {
    if p.Take? && k.buf != [] { assert (k.taken + [k.buf[0]]) + k.buf[1..] == Stream(k); }
  }

  /** A client that asks to join is shown the room's history: if the query of its join finds
      some, and the reply meets an open channel with a free slot, then on every continuation
      its stream holds a history frame of that room, with the newest rows that the table had of
      it when it was read. */
  lemma HistoryReaches(s: State, c: Client, room: string, result: HistoryResult, between: seq<Action>,
                       after: seq<Action>) returns (ps: seq<nat>, at: nat)
    requires Enabled(s, Pump(c, ReadJoin(room, result))) && NoneOwn(ReadPumpOf(c), between)
    requires Runs(Apply(s, Pump(c, ReadJoin(room, result))), between)
    requires var t := Exec(Apply(s, Pump(c, ReadJoin(room, result))), between);
      && Enabled(t, Pump(c, Answer)) && Runs(Apply(t, Pump(c, Answer)), after)
      && !t.conns[c].closed && |t.conns[c].buf| < c.depth
    requires result.Loaded? && result.msgs != []
    ensures var t := Exec(Apply(s, Pump(c, ReadJoin(room, result))), between);
      var u := Exec(Apply(t, Pump(c, Answer)), after);
      && c in u.conns && at < |Stream(u.conns[c])| && Stream(u.conns[c])[at].History?
      && Stream(u.conns[c])[at].room == room && Stream(u.conns[c])[at].msgs == result.msgs
    ensures Shows(s.cold.table, room, if s.cfg.historyLimit < 0 then 0 else s.cfg.historyLimit, ps, result.msgs)
  {
    hide Shows;
    ps := OutcomeShows(s, room, result);
    var s1 := Apply(s, Pump(c, ReadJoin(room, result)));
    var t := Exec(s1, between);
    OthersKeepReader(s1, between, c);
    AnswerSends(t, c);
    var t1 := Apply(t, Pump(c, Answer));
    StreamGrows(t1, after, c);
    at := |Stream(t.conns[c])|;
  }
}

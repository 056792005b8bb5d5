/** What a joining client is shown: the tail of the room's live order. */
module RecentHistory {
  import opened Protocol
  import opened Storage
  import opened Queries
  import opened Machine
  import opened Ordering
  import opened ColdPath

  /** Rows in the order sequential saves leave them in: growing ids, times never going back. */
  ghost predicate Chronological(rows: seq<Message>) {
    forall i, j | 0 <= i < j < |rows| :: rows[i].id < rows[j].id && rows[i].at <= rows[j].at
  }

  ghost predicate TimesGrow(log: seq<Entry>) {
    forall i, j | 0 <= i < j < |log| :: log[i].m.at <= log[j].m.at
  }

  /** The last row is the newest of all. */
  lemma LastRow(rows: seq<Message>)
    requires Chronological(rows) && rows != []
    ensures var last := rows[|rows| - 1];
      && Chronological(rows[..|rows| - 1])
      && forall m | m in rows[..|rows| - 1] :: m.id < last.id && m.at <= last.at
  {
    var pre := rows[..|rows| - 1];
    assert forall i | 0 <= i < |pre| :: pre[i] == rows[i];
  }

  lemma AddRow(rows: seq<Message>, last: Message)
    requires Chronological(rows) && forall m | m in rows :: m.id < last.id && m.at <= last.at
    ensures Chronological(rows + [last])
  {
  }

  lemma {:induction false} InRoomElements(table: seq<Message>, room: string)
    requires Chronological(table)
    ensures Chronological(InRoom(table, room))
    ensures forall m | m in InRoom(table, room) :: m in table
  {
    if table != [] {
      hide Chronological;
      var pre := table[..|table| - 1];
      LastRow(table);
      InRoomElements(pre, room);
      AddRow(InRoom(pre, room), table[|table| - 1]);
    } else {
      assert InRoom(table, room) == [];
    }
  }

  /** On chronological rows, sorting newest first is reversing. */
  lemma {:induction false} NewestIsReverse(rows: seq<Message>)
    requires Chronological(rows)
    ensures NewestFirst(rows) == Reverse(rows)
  {
    if rows != [] {
      hide Chronological;
      var pre, last := rows[..|rows| - 1], rows[|rows| - 1];
      LastRow(rows);
      NewestIsReverse(pre);
      assert pre != [] ==> Reverse(pre)[0] in pre && Newer(last, Reverse(pre)[0]);
      assert Reverse(rows) == [last] + Reverse(pre);
    } else {
      assert Reverse(rows) == [];
    }
  }

  /** Newest first, cut off at the limit, and reversed: the tail, oldest first. */
  lemma RecentIsTail(table: seq<Message>, room: string, limit: nat)
    requires Chronological(table)
    ensures Recent(table, room, limit) == Tail(InRoom(table, room), limit)
  {
    hide Chronological;
    InRoomElements(table, room);
    NewestIsReverse(InRoom(table, room));
    CutIsTail(InRoom(table, room), limit);
  }

  lemma CutIsTail(rows: seq<Message>, limit: nat)
    ensures var newest := Reverse(rows);
            Reverse(if |newest| <= limit then newest else newest[..limit]) == Tail(rows, limit)
  {
  }

  lemma {:induction false} SavedInOrder(processed: seq<Attempt>, log: seq<Entry>)
    requires InOrder(Attempted(processed), log, |log|)
    ensures InOrder(SavedOf(processed), log, |log|)
    ensures forall m | m in SavedOf(processed) :: m in Attempted(processed)
  {
    if processed != [] {
      var pre := processed[..|processed| - 1];
      var last := processed[|processed| - 1];
      assert Attempted(processed) == Attempted(pre) + [last.m];
      forall i, j | 0 <= i < j < |Attempted(pre)| ensures Attempted(pre)[i].no < Attempted(pre)[j].no {
        assert Attempted(processed)[i].no < Attempted(processed)[j].no;
      }
      forall i | 0 <= i < |Attempted(pre)|
        ensures 0 <= Attempted(pre)[i].no < |log| && Attempted(pre)[i] == log[Attempted(pre)[i].no].m
      {
        assert Attempted(processed)[i] == Attempted(pre)[i];
      }
      SavedInOrder(pre, log);
      forall m | m in Attempted(pre) ensures m.no < last.m.no {
        var i :| 0 <= i < |Attempted(pre)| && Attempted(pre)[i] == m;
        assert Attempted(processed)[i] == m && Attempted(processed)[|pre|] == last.m;
      }
      assert last.m == Attempted(processed)[|pre|];
    }
  }

  /** The clock has never gone back, neither in this run nor before it. */
  ghost predicate ClockGrows(s: State) {
    && Chronological(s.cfg.found) && TimesGrow(s.log)
    && forall m, i | m in s.cfg.found && 0 <= i < |s.log| :: m.at <= s.log[i].m.at
  }

  lemma TableChronological(s: State)
    requires Conserved(s) && ClockGrows(s)
    ensures Chronological(s.cold.table) && Increasing(s.cold.table)
  {
    var done := Attempted(s.cold.processed);
    PrefixInOrder(done, InSave(s.cold.worker) + s.cold.queue + InHand(s.hub.ctl), s);
    SavedInOrder(s.cold.processed, s.log);
    var saved := SavedOf(s.cold.processed);
    forall i, j | 0 <= i < j < |saved| ensures saved[i].at <= saved[j].at && saved[i].no < saved[j].no {
      assert saved[i] == s.log[saved[i].no].m && saved[j] == s.log[saved[j].no].m;
    }
    forall m, i | m in s.cfg.found && 0 <= i < |saved| ensures m.at <= saved[i].at {
      assert saved[i] == s.log[saved[i].no].m;
    }
    RowsChronological(s.cfg, s.cold.table, s.cold.processed);
  }

  ghost predicate InTime(found: seq<Message>, saved: seq<Message>) {
    && (forall i | 0 <= i < |saved| :: 0 <= saved[i].no)
    && (forall i, j | 0 <= i < j < |saved| :: saved[i].at <= saved[j].at && saved[i].no < saved[j].no)
    && (forall m, i | m in found && 0 <= i < |saved| :: m.at <= saved[i].at)
  }

  /** The saves of earlier runs, then those of this one. */
  lemma RowsChronological(cfg: Config, table: seq<Message>, processed: seq<Attempt>)
    requires TableOk(table, Found(cfg), processed, cfg.micros) && Chronological(cfg.found)
    requires InTime(cfg.found, SavedOf(processed))
    ensures Chronological(table) && Increasing(table)
  {
    var saved, k := SavedOf(processed), |cfg.found|;
    var all := cfg.found + saved;
    forall i | 0 <= i < |table|
      ensures table[i].at == Row(all[i], cfg.micros, 0).at && table[i].no == if i < k then i - k else all[i].no
    {
      assert i < k ==> table[i] == Found(cfg)[i];
    }
    forall i, j | 0 <= i < j < |table|
      ensures table[i].id < table[j].id && table[i].at <= table[j].at && table[i].no < table[j].no
    {
      if j < k { assert all[i] == cfg.found[i] && all[j] == cfg.found[j]; }
      else if i < k { assert all[i] == cfg.found[i] && all[j] == saved[j - k]; }
      else {
        var x, y := i - k, j - k;
        assert all[i] == saved[x] && all[j] == saved[y] && saved[x].no < saved[y].no;
      }
      RoundingKeepsOrder(all[i], all[j], cfg.micros);
      if j < k { assert table[i] == Found(cfg)[i] && table[j] == Found(cfg)[j]; }
    }
  }

  lemma RoundingKeepsOrder(a: Message, b: Message, micros: bool)
    requires a.at <= b.at
    ensures Row(a, micros, 0).at <= Row(b, micros, 0).at
  {
    assert a.at / 1000 <= b.at / 1000;
  }

  lemma PrefixInOrder(a: seq<Message>, b: seq<Message>, s: State)
    requires Kept(s) == a + b && InOrder(Kept(s), s.log, |s.log|)
    ensures InOrder(a, s.log, |s.log|)
  {
    assert forall i | 0 <= i < |a| :: a[i] == Kept(s)[i];
  }

  lemma {:induction false} InRoomIncreasing(table: seq<Message>, room: string)
    requires Increasing(table)
    ensures Increasing(InRoom(table, room))
    ensures forall m | m in InRoom(table, room) :: m in table && m.room == room
  {
    if table != [] {
      var pre := table[..|table| - 1];
      assert forall i, j | 0 <= i < j < |pre| :: pre[i] == table[i] && pre[j] == table[j];
      InRoomIncreasing(pre, room);
      forall m | m in pre ensures m.no < table[|table| - 1].no {}
    }
  }

  /** `out` shows the last rows of the room, at the places `ps` and in table order: `limit` of
      them, or all if there are no more. */
  ghost predicate ShowsLast(table: seq<Message>, room: string, limit: nat, ps: seq<nat>, out: seq<Message>) {
    && |out| == |ps| <= limit
    && (forall i | 0 <= i < |ps| :: ps[i] < |table| && table[ps[i]].room == room && out[i] == table[ps[i]])
    && (forall i, j | 0 <= i < j < |ps| :: ps[i] < ps[j])
    && (forall q {:trigger q in ps} | 0 <= q < |table| && table[q].room == room && q !in ps ::
          |ps| == limit && forall i | 0 <= i < |ps| :: q < ps[i])
  }

  lemma NewestAreLast(table: seq<Message>, room: string, limit: nat, ps: seq<nat>, out: seq<Message>)
    requires Chronological(table) && Shows(table, room, limit, ps, out)
    ensures ShowsLast(table, room, limit, ps, out)
  {
    forall i, j | 0 <= i < j < |ps| ensures ps[i] < ps[j] {
      assert out[i] == table[ps[i]] && out[j] == table[ps[j]];
    }
    forall q | 0 <= q < |table| && table[q].room == room && q !in ps
      ensures |ps| == limit && forall i | 0 <= i < |ps| :: q < ps[i]
    {
      forall i | 0 <= i < |ps| ensures q < ps[i] { assert out[i] == table[ps[i]] && ps[i] in ps; }
    }
  }

  /** If the clock never goes back, the history query for a room gives, on every run, exactly
      the last `limit` messages saved for it, in this run and before, or all of them if there
      are fewer; those of this run in the order in which the hub accepted and delivered them. */
  lemma HistoryIsLiveTail(cfg: Config, acts: seq<Action>, room: string, limit: nat) returns (ps: seq<nat>)
    requires Runs(Init(cfg), acts) && ClockGrows(Exec(Init(cfg), acts))
    ensures var table := Exec(Init(cfg), acts).cold.table;
      && ShowsLast(table, room, limit, ps, Recent(table, room, limit))
      && Recent(table, room, limit) == Tail(InRoom(table, room), limit) && Increasing(Recent(table, room, limit))
  {
    hide Increasing, Chronological, Ordered, Conserved, ClockGrows, Runs, Exec;
    FromStart(cfg, acts);
    var s := Exec(Init(cfg), acts);
    TableChronological(s);
    RecentIsTail(s.cold.table, room, limit);
    InRoomIncreasing(s.cold.table, room);
    TailIncreasing(InRoom(s.cold.table, room), limit);
    ps := RecentShows(s.cold.table, room, limit);
    NewestAreLast(s.cold.table, room, limit, ps, Recent(s.cold.table, room, limit));
  }

  lemma TailIncreasing(ms: seq<Message>, n: nat)
    requires Increasing(ms)
    ensures Increasing(Tail(ms, n))
  {
  }
}

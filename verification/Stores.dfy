/** The two message stores. The engine behind each is a table and the rows of one query;
    its failures are the arguments named `fault` and `badRow`. */
module Stores {
  import opened Protocol
  import opened Storage
  import opened Queries

  datatype SaveResult = Saved(m: Message) | NotSaved

  /** `slices.Reverse` on the first `n` elements. */
  method ReverseInPlace(a: array<Message>, n: nat)
    requires n <= a.Length
    modifies a
    ensures a[..n] == Reverse(old(a[..n]))
    ensures a[n..] == old(a[n..])
  {
    ghost var was := a[..n];
    var i := 0;
    while i < n / 2
      invariant 0 <= i <= n / 2
      invariant forall k | 0 <= k < n :: a[k] == was[if i <= k < n - i then k else n - 1 - k]
      invariant a[n..] == old(a[n..])
    {
      a[i], a[n - 1 - i] := a[n - 1 - i], a[i];
      i := i + 1;
    }
    assert a[..n] == Reverse(was);
  }

  /** The row loop both stores share: append every row, then reverse. The iteration may fail
      at any row, or after the last one. */
  method CollectOldestFirst(rows: seq<Message>, badRow: Option<nat>) returns (r: HistoryResult)
    ensures badRow.Some? && badRow.value <= |rows| ==> r == Failed
    ensures badRow.None? || badRow.value > |rows| ==> r == Loaded(Reverse(rows))
  {
    var out := new Message[|rows|](_ => Message(0, "", "", "", "", NO_TIME, 0));
    var i := 0;
    while i < |rows|
      invariant 0 <= i <= |rows| && out[..i] == rows[..i]
      invariant badRow.Some? ==> i <= badRow.value
    {
      if badRow == Some(i) { return Failed; }
      out[i] := rows[i];
      i := i + 1;
    }
    if badRow == Some(|rows|) { return Failed; }
    assert out[..|rows|] == rows;
    ReverseInPlace(out, |rows|);
    r := Loaded(out[..|rows|]);
  }

  /** `row` is `m` with its time cut off to whole microseconds. */
  ghost predicate KeptInMicros(m: Message, row: Message) {
    row == m.(at := row.at) && row.at <= m.at < row.at + 1000 && row.at % 1000 == 0
  }

  /** Every id in the table is below the one the engine assigns next. */
  ghost predicate IdsBelow(rows: seq<Message>, next: int) {
    forall i | 0 <= i < |rows| :: rows[i].id < next
  }

  class SQLite {
    var rows: seq<Message>
    var nextId: int

    /** Opens the database with the rows it holds, and the id the engine goes on with. */
    constructor (found: seq<Message>, next: int)
      requires IdsBelow(found, next)
      ensures rows == found && Valid()
    {
      rows, nextId := found, next;
    }

    ghost predicate Valid()
      reads this
    {
      IdsBelow(rows, nextId)
    }

    /** Stamps a message that has no time, and inserts it under a fresh id. The id is not
        reported back when the driver cannot tell it. */
    method SaveMessage(m: Message, now: int, fault: bool, idKnown: bool) returns (r: SaveResult)
      requires Valid()
      modifies this
      ensures Valid()
      ensures r.NotSaved? <==> fault
      ensures fault ==> rows == old(rows)
      ensures !fault ==> FreshId(old(rows), old(nextId)) && r.m.at == (if m.at == NO_TIME then now else m.at)
      ensures !fault ==> rows == old(rows) + [m.(id := old(nextId), at := r.m.at)]
      ensures !fault ==> r.m == m.(id := if idKnown then old(nextId) else m.id, at := r.m.at)
    {
      var stamped := if m.at == NO_TIME then m.(at := now) else m;
      if fault { return NotSaved; }
      rows := rows + [stamped.(id := nextId)];
      r := Saved(if idKnown then stamped.(id := nextId) else stamped);
      nextId := nextId + 1;
    }

    /** The most recent messages of a room, oldest first. This engine reads a negative
        limit as no limit. */
    method RecentByRoom(room: string, limit: int, fault: bool, badRow: Option<nat>)
      returns (r: HistoryResult, ghost ps: seq<nat>)
      ensures fault ==> r == Failed
      ensures !fault && badRow.None? ==> r == Loaded(Recent(rows, room, if limit < 0 then |rows| else limit))
      ensures r.Loaded? ==> r == Loaded(Recent(rows, room, if limit < 0 then |rows| else limit))
      ensures r.Loaded? ==> Shows(rows, room, if limit < 0 then |rows| else limit, ps, r.msgs)
    {
      ps := RecentShows(rows, room, if limit < 0 then |rows| else limit);
      if fault { return Failed, ps; }
      var cursor := Query(rows, room, if limit < 0 then |rows| else limit);
      r := CollectOldestFirst(cursor, badRow);
    }
  }

  class Postgres {
    var rows: seq<Message>
    var nextId: int

    /** Opens the database with the rows it holds, and the id the engine goes on with. */
    constructor (found: seq<Message>, next: int)
      requires IdsBelow(found, next)
      ensures rows == found && Valid()
    {
      rows, nextId := found, next;
    }

    ghost predicate Valid()
      reads this
    {
      IdsBelow(rows, nextId)
    }

    /** As for SQLite, but the id comes back with the insert or the save has failed, and the
        row keeps whole microseconds of the time that is returned. The id sequence moves on
        even when the insert fails. */
    method SaveMessage(m: Message, now: int, fault: bool) returns (r: SaveResult)
      requires Valid()
      modifies this
      ensures Valid()
      ensures r.NotSaved? <==> fault
      ensures fault ==> rows == old(rows)
      ensures !fault ==> FreshId(old(rows), r.m.id)
      ensures !fault ==> r.m == m.(id := r.m.id, at := if m.at == NO_TIME then now else m.at)
      ensures !fault ==> |rows| == |old(rows)| + 1 && old(rows) <= rows && KeptInMicros(r.m, rows[|old(rows)|])
    {
      var stamped := if m.at == NO_TIME then m.(at := now) else m;
      var id := nextId;
      nextId := nextId + 1;
      if fault { return NotSaved; }
      rows := rows + [stamped.(id := id, at := Micros(stamped.at))];
      r := Saved(stamped.(id := id));
    }

    /** This engine refuses a negative limit. */
    method RecentByRoom(room: string, limit: int, fault: bool, badRow: Option<nat>)
      returns (r: HistoryResult, ghost ps: seq<nat>)
      ensures fault || limit < 0 ==> r == Failed
      ensures !fault && limit >= 0 && badRow.None? ==> r == Loaded(Recent(rows, room, limit))
      ensures r.Loaded? ==> r == Loaded(Recent(rows, room, limit)) && Shows(rows, room, limit, ps, r.msgs)
    {
      ps := [];
      if fault || limit < 0 { return Failed, ps; }
      ps := RecentShows(rows, room, limit);
      var cursor := Query(rows, room, limit);
      r := CollectOldestFirst(cursor, badRow);
    }
  }
}

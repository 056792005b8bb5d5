/** The message table and the query that reads it back, as the two stores define them. */
module Storage {
  import opened Protocol

  /** The table accepts an id larger than every id it holds. */
  predicate FreshId(table: seq<Message>, id: int) {
    forall i | 0 <= i < |table| :: table[i].id < id
  }

  /** A message without a time is stamped by the store. */
  function Stamped(m: Message, now: int): Message {
    if m.at == NO_TIME then m.(at := now) else m
  }

  /** A time cut off to whole microseconds, for times in nanoseconds. */
  function Micros(at: int): (r: int)
    ensures r <= at < r + 1000 && r % 1000 == 0
  {
    at - at % 1000
  }

  /** The row kept for a message: one of the stores keeps times in microseconds. */
  function Row(m: Message, micros: bool, id: int): (r: Message)
    ensures r == Message(id, m.room, m.senderId, m.senderName, m.content, r.at, m.no)
    ensures if micros then r.at <= m.at < r.at + 1000 && r.at % 1000 == 0 else r.at == m.at
  {
    m.(id := id, at := if micros then Micros(m.at) else m.at)
  }

  /** `ORDER BY created_at DESC, id DESC`. */
  predicate Newer(a: Message, b: Message) {
    a.at > b.at || (a.at == b.at && a.id > b.id)
  }

  function InRoom(table: seq<Message>, room: string): seq<Message> {
    if table == [] then []
    else
      var rest := InRoom(table[..|table| - 1], room);
      if table[|table| - 1].room == room then rest + [table[|table| - 1]] else rest
  }

  function InsertNewest(m: Message, sorted: seq<Message>): seq<Message> {
    if sorted == [] || Newer(m, sorted[0]) then [m] + sorted
    else [sorted[0]] + InsertNewest(m, sorted[1..])
  }

  function NewestFirst(rows: seq<Message>): seq<Message> {
    if rows == [] then []
    else InsertNewest(rows[|rows| - 1], NewestFirst(rows[..|rows| - 1]))
  }

  function Reverse<T>(s: seq<T>): (r: seq<T>)
    ensures |r| == |s| && forall i | 0 <= i < |s| :: r[i] == s[|s| - 1 - i]
  {
    if s == [] then [] else Reverse(s[1..]) + [s[0]]
  }

  function Tail(s: seq<Message>, n: nat): seq<Message> {
    if |s| <= n then s else s[|s| - n..]
  }

  /** The rows of the query: newest first, at most `limit` of them. */
  function Query(table: seq<Message>, room: string, limit: nat): seq<Message> {
    var rows := NewestFirst(InRoom(table, room));
    if |rows| <= limit then rows else rows[..limit]
  }

  /** What `RecentByRoom` returns: the query's rows, oldest first. */
  function Recent(table: seq<Message>, room: string, limit: nat): seq<Message> {
    Reverse(Query(table, room, limit))
  }

  /** No row comes after a newer one. */
  ghost predicate Sorted(rows: seq<Message>) {
    forall i, j | 0 <= i < j < |rows| :: !Newer(rows[j], rows[i])
  }

  lemma {:induction false} InsertSorts(m: Message, rows: seq<Message>)
    requires Sorted(rows)
    ensures Sorted(InsertNewest(m, rows)) && multiset(InsertNewest(m, rows)) == multiset(rows) + multiset{m}
  {
    if rows == [] || Newer(m, rows[0]) {
      assert multiset([m] + rows) == multiset{m} + multiset(rows);
    } else {
      assert rows == [rows[0]] + rows[1..];
      InsertSorts(m, rows[1..]);
      var rest := InsertNewest(m, rows[1..]);
      forall i | 0 <= i < |rest| ensures !Newer(rest[i], rows[0]) {
        assert rest[i] in multiset(rest);
        assert rest[i] == m || rest[i] in rows[1..];
      }
    }
  }

  /** `NewestFirst` is the query's order: no row before a newer one, and every row once. */
  lemma {:induction false} NewestFirstSorts(rows: seq<Message>)
    ensures Sorted(NewestFirst(rows)) && multiset(NewestFirst(rows)) == multiset(rows) && |NewestFirst(rows)| == |rows|
  {
    if rows != [] {
      var pre, last := rows[..|rows| - 1], rows[|rows| - 1];
      assert rows == pre + [last];
      NewestFirstSorts(pre);
      InsertSorts(last, NewestFirst(pre));
      assert |multiset(NewestFirst(rows))| == |multiset(rows)|;
    }
  }
}

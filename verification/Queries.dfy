/** What the history query returns, by the places of its rows in the table. */
module Queries {
  import opened Protocol
  import opened Storage

  /** `out` shows the rows at the places `ps`: rows of the room, none twice, at most `limit`
      of them and all if there are no more; oldest first; and no row of the room is left out
      that is newer than one shown. Of rows with the same time the one with the larger id is
      the newer. */
  ghost predicate Shows(table: seq<Message>, room: string, limit: nat, ps: seq<nat>, out: seq<Message>) {
    ShownAt(table, room, limit, ps, out) && OldestFirst(out) && NothingNewer(table, room, limit, ps, out)
  }

  ghost predicate ShownAt(table: seq<Message>, room: string, limit: nat, ps: seq<nat>, out: seq<Message>) {
    && |out| == |ps| <= limit
    && (forall i | 0 <= i < |ps| :: ps[i] < |table| && table[ps[i]].room == room && out[i] == table[ps[i]])
    && (forall i, j | 0 <= i < j < |ps| :: ps[i] != ps[j])
  }

  ghost predicate OldestFirst(out: seq<Message>) {
    forall i, j | 0 <= i < j < |out| ::
      out[i].at < out[j].at || (out[i].at == out[j].at && out[i].id <= out[j].id)
  }

  ghost predicate NothingNewer(table: seq<Message>, room: string, limit: nat, ps: seq<nat>, out: seq<Message>) {
    forall q {:trigger q in ps} | 0 <= q < |table| && table[q].room == room && q !in ps ::
      |ps| == limit && OlderThanAll(table[q], out)
  }

  ghost predicate OlderThanAll(m: Message, out: seq<Message>) {
    forall i | 0 <= i < |out| :: m.at < out[i].at || (m.at == out[i].at && m.id <= out[i].id)
  }

  /** `ps` are the places of the room's rows, in table order. */
  ghost predicate RoomAt(table: seq<Message>, room: string, ps: seq<nat>) {
    && (forall i | 0 <= i < |ps| :: ps[i] < |table| && table[ps[i]].room == room)
    && (forall i, j | 0 <= i < j < |ps| :: ps[i] < ps[j])
    && (forall q {:trigger q in ps} | 0 <= q < |table| && table[q].room == room :: q in ps)
  }

  ghost predicate At(rows: seq<Message>, table: seq<Message>, ps: seq<nat>) {
    |rows| == |ps| && forall i | 0 <= i < |ps| :: ps[i] < |table| && rows[i] == table[ps[i]]
  }

  lemma {:induction false} RoomPlaces(table: seq<Message>, room: string) returns (ps: seq<nat>)
    ensures RoomAt(table, room, ps) && At(InRoom(table, room), table, ps)
    decreases |table|
  {
    ps := [];
    if table != [] {
      hide RoomAt, At;
      var n := |table| - 1;
      var before := RoomPlaces(table[..n], room);
      ps := if table[n].room == room then before + [n] else before;
      MoreRoom(table, room, before);
      MoreAt(InRoom(table[..n], room), table, before);
    } else {
      assert RoomAt(table, room, []);
    }
  }

  lemma MoreRoom(table: seq<Message>, room: string, before: seq<nat>)
    requires table != [] && RoomAt(table[..|table| - 1], room, before)
    ensures RoomAt(table, room, if table[|table| - 1].room == room then before + [|table| - 1] else before)
  {
    var n := |table| - 1; var ps := if table[n].room == room then before + [n] else before;
    forall q | 0 <= q < |table| && table[q].room == room ensures q in ps {
      if q < n { assert table[..n][q] == table[q] && q in before; } else { assert ps[|before|] == n; }
    }
  }

  lemma MoreAt(rows: seq<Message>, table: seq<Message>, before: seq<nat>)
    requires table != [] && At(rows, table[..|table| - 1], before)
    ensures At(rows, table, before) && At(rows + [table[|table| - 1]], table, before + [|table| - 1])
  {
  }

  lemma {:induction false} InsertPlace(m: Message, rows: seq<Message>) returns (k: nat)
    ensures k <= |rows| && InsertNewest(m, rows) == rows[..k] + [m] + rows[k..]
    decreases |rows|
  {
    if rows == [] || Newer(m, rows[0]) {
      k := 0;
    } else {
      var l := InsertPlace(m, rows[1..]);
      k := l + 1;
      assert rows[..k] == [rows[0]] + rows[1..][..l];
    }
  }

  ghost predicate Places(ps: seq<nat>, n: nat) {
    && (forall i | 0 <= i < |ps| :: ps[i] < n)
    && (forall i, j | 0 <= i < j < |ps| :: ps[i] != ps[j])
    && (forall q: nat {:trigger q in ps} | q < n :: q in ps)
  }

  lemma AddPlace(ps: seq<nat>, n: nat, k: nat)
    requires Places(ps, n) && k <= |ps|
    ensures Places(ps[..k] + [n] + ps[k..], n + 1)
  {
    var all := ps[..k] + [n] + ps[k..];
    forall q: nat | q < n + 1 ensures q in all {
      if q < n {
        assert q in ps;
        var i :| 0 <= i < |ps| && ps[i] == q;
        assert all[if i < k then i else i + 1] == q;
      } else {
        assert all[k] == q;
      }
    }
  }

  lemma AddAt(sorted: seq<Message>, rows: seq<Message>, before: seq<nat>, k: nat)
    requires rows != [] && At(sorted, rows[..|rows| - 1], before) && k <= |sorted|
    ensures |before| == |sorted|
    ensures At(sorted[..k] + [rows[|rows| - 1]] + sorted[k..], rows, before[..k] + [|rows| - 1] + before[k..])
  {
  }

  lemma SizeAt(rows: seq<Message>, table: seq<Message>, ps: seq<nat>)
    requires At(rows, table, ps)
    ensures |rows| == |ps|
  {
  }

  lemma {:induction false} SortedPlaces(rows: seq<Message>) returns (ps: seq<nat>)
    ensures Places(ps, |rows|) && At(NewestFirst(rows), rows, ps)
    decreases |rows|
  {
    ps := [];
    if rows != [] {
      hide Places, InsertNewest, At;
      var n := |rows| - 1;
      var before := SortedPlaces(rows[..n]);
      var k := InsertPlace(rows[n], NewestFirst(rows[..n]));
      SizeAt(NewestFirst(rows[..n]), rows[..n], before);
      ps := before[..k] + [n] + before[k..];
      AddPlace(before, n, k);
      AddAt(NewestFirst(rows[..n]), rows, before, k);
    } else {
      assert Places([], 0) && At([], rows, []);
    }
  }

  /** On every table, whatever its times and ids. */
  lemma RecentShows(table: seq<Message>, room: string, limit: nat) returns (ps: seq<nat>)
    ensures Shows(table, room, limit, ps, Recent(table, room, limit))
  {
    var rows := InRoom(table, room);
    var places := RoomPlaces(table, room);
    var perm := SortedPlaces(rows);
    NewestFirstSorts(rows);
    hide InRoom, NewestFirst, RoomAt, Places, Shows;
    var n := if |rows| <= limit then |rows| else limit;
    PermIn(perm, |rows|, places, rows, table);
    ps := seq(n, i requires 0 <= i < n => places[perm[n - 1 - i]]);
    TopShows(table, room, limit, rows, NewestFirst(rows), places, perm, ps);
  }

  lemma TopShows(table: seq<Message>, room: string, limit: nat, rows: seq<Message>, sorted: seq<Message>,
                 places: seq<nat>, perm: seq<nat>, ps: seq<nat>)
    requires RoomAt(table, room, places) && At(rows, table, places)
    requires Places(perm, |rows|) && At(sorted, rows, perm) && Sorted(sorted) && |sorted| == |rows|
    requires |ps| == (if |rows| <= limit then |rows| else limit)
    requires forall i | 0 <= i < |ps| :: ps[i] == places[perm[|ps| - 1 - i]]
    ensures Shows(table, room, limit, ps, Reverse(if |sorted| <= limit then sorted else sorted[..limit]))
  {
    hide Sorted, RoomAt, Places, At, ShownAt, OldestFirst, NothingNewer, OlderThanAll;
    var n := |ps|; var out := Reverse(if |sorted| <= limit then sorted else sorted[..limit]);
    SameSize(table, rows, sorted, places, perm);
    assert forall i | 0 <= i < n :: out[i] == sorted[n - 1 - i];
    TopAt(table, room, limit, rows, sorted, places, perm, ps, out);
    TopOrder(sorted, n, out);
    TopRest(table, room, limit, rows, sorted, places, perm, ps, out);
  }

  lemma SameSize(table: seq<Message>, rows: seq<Message>, sorted: seq<Message>, places: seq<nat>, perm: seq<nat>)
    requires At(rows, table, places) && At(sorted, rows, perm)
    ensures |places| == |rows| && |perm| == |sorted|
  {
  }

  lemma TopAt(table: seq<Message>, room: string, limit: nat, rows: seq<Message>, sorted: seq<Message>,
              places: seq<nat>, perm: seq<nat>, ps: seq<nat>, out: seq<Message>)
    requires RoomAt(table, room, places) && At(rows, table, places) && At(sorted, rows, perm) && |ps| <= |perm|
    requires Places(perm, |rows|) && |out| == |ps| <= limit
    requires forall i | 0 <= i < |ps| :: ps[i] == places[perm[|ps| - 1 - i]] && out[i] == sorted[|ps| - 1 - i]
    ensures ShownAt(table, room, limit, ps, out)
  {
    TopDistinct(table, room, |rows|, places, perm, ps);
  }

  lemma TopRest(table: seq<Message>, room: string, limit: nat, rows: seq<Message>, sorted: seq<Message>,
                places: seq<nat>, perm: seq<nat>, ps: seq<nat>, out: seq<Message>)
    requires RoomAt(table, room, places) && At(rows, table, places) && Places(perm, |rows|) && At(sorted, rows, perm)
    requires |ps| <= |perm| && |perm| == |sorted| && (|ps| < |sorted| ==> |ps| == limit) && Sorted(sorted)
    requires |out| == |ps| && forall i | 0 <= i < |ps| :: ps[i] == places[perm[|ps| - 1 - i]]
    requires forall i | 0 <= i < |ps| :: out[i] == sorted[|ps| - 1 - i]
    ensures NothingNewer(table, room, limit, ps, out)
  {
    hide Sorted, RoomAt, Places, At, OlderThanAll;
    forall q | 0 <= q < |table| && table[q].room == room && q !in ps
      ensures |ps| == limit && OlderThanAll(table[q], out)
    {
      var k := Behind(table, room, rows, sorted, places, perm, ps, q);
      LeftOut(sorted, |ps|, out, k);
    }
  }

  lemma PermIn(perm: seq<nat>, n: nat, places: seq<nat>, rows: seq<Message>, table: seq<Message>)
    requires Places(perm, n) && At(rows, table, places) && |rows| == n == |perm|
    ensures forall i | 0 <= i < |perm| :: perm[i] < |places|
  {
  }

  lemma TopDistinct(table: seq<Message>, room: string, n: nat, places: seq<nat>, perm: seq<nat>, ps: seq<nat>)
    requires RoomAt(table, room, places) && |places| == n && Places(perm, n) && |ps| <= |perm|
    requires forall i | 0 <= i < |ps| :: ps[i] == places[perm[|ps| - 1 - i]]
    ensures forall i, j | 0 <= i < j < |ps| :: ps[i] != ps[j]
  {
    forall i, j | 0 <= i < j < |ps| ensures ps[i] != ps[j] {
      var a, b := perm[|ps| - 1 - i], perm[|ps| - 1 - j];
      assert a != b && (a < b || b < a);
    }
  }

  lemma TopOrder(sorted: seq<Message>, n: nat, out: seq<Message>)
    requires Sorted(sorted) && n <= |sorted| && |out| == n && forall i | 0 <= i < n :: out[i] == sorted[n - 1 - i]
    ensures OldestFirst(out)
  {
  }

  lemma LeftOut(sorted: seq<Message>, n: nat, out: seq<Message>, k: nat)
    requires Sorted(sorted) && n <= k < |sorted| && |out| == n && forall i | 0 <= i < n :: out[i] == sorted[n - 1 - i]
    ensures OlderThanAll(sorted[k], out)
  {
  }

  /** A row that is left out comes behind those shown. */
  lemma Behind(table: seq<Message>, room: string, rows: seq<Message>, sorted: seq<Message>,
              places: seq<nat>, perm: seq<nat>, ps: seq<nat>, q: nat) returns (k: nat)
    requires RoomAt(table, room, places) && At(rows, table, places)
    requires Places(perm, |rows|) && At(sorted, rows, perm) && |ps| <= |perm|
    requires forall i | 0 <= i < |ps| :: ps[i] == places[perm[|ps| - 1 - i]]
    requires q < |table| && table[q].room == room && q !in ps
    ensures |ps| <= k < |sorted| && sorted[k] == table[q]
  {
    assert q in places;
    var j :| 0 <= j < |places| && places[j] == q;
    assert j in perm;
    forall x | 0 <= x < |ps| ensures perm[x] != j {
      var y := |ps| - 1 - x;
      assert ps[y] == places[perm[x]] && ps[y] in ps;
    }
    k :| 0 <= k < |perm| && perm[k] == j;
  }
}

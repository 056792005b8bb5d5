/** The counters and the snapshot. */
module Metrics {
  import opened Clients
  import opened Machine
  import opened Safety

  function Sum(xs: seq<int>): int {
    if xs == [] then 0 else Sum(xs[..|xs| - 1]) + xs[|xs| - 1]
  }

  ghost predicate Sampled(s: State) {
    Sum(s.hub.rates) == s.hub.sampled && 0 <= s.hub.sampled <= s.hub.total && s.hub.total == |s.log|
  }

  function Ticks(acts: seq<Action>): nat {
    if acts == [] then 0 else (if acts[0] == Actor(Sample) then 1 else 0) + Ticks(acts[1..])
  }

  lemma StepSampled(s: State, a: Action)
    requires Sampled(s) && Enabled(s, a)
    ensures Sampled(Apply(s, a)) && |Apply(s, a).log| >= |s.log|
    ensures a != Actor(Sample) ==> Apply(s, a).hub.sampled == s.hub.sampled
    ensures a == Actor(Sample) ==> Apply(s, a).hub.sampled == |s.log|
  {
    hide Sum;
    if a == Actor(Sample) {
      SumAppend(s.hub.rates, s.hub.total - s.hub.sampled);
    } else if a.Actor? {
      CountersKept(s, a.h);
    }
  }

  lemma SumAppend(xs: seq<int>, x: int)
    ensures Sum(xs + [x]) == Sum(xs) + x
  {
    assert (xs + [x])[..|xs|] == xs;
  }

  /** A message counts once, and nothing but the sampler touches the samples. */
  lemma CountersKept(s: State, a: HubAction)
    requires HubEnabled(s, a) && a != Sample
    ensures var s' := HubApply(s, a);
      && s'.hub.rates == s.hub.rates && s'.hub.sampled == s.hub.sampled
      && s'.hub.total - |s'.log| == s.hub.total - |s.log| && |s'.log| >= |s.log|
  {
    hide HandleApply, AnnounceApply, DeliverApply, DisconnectHub, DepartHub, ReclaimHub, Enumerates;
    if a.Handle? { HandleLeaves(s, a.c, a.at, a.order); } else { OthersLeave(s, a); }
  }

  lemma {:induction false} RunSampled(s: State, acts: seq<Action>)
    requires Sampled(s) && Runs(s, acts)
    ensures Sampled(Exec(s, acts))
    ensures Ticks(acts) == 0 ==> Exec(s, acts).hub.sampled == s.hub.sampled
    decreases |acts|
  {
    if acts != [] {
      StepSampled(s, acts[0]);
      RunSampled(Apply(s, acts[0]), acts[1..]);
    }
  }

  /** Wherever the sampler ticks fall, the sampled rates add up to the total at the last
      tick, and the rest of the total is what was accepted since. */
  lemma RatesTelescope(cfg: Config, before: seq<Action>, after: seq<Action>)
    requires Runs(Init(cfg), before + [Actor(Sample)] + after) && Ticks(after) == 0
    requires Runs(Init(cfg), before)
    ensures var s := Exec(Init(cfg), before + [Actor(Sample)] + after); var tick := Exec(Init(cfg), before);
      && Sum(s.hub.rates) == s.hub.sampled == |tick.log|
      && s.hub.total - s.hub.sampled == |s.log| - |tick.log| >= 0
  {
    ExecConcat(Init(cfg), before, [Actor(Sample)] + after);
    assert before + [Actor(Sample)] + after == before + ([Actor(Sample)] + after);
    var t := Exec(Init(cfg), before);
    RunSampled(Init(cfg), before);
    assert ([Actor(Sample)] + after)[1..] == after;
    StepSampled(t, Actor(Sample));
    RunSampled(Apply(t, Actor(Sample)), after);
  }

  // ---------------------------------------------------------------------------

  function RoomSizes(rooms: map<string, set<Client>>, names: seq<string>): int
    requires forall n | n in names :: n in rooms
  {
    if names == [] then 0 else RoomSizes(rooms, names[..|names| - 1]) + |rooms[names[|names| - 1]]|
  }

  function Pairs(rooms: map<string, set<Client>>, names: set<string>): set<(Client, string)>
    requires names <= rooms.Keys
  {
    set n, c | n in names && c in rooms[n] :: (c, n)
  }

  lemma {:induction false} SizesCountPairs(rooms: map<string, set<Client>>, names: seq<string>)
    requires forall n | n in names :: n in rooms
    requires forall i, j | 0 <= i < j < |names| :: names[i] != names[j]
    ensures RoomSizes(rooms, names) == |Pairs(rooms, set n | n in names)|
  {
    if names == [] {
      assert Pairs(rooms, set n | n in names) == {};
    } else {
      var last := names[|names| - 1];
      var pre := names[..|names| - 1];
      SizesCountPairs(rooms, pre);
      var here := set c | c in rooms[last] :: (c, last);
      PairOff(rooms[last], last);
      assert Pairs(rooms, set n | n in names) == Pairs(rooms, set n | n in pre) + here;
      assert Pairs(rooms, set n | n in pre) !! here;
    }
  }

  lemma {:induction false} PairOff(cs: set<Client>, n: string)
    ensures |set c | c in cs :: (c, n)| == |cs|
  {
    if cs == {} {
      assert (set c | c in cs :: (c, n)) == {};
    } else {
      var d :| d in cs;
      PairOff(cs - {d}, n);
      assert (set c | c in cs :: (c, n)) == (set c | c in cs - {d} :: (c, n)) + {(d, n)};
    }
  }

  /** Between events of a polite run: no room is empty or larger than the client set. */
  lemma RoomsReclaimed(cfg: Config, acts: seq<Action>, room: string)
    requires Runs(Init(cfg), acts) && Polite(Init(cfg), acts)
    requires var s := Exec(Init(cfg), acts); Idle(s.hub.ctl) && room in s.hub.rooms
    ensures var h := Exec(Init(cfg), acts).hub; h.rooms[room] <= h.clients && 1 <= |h.rooms[room]| <= |h.clients|
  {
    InitSafe(cfg);
    OpenChannels(Init(cfg), acts);
    var h := Exec(Init(cfg), acts).hub;
    assert h.rooms[room] <= h.clients;
    Subset(h.rooms[room], h.clients);
  }

  lemma {:induction false} Subset(a: set<Client>, b: set<Client>)
    requires a <= b
    ensures |a| <= |b|
  {
    if a != {} {
      var x :| x in a;
      Subset(a - {x}, b - {x});
    }
  }
}

/** The cold-path worker, as the program has it. Its loops take steps of the machine, with
    the other goroutines running in between. */
module Persister {
  import opened Protocol
  import opened Storage
  import opened Stores
  import opened Persistence
  import opened Machine
  import opened ColdPath
  import opened Bystanders

  /** One turn of the main loop: what the others do first, and whether a `select` that finds
      both a message and a cancelled context takes the cancellation. */
  datatype Turn = Turn(others: seq<Action>, noticed: bool)

  class Worker {
    const inbox: Inbox
    const store: SQLite
    /** Which saves the store fails, counting from the start. */
    const fails: nat -> bool

    constructor (store: SQLite, inbox: Inbox, fails: nat -> bool)
      ensures this.store == store && this.inbox == inbox && this.fails == fails
    {
      this.store, this.inbox, this.fails := store, inbox, fails;
    }

    /** What was given to the store since `t` has been saved, except where the store failed. */
    ghost predicate SavedSince(t: State, t': State) {
      && t.cold.processed <= t'.cold.processed
      && forall k | |t.cold.processed| <= k < |t'.cold.processed| :: t'.cold.processed[k].saved <==> !fails(k)
    }

    /** The queue and the table are those of the machine's state `s`. */
    ghost predicate Mirrors(s: State)
      reads inbox, store
    {
      store.Valid() && inbox.items == s.cold.queue && store.rows == s.cold.table && !s.cfg.micros
    }

    /** What the others do to the queue. */
    method Meanwhile(s: State, others: seq<Action>) returns (s': State, ghost acts: seq<Action>)
      requires Mirrors(s)
      modifies inbox
      ensures Mirrors(s') && acts == Taken(s, others, Saver) && s' == Exec(s, acts) && SaverKept(s, s')
      ensures old(inbox.items) <= inbox.items
    {
      hide Apply, Enabled;
      acts := Taken(s, others, Saver);
      OthersKeepSaver(s, acts);
      s' := Exec(s, Taken(s, others, Saver));
      inbox.items := s'.cold.queue;
    }

    /** One receive from the queue and one save, whose failure is only logged. */
    method SaveNext(s: State) returns (s': State, ghost acts: seq<Action>)
      requires Mirrors(s) && !s.panicked && (s.cold.worker.Waiting? || s.cold.worker.Draining?)
      requires inbox.items != []
      modifies inbox, store
      ensures Mirrors(s') && Runs(s, acts) && s' == Exec(s, acts) && PersistOnly(acts)
      ensures s'.cold.worker == s.cold.worker && s' == s.(cold := s'.cold)
      ensures inbox.items == old(inbox.items)[1..]
      ensures Attempted(s'.cold.processed) == Attempted(s.cold.processed) + [old(inbox.items)[0]]
      ensures SavedSince(s, s')
      ensures if fails(|s.cold.processed|) then store.rows == old(store.rows)
              else
                && |store.rows| == |old(store.rows)| + 1 && old(store.rows) <= store.rows
                && IsRowOf(store.rows[|old(store.rows)|], old(inbox.items)[0])
    {
      hide Apply, Enabled, Runs, Exec, FreshId;
      var m := inbox.items[0];
      inbox.items := inbox.items[1..];
      var fault := fails(|s.cold.processed|);
      var idKnown: bool, now: int := *, *;
      var id := store.nextId;
      var r := store.SaveMessage(m, now, fault, idKnown);
      ghost var kept := if fault then None else Some(id);
      TakeAndSave(s, kept, now);
      acts := [Persist(ColdAction.Receive), Persist(Save(kept, now))];
      s' := Apply(Apply(s, Persist(ColdAction.Receive)), Persist(Save(if fault then None else Some(id), now)));
    }

    /** Shutdown: everything queued, and everything that still arrives before the queue is
        found empty, is given to the store, in order. */
    method Drain(s: State, meanwhile: seq<seq<Action>>) returns (s': State, ghost acts: seq<Action>)
      requires Mirrors(s) && !s.panicked && s.cold.worker.Draining?
      modifies inbox, store
      ensures Mirrors(s') && Runs(s, acts) && s' == Exec(s, acts)
      ensures s'.panicked || (inbox.items == [] && s'.cold.worker.Exited?)
      ensures !s'.panicked ==> Attempted(s.cold.processed) + old(inbox.items) <= Attempted(s'.cold.processed)
      ensures SavedSince(s, s')
    {
      hide Apply, Enabled, ColdApply, ColdEnabled, HubEnabled, PumpEnabled;
      s', acts := s, [];
      var i := 0;
      while inbox.items != [] || i < |meanwhile|
        invariant 0 <= i <= |meanwhile| && Mirrors(s') && Runs(s, acts) && s' == Exec(s, acts)
        invariant s'.cold.worker.Draining? && !s'.panicked && SavedSince(s, s')
        invariant Attempted(s.cold.processed) + old(inbox.items) <= Attempted(s'.cold.processed) + inbox.items
        decreases |meanwhile| - i, |inbox.items|
      {
        ghost var more;
        ghost var before := s';
        if i < |meanwhile| {
          s', more := Meanwhile(s', meanwhile[i]);
          ExecConcat(s, acts, more);
          acts := acts + more;
          i := i + 1;
          if s'.panicked { return; }
        }
        if inbox.items == [] { break; }
        s', acts := SaveOne(s, s', acts);
      }
      ExitFacts(s');
      Then(s, acts, Persist(Exit));
      acts, s' := acts + [Persist(Exit)], Apply(s', Persist(Exit));
    }

    /** `SaveNext` at the end of a run. */
    method SaveOne(ghost s: State, t: State, ghost before: seq<Action>) returns (t': State, ghost acts: seq<Action>)
      requires Mirrors(t) && !t.panicked && (t.cold.worker.Waiting? || t.cold.worker.Draining?) && inbox.items != []
      requires Runs(s, before) && t == Exec(s, before)
      modifies inbox, store
      ensures Mirrors(t') && Runs(s, acts) && t' == Exec(s, acts)
      ensures t'.cold.worker == t.cold.worker && t' == t.(cold := t'.cold) && SavedSince(t, t')
      ensures |inbox.items| == |old(inbox.items)| - 1
      ensures Attempted(t'.cold.processed) + inbox.items == Attempted(t.cold.processed) + old(inbox.items)
    {
      hide Apply, Enabled;
      ghost var more;
      var items := inbox.items;
      t', more := SaveNext(t);
      ExecConcat(s, before, more);
      acts := before + more;
      assert items == [items[0]] + items[1..];
    }

    /** One turn of the main loop: the head of the queue is given to the store, unless the
        queue is empty or the turn ends in the drain. A turn drains when it notices that the
        context is cancelled, and it notices when there is nothing else to do. */
    method TakeTurn(ghost s: State, t: State, ghost before: seq<Action>, turn: Turn, meanwhile: seq<seq<Action>>)
      returns (t': State, ghost acts: seq<Action>, ghost found: seq<Message>)
      requires Mirrors(t) && !t.panicked && t.cold.worker.Waiting? && Runs(s, before) && t == Exec(s, before)
      modifies inbox, store
      ensures Mirrors(t') && Runs(s, acts) && t' == Exec(s, acts) && old(inbox.items) <= found
      ensures (t.cancelled ==> t'.cancelled) && SavedSince(t, t')
      ensures !t'.panicked && t'.cold.worker.Exited? ==>
                t'.cancelled && inbox.items == [] && Attempted(t.cold.processed) + found <= Attempted(t'.cold.processed)
      ensures !t'.panicked && !t'.cold.worker.Exited? ==>
                && t'.cold.worker.Waiting? && !(t.cancelled && (turn.noticed || found == []))
                && Attempted(t'.cold.processed)
                   == Attempted(t.cold.processed) + (if found == [] then [] else [found[0]])
                && inbox.items == (if found == [] then [] else found[1..])
    {
      hide Apply, Enabled, ColdApply, ColdEnabled, HubEnabled, PumpEnabled;
      ghost var more;
      t', more := Meanwhile(t, turn.others);
      ExecConcat(s, before, more);
      acts := before + more;
      found := inbox.items;
      if t'.panicked { return; }
      if t'.cancelled && (turn.noticed || inbox.items == []) {
        DrainFacts(t');
        Then(s, acts, Persist(StartDrain));
        acts, t' := acts + [Persist(StartDrain)], Apply(t', Persist(StartDrain));
        ghost var mid := t';
        t', more := Drain(t', meanwhile);
        ExecConcat(s, acts, more);
        acts := acts + more;
        StaysCancelled(mid, more);
      } else if inbox.items != [] {
        var items := inbox.items;
        t', more := SaveNext(t');
        ExecConcat(s, acts, more);
        acts := acts + more;
        assert items[0] == found[0];
      }
    }

    /** The worker's life. Every turn that finds a message gives it to the store, so what was
        queued at first is attempted at the rate of one message a turn, in order. It ends only
        through a drain, and only after the context is cancelled; a turn that notices that does
        end it. */
    method Run(s: State, turns: seq<Turn>, meanwhile: seq<seq<Action>>)
      returns (s': State, ghost acts: seq<Action>)
      requires Mirrors(s) && !s.panicked && s.cold.worker.Waiting?
      modifies inbox, store
      ensures Mirrors(s') && Runs(s, acts) && s' == Exec(s, acts)
      ensures !s'.panicked && s'.cold.worker.Exited? ==>
                && s'.cancelled && inbox.items == []
                && Attempted(s.cold.processed) + old(inbox.items) <= Attempted(s'.cold.processed)
      ensures !s'.panicked && !s'.cold.worker.Exited? ==>
                && s'.cold.worker.Waiting?
                && Attempted(s.cold.processed) + old(inbox.items) <= Attempted(s'.cold.processed) + inbox.items
                && |s'.cold.processed| >= |s.cold.processed|
                     + if |turns| < |old(inbox.items)| then |turns| else |old(inbox.items)|
      ensures SavedSince(s, s')
      ensures s.cancelled && (exists r | r in turns :: r.noticed) ==> s'.panicked || s'.cold.worker.Exited?
    {
      hide Apply, Enabled, ColdApply, ColdEnabled, HubEnabled, PumpEnabled;
      s', acts := s, [];
      var i := 0;
      while i < |turns|
        invariant 0 <= i <= |turns| && Mirrors(s') && Runs(s, acts) && s' == Exec(s, acts)
        invariant s'.cold.worker.Waiting? && !s'.panicked && (s.cancelled ==> s'.cancelled) && SavedSince(s, s')
        invariant s.cancelled ==> forall j | 0 <= j < i :: !turns[j].noticed
        invariant Attempted(s.cold.processed) + old(inbox.items) <= Attempted(s'.cold.processed) + inbox.items
        invariant |s'.cold.processed| >= |s.cold.processed| + if i < |old(inbox.items)| then i else |old(inbox.items)|
      {
        ghost var found, was := [], Attempted(s'.cold.processed);
        s', acts, found := TakeTurn(s, s', acts, turns[i], meanwhile);
        Longer(was, inbox.items, found, Attempted(s'.cold.processed));
        if s'.panicked || s'.cold.worker.Exited? { return; }
        i := i + 1;
      }
    }
  }

  lemma Longer(was: seq<Message>, rest: seq<Message>, found: seq<Message>, now: seq<Message>)
    ensures
      now == was + (if found == [] then [] else [found[0]]) && rest == (if found == [] then [] else found[1..]) ==>
        now + rest == was + found
  {
    if found != [] { assert [found[0]] + found[1..] == found; }
  }

  /** `row` is what the table keeps of `m`: an id of its own, and a time if `m` had none. */
  ghost predicate IsRowOf(row: Message, m: Message) {
    row == m.(id := row.id, at := row.at) && (m.at != NO_TIME ==> row.at == m.at)
  }

  ghost predicate PersistOnly(acts: seq<Action>) {
    forall i | 0 <= i < |acts| :: acts[i].Persist?
  }

  lemma TakeAndSave(s: State, id: Option<int>, now: int)
    requires !s.panicked && (s.cold.worker.Waiting? || s.cold.worker.Draining?) && s.cold.queue != []
    requires id.Some? ==> FreshId(s.cold.table, id.value)
    ensures var receive, save := Persist(ColdAction.Receive), Persist(Save(id, now));
      && Enabled(s, receive) && Enabled(Apply(s, receive), save)
      && Runs(s, [receive, save]) && Exec(s, [receive, save]) == Apply(Apply(s, receive), save)
    ensures var m := s.cold.queue[0]; var d := s.cold;
      Apply(Apply(s, Persist(ColdAction.Receive)), Persist(Save(id, now)))
      == s.(cold := d.(queue := d.queue[1..], processed := d.processed + [Attempt(m, id.Some?)],
             table := if id.None? then d.table else d.table + [Row(Stamped(m, now), s.cfg.micros, id.value)]))
  {
    var receive, save := Persist(ColdAction.Receive), Persist(Save(id, now));
    Then(s, [], receive);
    Then(s, [receive], save);
    assert [] + [receive] == [receive] && [receive] + [save] == [receive, save];
  }

  lemma ExitFacts(s: State)
    requires s.cold.worker.Draining? && s.cold.queue == [] && !s.panicked
    ensures Enabled(s, Persist(Exit))
    ensures Apply(s, Persist(Exit)) == s.(cold := s.cold.(worker := Exited, hubDown := s.hub.stopped))
  {
  }

  lemma DrainFacts(s: State)
    requires s.cold.worker.Waiting? && s.cancelled && !s.panicked
    ensures Enabled(s, Persist(StartDrain))
    ensures Apply(s, Persist(StartDrain)) == s.(cold := s.cold.(worker := Draining))
  {
  }

  lemma {:induction false} StaysCancelled(s: State, acts: seq<Action>)
    requires Runs(s, acts) && s.cancelled
    ensures Exec(s, acts).cancelled
    decreases |acts|
  {
    if acts != [] { StaysCancelled(Apply(s, acts[0]), acts[1..]); }
  }
}

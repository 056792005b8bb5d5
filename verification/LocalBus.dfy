/** The in-memory bus, as the program has it: a set of channels under a lock. Every method
    is proved to take steps of the bus machine, and so never meets a closed channel. */
module LocalBus {
  import opened Protocol
  import opened BusMachine

  class MessageBus {
    const buffer: nat
    var subscribers: set<Channel>
    /** Bookkeeping: the number the next publish gets. */
    var published: nat

    /** The run so far, and the machine's state after it. */
    ghost var trace: seq<BusAction>
    ghost var s: Bus

    constructor (buffer: int)
      ensures Valid() && subscribers == {} && this.buffer == (if buffer <= 0 then 1 else buffer)
    {
      this.buffer := if buffer <= 0 then 1 else buffer;
      subscribers, published := {}, 0;
      trace, s := [], Empty();
    }

    ghost predicate OnTrack()
      reads this`trace, this`s
    {
      BusRuns(Empty(), trace) && s == BusExec(Empty(), trace) && BusSafe(s)
    }

    ghost predicate Mirrors()
      reads this, s.subs.Keys
    {
      && subscribers == Subscribers(s) && published == |s.log|
      && forall ch | ch in s.subs :: ch.items == s.subs[ch].buf && ch.closed == s.subs[ch].closed
    }

    /** Between calls the lock is free. */
    ghost predicate Valid()
      reads this, s.subs.Keys
    {
      OnTrack() && Mirrors() && s.todo == {}
    }

    ghost method Record(a: BusAction)
      requires OnTrack() && Enabled(s, a)
      modifies this`trace, this`s
      ensures OnTrack() && trace == old(trace) + [a] && s == Apply(old(s), a)
    {
      BusMachine.BusThen(Empty(), trace, a);
      StepSafe(s, a);
      trace, s := trace + [a], Apply(s, a);
    }

    /** `Subscribe`: a new channel enters the set. */
    method Join() returns (ch: Channel)
      requires Valid()
      modifies this
      ensures Valid() && fresh(ch) && ch.depth == buffer && ch.items == [] && !ch.closed
      ensures subscribers == old(subscribers) + {ch} && s.log == old(s).log
      ensures trace == old(trace) + [Subscribe(ch)]
    {
      ch := new Channel(buffer);
      subscribers := subscribers + {ch};
      Record(Subscribe(ch));
    }

    /** `Publish`: a non-blocking send to every subscriber. Each has the message behind what
        it had, unless its channel was full. */
    method Fan(m: Message)
      requires Valid()
      modifies this`trace, this`s, this`published, subscribers
      ensures Valid() && subscribers == old(subscribers)
      ensures s.log == old(s).log + [Item(|old(s).log|, m)]
      ensures old(trace) + [Publish(m)] <= trace
      ensures forall ch | ch in subscribers ::
                ch.items == old(ch.items) + (if |old(ch.items)| < ch.depth then [Item(|old(s).log|, m)] else [])
    {
      hide OnTrack, Apply, Enabled;
      var x := Item(published, m);
      PublishFacts(m);
      published := published + 1;
      Record(Publish(m));
      SendAll(x);
    }

    /** The loop of `Publish`. */
    method SendAll(x: Item)
      requires OnTrack() && Mirrors() && s.todo == subscribers && s.log != [] && x == s.log[|s.log| - 1]
      modifies this`trace, this`s, subscribers`items
      ensures Valid() && old(trace) <= trace && s.log == old(s).log
      ensures forall ch | ch in subscribers ::
                ch.items == old(ch.items) + (if |old(ch.items)| < ch.depth then [x] else [])
    {
      hide OnTrack, Mirrors;
      var todo := subscribers;
      while todo != {}
        invariant todo <= subscribers && OnTrack() && Mirrors() && old(trace) <= trace
        invariant s.todo == todo && s.log == old(s).log
        invariant forall ch | ch in todo :: ch.items == old(ch.items)
        invariant forall ch | ch in subscribers - todo ::
                    ch.items == old(ch.items) + (if |old(ch.items)| < ch.depth then [x] else [])
        decreases todo
      {
        var ch :| ch in todo;
        todo := todo - {ch};
        SendOne(ch, x);
      }
    }

    lemma PublishFacts(m: Message)
      requires OnTrack() && Mirrors() && s.todo == {}
      ensures Enabled(s, Publish(m))
      ensures Apply(s, Publish(m)) == s.(log := s.log + [Item(|s.log|, m)], todo := subscribers)
    {
    }

    method SendOne(ch: Channel, x: Item)
      requires OnTrack() && Mirrors() && ch in s.todo && s.log != [] && x == s.log[|s.log| - 1]
      modifies this`trace, this`s, ch`items
      ensures OnTrack() && Mirrors() && trace == old(trace) + [Send(ch)]
      ensures s.todo == old(s).todo - {ch} && s.log == old(s).log && s.subs.Keys == old(s).subs.Keys
      ensures ch.items == old(ch.items) + (if |old(ch.items)| < ch.depth then [x] else [])
    {
      hide OnTrack, Enabled;
      SendFacts();
      var ok := ch.Offer(x);
      Record(Send(ch));
    }

    lemma SendFacts()
      requires OnTrack()
      ensures forall ch | ch in s.todo && s.log != [] :: ch in s.subs && Enabled(s, Send(ch)) && !s.subs[ch].closed
    {
      forall ch | ch in s.todo ensures ch in s.subs && !s.subs[ch].closed { assert SubOk(s, ch, s.subs[ch]); }
    }

    /** The first half of a cancellation: out of the set, under the lock. */
    method Remove(ch: Channel)
      requires Valid() && ch in subscribers
      modifies this
      ensures Valid() && subscribers == old(subscribers) - {ch} && s.log == old(s).log
      ensures trace == old(trace) + [Deregister(ch)]
      ensures ch in s.subs && s.subs[ch].phase.Removed?
    {
      subscribers := subscribers - {ch};
      Record(Deregister(ch));
    }

    /** The second half, without the lock: the channel is closed, and was open. */
    method Finish(ch: Channel)
      requires Valid() && ch in s.subs && s.subs[ch].phase.Removed?
      modifies this`trace, this`s, ch`closed
      ensures Valid() && ch.closed && trace == old(trace) + [CloseDone(ch)]
    {
      hide BusRuns, BusExec, Offered;
      assert SubOk(s, ch, s.subs[ch]);
      ch.Close();
      Record(CloseDone(ch));
    }
  }
}

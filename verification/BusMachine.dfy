/** The in-memory bus as a state machine. `Publish` holds the lock while it offers the
    message to one subscriber after another; receives, and the close that follows a
    deregistration, need no lock and run in between. */
module BusMachine {
  import opened Protocol

  /** A published message, numbered in publish order. */
  datatype Item = Item(no: nat, m: Message)

  /** One delivery channel. */
  class Channel {
    const depth: nat
    var items: seq<Item>
    var closed: bool

    constructor (depth: nat)
      ensures this.depth == depth && items == [] && !closed
    {
      this.depth := depth;
      items, closed := [], false;
    }

    /** A non-blocking send by a sender that must know the channel is open. */
    method Offer(x: Item) returns (ok: bool)
      requires !closed
      modifies this`items
      ensures ok == (|old(items)| < depth)
      ensures items == if ok then old(items) + [x] else old(items)
    {
      ok := |items| < depth;
      if ok { items := items + [x]; }
    }

    method Close()
      requires !closed
      modifies this`closed
      ensures closed
    {
      closed := true;
    }
  }

  /** Where a subscription is: in the subscriber set, taken out of it, or closed. */
  datatype Phase = Active | Removed | Done

  /** `taken`, `missed`, `since` and `until` are history: the items received, the items
      offered while the channel was full, and the range of publishes offered so far. */
  datatype Sub = Sub(buf: seq<Item>, closed: bool, phase: Phase,
                     taken: seq<Item>, missed: seq<Item>, since: nat, until: nat)

  function Heard(k: Sub): seq<Item> { k.taken + k.buf }

  /** `todo` is non-empty exactly while a `Publish` holds the lock. */
  datatype Bus = Bus(subs: map<Channel, Sub>, todo: set<Channel>, log: seq<Item>, panicked: bool)

  function Empty(): Bus { Bus(map[], {}, [], false) }

  datatype BusAction =
    | Subscribe(ch: Channel)
    | Publish(m: Message)
    | Send(ch: Channel)
    | Receive(ch: Channel)
    | Deregister(ch: Channel)
    | CloseDone(ch: Channel)

  function Subscribers(b: Bus): set<Channel> {
    set ch | ch in b.subs && b.subs[ch].phase.Active?
  }

  predicate Enabled(b: Bus, a: BusAction) {
    && !b.panicked
    && match a
       case Subscribe(ch) => ch !in b.subs && b.todo == {}
       case Publish(m) => b.todo == {}
       case Send(ch) => ch in b.todo && ch in b.subs && b.log != []
       case Receive(ch) => ch in b.subs && b.subs[ch].buf != []
       case Deregister(ch) => ch in b.subs && b.subs[ch].phase.Active? && b.todo == {}
       case CloseDone(ch) => ch in b.subs && b.subs[ch].phase.Removed?
  }

  function Sent(ch: Channel, k: Sub, x: Item): Sub {
    var k' := k.(until := x.no + 1);
    if |k.buf| < ch.depth then k'.(buf := k.buf + [x]) else k'.(missed := k.missed + [x])
  }

  function Apply(b: Bus, a: BusAction): Bus
    requires Enabled(b, a)
  {
    match a
    case Subscribe(ch) => b.(subs := b.subs[ch := Sub([], false, Active, [], [], |b.log|, |b.log|)])
    case Publish(m) => b.(log := b.log + [Item(|b.log|, m)], todo := Subscribers(b))
    case Send(ch) =>
      if b.subs[ch].closed then b.(panicked := true)
      else b.(subs := b.subs[ch := Sent(ch, b.subs[ch], b.log[|b.log| - 1])], todo := b.todo - {ch})
    case Receive(ch) =>
      var k := b.subs[ch];
      b.(subs := b.subs[ch := k.(buf := k.buf[1..], taken := k.taken + [k.buf[0]])])
    case Deregister(ch) => b.(subs := b.subs[ch := b.subs[ch].(phase := Removed)])
    case CloseDone(ch) =>
      if b.subs[ch].closed then b.(panicked := true)
      else b.(subs := b.subs[ch := b.subs[ch].(closed := true, phase := Done)])
  }

  predicate BusRuns(b: Bus, acts: seq<BusAction>)
    decreases |acts|
  {
    acts == [] || (Enabled(b, acts[0]) && BusRuns(Apply(b, acts[0]), acts[1..]))
  }

  function BusExec(b: Bus, acts: seq<BusAction>): Bus
    requires BusRuns(b, acts)
    decreases |acts|
  {
    if acts == [] then b else BusExec(Apply(b, acts[0]), acts[1..])
  }

  lemma {:induction false} BusThen(b: Bus, acts: seq<BusAction>, a: BusAction)
    requires BusRuns(b, acts) && Enabled(BusExec(b, acts), a)
    ensures BusRuns(b, acts + [a]) && BusExec(b, acts + [a]) == Apply(BusExec(b, acts), a)
    decreases |acts|
  {
    if acts == [] {
      assert (acts + [a])[1..] == [];
    } else {
      assert (acts + [a])[1..] == acts[1..] + [a];
      BusThen(Apply(b, acts[0]), acts[1..], a);
    }
  }

  // ---------------------------------------------------------------------------
  // Close safety and delivery
  // ---------------------------------------------------------------------------

  /** Items in publish order, all from the range `[lo, hi)` of the log. */
  ghost predicate From(xs: seq<Item>, log: seq<Item>, lo: nat, hi: nat)
    requires hi <= |log|
  {
    && (forall i, j | 0 <= i < j < |xs| :: xs[i].no < xs[j].no)
    && forall i | 0 <= i < |xs| :: lo <= xs[i].no < hi && xs[i] == log[xs[i].no]
  }

  /** Every publish in the range offered to a subscription is in its stream or was missed,
      and not both. */
  ghost predicate Offered(k: Sub, log: seq<Item>) {
    && k.since <= k.until <= |log|
    && From(Heard(k), log, k.since, k.until) && From(k.missed, log, k.since, k.until)
    && forall n | k.since <= n < k.until :: (log[n] in Heard(k)) != (log[n] in k.missed)
  }

  ghost predicate SubOk(b: Bus, ch: Channel, k: Sub) {
    && (k.closed <==> k.phase.Done?)
    && |k.buf| <= ch.depth
    && Offered(k, b.log)
    && (ch in b.todo ==> k.phase.Active? && k.until == |b.log| - 1)
    && (k.phase.Active? && ch !in b.todo ==> k.until == |b.log|)
  }

  ghost predicate BusSafe(b: Bus) {
    && !b.panicked
    && (forall n | 0 <= n < |b.log| :: b.log[n].no == n)
    && b.todo <= b.subs.Keys
    && forall ch | ch in b.subs :: SubOk(b, ch, b.subs[ch])
  }

  lemma LogGrows(k: Sub, log: seq<Item>, x: Item)
    requires Offered(k, log)
    ensures Offered(k, log + [x])
  {
    assert forall n | 0 <= n < |log| :: (log + [x])[n] == log[n];
  }

  lemma SentOffered(ch: Channel, k: Sub, log: seq<Item>)
    requires Offered(k, log) && log != [] && k.until == |log| - 1 && log[|log| - 1].no == |log| - 1
    ensures Offered(Sent(ch, k, log[|log| - 1]), log)
  {
    var x := log[|log| - 1]; var k' := Sent(ch, k, x);
    if |k.buf| < ch.depth { assert Heard(k') == Heard(k) + [x]; } else { assert Heard(k') == Heard(k); }
    forall n | k'.since <= n < k'.until ensures (log[n] in Heard(k')) != (log[n] in k'.missed) {
      if n < k.until { assert (log[n] in Heard(k)) != (log[n] in k.missed); }
    }
  }

  lemma StepSafe(b: Bus, a: BusAction)
    requires BusSafe(b) && Enabled(b, a)
    ensures BusSafe(Apply(b, a))
  {
    hide Offered;
    match a {
      case Publish(m) =>
        forall ch | ch in b.subs ensures SubOk(Apply(b, a), ch, b.subs[ch]) {
          LogGrows(b.subs[ch], b.log, Item(|b.log|, m));
          OfferedRange(b.subs[ch], b.log);
        }
      case Send(ch) => SentOffered(ch, b.subs[ch], b.log);
      case Receive(ch) => Received(b.subs[ch], b.log);
      case Subscribe(ch) => NewSub(b.log);
      case Deregister(ch) => SameStream(b.subs[ch], Apply(b, a).subs[ch], b.log);
      case CloseDone(ch) => SameStream(b.subs[ch], b.subs[ch].(closed := true, phase := Done), b.log);
    }
  }

  lemma OfferedRange(k: Sub, log: seq<Item>)
    requires Offered(k, log)
    ensures k.until <= |log|
  {
  }

  lemma Received(k: Sub, log: seq<Item>)
    requires Offered(k, log) && k.buf != []
    ensures Offered(k.(buf := k.buf[1..], taken := k.taken + [k.buf[0]]), log)
  {
    assert Heard(k.(buf := k.buf[1..], taken := k.taken + [k.buf[0]])) == Heard(k);
  }

  lemma NewSub(log: seq<Item>)
    ensures Offered(Sub([], false, Active, [], [], |log|, |log|), log)
  {
  }

  lemma SameStream(k: Sub, k': Sub, log: seq<Item>)
    requires Offered(k, log) && k' == k.(closed := k'.closed, phase := k'.phase)
    ensures Offered(k', log)
  {
    assert Heard(k') == Heard(k);
  }

  /** Close safety, on every interleaving: no send reaches a closed channel, no channel is
      closed twice, no queue outgrows its depth; and each subscriber's stream is the
      publishes since its subscription, in order, less exactly those offered while its
      channel was full. */
  lemma {:induction false} CloseSafety(b: Bus, acts: seq<BusAction>)
    requires BusSafe(b) && BusRuns(b, acts)
    ensures BusSafe(BusExec(b, acts))
    decreases |acts|
  {
    if acts != [] {
      StepSafe(b, acts[0]);
      CloseSafety(Apply(b, acts[0]), acts[1..]);
    }
  }

  // ---------------------------------------------------------------------------
  // Non-interference
  // ---------------------------------------------------------------------------

  /** What concerns subscriber `ch`: the publishes, and its own steps. */
  predicate Concerns(a: BusAction, ch: Channel) {
    a.Publish? || a.ch == ch
  }

  function Project(acts: seq<BusAction>, ch: Channel): seq<BusAction> {
    if acts == [] then []
    else if Concerns(acts[0], ch) then [acts[0]] + Project(acts[1..], ch)
    else Project(acts[1..], ch)
  }

  /** What there is to know about subscriber `ch`. */
  datatype View = View(sub: Option<Sub>, waiting: bool, log: seq<Item>)

  function ViewOf(b: Bus, ch: Channel): View {
    View(if ch in b.subs then Some(b.subs[ch]) else None, ch in b.todo, b.log)
  }

  /** A step of somebody else leaves the view alone. */
  lemma OthersDoNotConcern(b: Bus, a: BusAction, ch: Channel)
    requires BusSafe(b) && Enabled(b, a) && !Concerns(a, ch)
    ensures ViewOf(Apply(b, a), ch) == ViewOf(b, ch)
  {
  }

  /** A step that concerns `ch` takes equal views to equal views. */
  lemma SameViewSameStep(b: Bus, c: Bus, a: BusAction, ch: Channel)
    requires BusSafe(b) && BusSafe(c) && Enabled(b, a) && Enabled(c, a) && Concerns(a, ch)
    requires ViewOf(b, ch) == ViewOf(c, ch)
    ensures ViewOf(Apply(b, a), ch) == ViewOf(Apply(c, a), ch)
  {
    assert ch in b.subs ==> SubOk(b, ch, b.subs[ch]);
  }

  /** Two runs that agree on the publishes and on one subscriber's own steps give it the
      same stream, whatever the other subscribers do. */
  lemma {:induction false} NonInterference(b: Bus, c: Bus, x: seq<BusAction>, y: seq<BusAction>, ch: Channel)
    requires BusSafe(b) && BusSafe(c) && BusRuns(b, x) && BusRuns(c, y)
    requires ViewOf(b, ch) == ViewOf(c, ch) && Project(x, ch) == Project(y, ch)
    ensures ViewOf(BusExec(b, x), ch) == ViewOf(BusExec(c, y), ch)
    decreases |x| + |y|
  {
    hide BusSafe, Apply, Enabled, ViewOf, Concerns;
    if x != [] && !Concerns(x[0], ch) {
      StepSafe(b, x[0]);
      OthersDoNotConcern(b, x[0], ch);
      NonInterference(Apply(b, x[0]), c, x[1..], y, ch);
    } else if y != [] && !Concerns(y[0], ch) {
      StepSafe(c, y[0]);
      OthersDoNotConcern(c, y[0], ch);
      NonInterference(b, Apply(c, y[0]), x, y[1..], ch);
    } else if x != [] {
      assert y != [];
      assert x[0] == Project(x, ch)[0] == Project(y, ch)[0] == y[0];
      assert Project(x[1..], ch) == Project(x, ch)[1..] == Project(y, ch)[1..] == Project(y[1..], ch);
      StepSafe(b, x[0]);
      StepSafe(c, y[0]);
      SameViewSameStep(b, c, x[0], ch);
      NonInterference(Apply(b, x[0]), Apply(c, y[0]), x[1..], y[1..], ch);
    } else {
      assert y == [];
    }
  }
}

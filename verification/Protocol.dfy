/** The values that travel between the goroutines of the chat server: messages,
    the frames queued for a client, and the commands a read pump submits. */
module Protocol {

  datatype Option<+T> = None | Some(value: T)

  /** The zero value of a time stamp; the clock never returns it. */
  const NO_TIME: int := 0

  /** One chat message. `id` is 0 until the message is stored. `no` is bookkeeping of
      the model: the position of the message in the order the hub accepted messages; it is
      negative for a message that was in the table before the server started. */
  datatype Message = Message(id: int, room: string, senderId: string, senderName: string,
                             content: string, at: int, no: int)

  /** A frame queued for one client. `join` is bookkeeping of the model: how many joins
      of that client had been handled when its history was queued. */
  datatype Frame =
    | Live(m: Message)
    | History(room: string, msgs: seq<Message>, join: nat)
    | Presence(room: string, user: string, joined: bool, members: seq<string>)
    | Error(room: string)

  /** What a read pump asks of the hub. `k` is bookkeeping of the model: how many
      messages the same read pump had read before this one. */
  datatype Command =
    | Join(room: string)
    | Leave(room: string)
    | Say(room: string, text: string, k: nat)

  /** What a history query gives a read pump. */
  datatype HistoryResult = Loaded(msgs: seq<Message>) | Failed

  /** The messages among a sequence of frames, in order. */
  function Messages(fs: seq<Frame>): (ms: seq<Message>)
    ensures |ms| <= |fs|
  {
    if fs == [] then []
    else
      var rest := Messages(fs[..|fs| - 1]);
      if fs[|fs| - 1].Live? then rest + [fs[|fs| - 1].m] else rest
  }

  lemma {:induction false} MessagesConcat(a: seq<Frame>, b: seq<Frame>)
    ensures Messages(a + b) == Messages(a) + Messages(b)
    decreases |b|
  {
    if b == [] {
      assert a + b == a;
    } else {
      assert (a + b)[..|a + b| - 1] == a + b[..|b| - 1];
      MessagesConcat(a, b[..|b| - 1]);
    }
  }

  lemma MessagesAppend(a: seq<Frame>, f: Frame)
    ensures Messages(a + [f]) == if f.Live? then Messages(a) + [f.m] else Messages(a)
  {
    assert (a + [f])[..|a|] == a;
  }

  /** Acceptance positions never repeat and only grow along the sequence. */
  ghost predicate Increasing(ms: seq<Message>) {
    forall i, j | 0 <= i < j < |ms| :: ms[i].no < ms[j].no
  }

  /** Every message was accepted before position `n`. */
  ghost predicate Below(ms: seq<Message>, n: int) {
    forall i | 0 <= i < |ms| :: ms[i].no < n
  }
}

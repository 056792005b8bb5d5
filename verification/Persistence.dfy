/** The hub's hand-off queue. */
module Persistence {
  import opened Protocol

  /** A bounded channel of messages. A depth that is not positive becomes 1. */
  class Inbox {
    const depth: nat
    var items: seq<Message>

    constructor (depth: int)
      ensures this.depth == (if depth <= 0 then 1 else depth) && items == []
    {
      this.depth := if depth <= 0 then 1 else depth;
      items := [];
    }
  }
}

/** One chat room: a name and a set of members. */
module Rooms {
  import opened Clients
  import opened Machine

  class Room {
    const name: string
    var members: set<Client>

    constructor (name: string)
      ensures this.name == name && members == {}
    {
      this.name := name;
      members := {};
    }

    method Add(c: Client)
      modifies this
      ensures members == old(members) + {c}
    {
      members := members + {c};
    }

    method Remove(c: Client)
      modifies this
      ensures members == old(members) - {c}
    {
      members := members - {c};
    }

    predicate Empty()
      reads this
    {
      |members| == 0
    }

    /** The names of the members, in whatever order the range over the set yields them. */
    method NameList() returns (out: seq<string>, ghost order: seq<Client>)
      ensures Enumerates(order, members) && out == Names(order)
      ensures |out| == |members| == |order| && forall i | 0 <= i < |out| :: out[i] == order[i].name
      ensures exists all: seq<Client> :: Enumerates(all, members) && |all| == |out|
                && forall i | 0 <= i < |out| :: out[i] == all[i].name
    {
      out, order := [], [];
      var todo := members;
      while todo != {}
        invariant todo <= members && Enumerates(order, members - todo) && out == Names(order)
        invariant |out| + |todo| == |members|
        decreases todo
      {
        var c :| c in todo;
        todo := todo - {c};
        out := out + [c.name];
        order := order + [c];
      }
      assert members - todo == members;
    }
  }
}

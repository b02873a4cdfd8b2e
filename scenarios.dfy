/** Clients of the broker that run small sessions with one, two or three
    agents, using only the contracts of the handlers. */
module Scenarios {
  import opened Presence
  import opened Ledger
  import opened Events
  import opened ChatBroker

  const A1: User := User(AGENT_KEY, "a1", map[])
  const A2: User := User(AGENT_KEY, "a2", map[])
  const A3: User := User(AGENT_KEY, "a3", map[])

  /** Two agents connect and join, then the first tries to join again. */
  method TwoAgents() returns (b: Broker)
    ensures fresh(b) && b.Valid()
    ensures b.Users(AGENT_KEY) == [A1, A2] && b.ledgers == map[]
    ensures b.live == {"a1", "a2", "c1"}
  {
    b := new Broker();
    b.Connect("a1");
    b.Connect("a2");
    b.Connect("c1");
    var ok := b.AddUser(A1);
    assert ok;
    assert !HasSocket([A1], "a2") by { assert "a1" != "a2"; }
    ok := b.AddUser(A2);
    assert ok;
    // A second join with a registered socket is refused and changes nothing.
    assert A1 in [A1, A2];
    ok := b.AddUser(A1);
    assert !ok;
  }

  /** One customer asks three times: a1, then a2, then nobody. */
  method RepeatedRequests()
  {
    var b := TwoAgents();
    var ids := SocketIds([A1, A2]);
    assert ids == ["a1", "a2"];
    assert "a2" != "a1";
    assert Errors("c1", 0) == [];
    assert Errors("c1", 1) == [NoAgent("c1")];
    assert Errors("c1", 2) == [NoAgent("c1"), NoAgent("c1")];

    var before := b.log;
    assert FirstUntried(ids, []) == 0;
    b.SendRequest("c1", "Ann");
    assert b.Sent("c1") == ["a1"];
    assert b.log == before + [Event("a1", NOTIFICATION, "Ann" + WANTS_TO_CHAT)];

    before := b.log;
    assert FirstUntried(ids, ["a1"]) == 1;
    b.SendRequest("c1", "Ann");
    assert b.Sent("c1") == ["a2", "a1"];
    assert b.log == before + [NoAgent("c1"), Event("a2", NOTIFICATION, "Ann" + WANTS_TO_CHAT)];

    before := b.log;
    assert FirstUntried(ids, ["a2", "a1"]) == 2;
    b.SendRequest("c1", "Ann");
    assert b.Sent("c1") == ["a2", "a1"];
    assert b.log == before + [NoAgent("c1"), NoAgent("c1")];
  }

  /** An agent listed without an open socket is still recorded when asked,
      though nothing reaches it. */
  method OfflineAgentIsRecorded()
  {
    var b := new Broker();
    b.Connect("c1");
    var ok := b.AddUser(A1);
    assert ok;
    assert SocketIds([A1]) == ["a1"];
    assert FirstUntried(["a1"], []) == 0;
    var before := b.log;
    b.SendRequest("c1", "Ann");
    assert b.Sent("c1") == ["a1"];
    assert "a1" != "c1";
    assert b.log == before;
  }

  /** A third agent joins after the first two. */
  method ThreeAgents() returns (b: Broker)
    ensures fresh(b) && b.Valid()
    ensures b.Users(AGENT_KEY) == [A1, A2, A3] && b.ledgers == map[]
  {
    b := TwoAgents();
    assert !HasSocket([A1, A2], "a3") by { assert "a1" != "a3" && "a2" != "a3"; }
    var ok := b.AddUser(A3);
  }

  /** The customer asks twice with three agents listed: a1, then a2. */
  method AskedTwice() returns (b: Broker)
    ensures fresh(b) && b.Valid()
    ensures b.Users(AGENT_KEY) == [A1, A2, A3] && b.Sent("c1") == ["a2", "a1"]
  {
    b := ThreeAgents();
    var ids := SocketIds([A1, A2, A3]);
    assert ids == ["a1", "a2", "a3"];
    assert "a2" != "a1";
    assert FirstUntried(ids, []) == 0;
    b.SendRequest("c1", "Ann");
    assert b.Sent("c1") == ["a1"];
    assert FirstUntried(ids, ["a1"]) == 1;
    b.SendRequest("c1", "Ann");
  }

  /** With three agents and the first two already asked, a request emits two
      errors and stops: the third agent is neither notified nor recorded. */
  method ThirdAgentStalls()
  {
    var b := AskedTwice();
    var ids := SocketIds([A1, A2, A3]);
    assert ids == ["a1", "a2", "a3"];
    assert "a3" != "a1" && "a3" != "a2";
    assert ids[2] !in ["a2", "a1"] && ids[0] in ["a2", "a1"] && ids[1] in ["a2", "a1"];
    assert FirstUntried(ids, ["a2", "a1"]) == 2;
    assert Errors("c1", 2) == [NoAgent("c1"), NoAgent("c1")];
    var before := b.log;
    b.SendRequest("c1", "Ann");
    assert b.Sent("c1") == ["a2", "a1"];
    assert b.log == before + [NoAgent("c1"), NoAgent("c1")];
  }

  /** A customer leaves, then an agent. */
  method Departures()
  {
    var b := TwoAgents();
    b.Disconnect("c1");
    assert b.Sent("c1") == [];
    FilterKeepsAll([A1, A2], IsNot("c1"));
    assert b.Users(AGENT_KEY) == [A1, A2];

    b.Disconnect("a1");
    assert Filter([A1, A2], IsNot("a1")) == [A2];
    assert b.Users(AGENT_KEY) == [A2];
  }
}

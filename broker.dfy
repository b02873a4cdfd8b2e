/** The presence-and-request broker of the chat server: the socket and HTTP
    handlers as methods of one object holding the key-value store, the
    request ledgers, the set of open sockets and the log of emitted events.
    Each handler runs as one atomic step. */
module ChatBroker {
  import opened Presence
  import opened Ledger
  import opened Events

  datatype Option<T> = None | Some(value: T)

  /** `users` may be stored under `key`: each record's `type` is `key` and no
      connection appears twice. */
  predicate Filed(users: seq<User>, key: string) {
    DistinctIds(users) && forall u :: u in users ==> u.kind == key
  }

  /** Every list of the store is filed under its own key. */
  predicate StoreValid(store: map<string, seq<User>>) {
    forall k :: k in store ==> Filed(store[k], k)
  }

  /** No ledger names an agent twice. */
  predicate LedgersValid(ledgers: map<string, seq<string>>) {
    forall c :: c in ledgers ==> NoDup(ledgers[c])
  }

  /** Writing a filed list back keeps the store valid. */
  lemma StoreUpdate(store: map<string, seq<User>>, key: string, users: seq<User>)
    requires StoreValid(store) && Filed(users, key)
    ensures StoreValid(store[key := users])
  {
  }

  /** A filtered list is filed wherever the original was. */
  lemma FilterFiled(users: seq<User>, key: string, keep: User -> bool)
    requires Filed(users, key)
    ensures Filed(Filter(users, keep), key)
  {
    FilterKeepsDistinct(users, keep);
  }

  /** In every valid store the agent ids are distinct, so the stall holds
      for the stored agents: once the first two have been asked, the handler
      records nothing for a third. */
  lemma StoredAgentsStall(store: map<string, seq<User>>)
    requires StoreValid(store)
    ensures var ids := SocketIds(if AGENT_KEY in store then store[AGENT_KEY] else []);
            NoDup(ids) &&
            (|ids| >= 3 ==> RecordedAsWritten(ids, Tried(ids, 2)) == Tried(ids, 2) != Recorded(ids, Tried(ids, 2)))
  {
    var agents := if AGENT_KEY in store then store[AGENT_KEY] else [];
    DistinctSocketIds(agents);
    var ids := SocketIds(agents);
    if |ids| >= 3 {
      StallAtThirdAgent(ids);
    }
  }

  class Broker {
    /** The store's presence lists, by key ('agent', 'customer', or whatever
        `type` a joining user gives). */
    var store: map<string, seq<User>>
    /** The request ledgers, by customer socket id (the `<socketId>reqs` lists). */
    var ledgers: map<string, seq<string>>
    /** Socket ids with an open connection. */
    var live: set<string>
    /** Every event emitted so far, oldest first. */
    var log: seq<Event>

    /** Every record sits under its own `type`, no list holds a connection
        twice, and no ledger names an agent twice. */
    ghost predicate Valid()
      reads this
    {
      StoreValid(store) && LedgersValid(ledgers)
    }

    /** The list under `key`; a missing key reads as the empty list. */
    function Users(key: string): seq<User>
      reads this
    {
      if key in store then store[key] else []
    }

    /** The ledger of `customer`; a missing key reads as the empty list. */
    function Sent(customer: string): seq<string>
      reads this
    {
      if customer in ledgers then ledgers[customer] else []
    }

    constructor ()
      ensures Valid()
      ensures store == map[] && ledgers == map[] && live == {} && log == []
    {
      store, ledgers, live, log := map[], map[], {}, [];
    }

    /** A socket connects: it becomes live and is greeted. */
    method Connect(id: string)
      requires Valid()
      modifies this
      ensures Valid()
      ensures live == old(live) + {id}
      ensures log == old(log) + [Event(id, HELLO, WELCOME_TEXT)]
      ensures store == old(store) && ledgers == old(ledgers)
    {
      live := live + {id};
      log := log + [Event(id, HELLO, WELCOME_TEXT)];
    }

    /** `addUser`: file `data` under its `type`, unless a record with the same
        socket id is already there. */
    method AddUser(data: User) returns (added: bool)
      requires Valid()
      modifies this
      ensures Valid()
      ensures added <==> !HasSocket(old(Users(data.kind)), data.socketId)
      ensures store == if added then old(store)[data.kind := old(Users(data.kind)) + [data]] else old(store)
      ensures ledgers == old(ledgers) && live == old(live) && log == old(log)
    {
      var users := Users(data.kind);
      if HasSocket(users, data.socketId) {
        return false;
      }
      AppendKeepsDistinct(users, data);
      store := store[data.kind := users + [data]];
      return true;
    }

    /** `joinChat`: registers the user as `addUser` does, and always reports
        success, whether or not the user was added. */
    method JoinChat(data: User) returns (success: bool)
      requires Valid()
      modifies this
      ensures Valid()
      ensures success
      ensures store == if HasSocket(old(Users(data.kind)), data.socketId) then old(store)
                       else old(store)[data.kind := old(Users(data.kind)) + [data]]
      ensures ledgers == old(ledgers) && live == old(live) && log == old(log)
    {
      var _ := AddUser(data);
      success := true;
    }

    /** `getAgents`: the stored agent list, or nothing if the key was never written. */
    method GetAgents() returns (r: Option<seq<User>>)
      ensures r == if AGENT_KEY in store then Some(store[AGENT_KEY]) else None
    {
      r := if AGENT_KEY in store then Some(store[AGENT_KEY]) else None;
    }

    /** `getCustomers`: the stored customer list, or nothing if the key was never written. */
    method GetCustomers() returns (r: Option<seq<User>>)
      ensures r == if CUSTOMER_KEY in store then Some(store[CUSTOMER_KEY]) else None
    {
      r := if CUSTOMER_KEY in store then Some(store[CUSTOMER_KEY]) else None;
    }

    /** The loop of `clearOffline` over one list: the records whose socket is
        live, in their original order. */
    method KeepLive(users: seq<User>) returns (kept: seq<User>)
      ensures kept == Filter(users, IsLive(live))
    {
      kept := [];
      var i := 0;
      while i < |users|
        invariant 0 <= i <= |users|
        invariant kept == Filter(users[..i], IsLive(live))
      {
        assert users[..i + 1][..i] == users[..i];
        if users[i].socketId in live {
          kept := kept + [users[i]];
        }
        i := i + 1;
      }
      assert users[..|users|] == users;
    }

    /** `clearOffline`: drop every agent and customer whose socket is not live. */
    method ClearOffline()
      requires Valid()
      modifies this
      ensures Valid()
      ensures store == old(store)[AGENT_KEY := Filter(old(Users(AGENT_KEY)), IsLive(live))]
                                 [CUSTOMER_KEY := Filter(old(Users(CUSTOMER_KEY)), IsLive(live))]
      ensures ledgers == old(ledgers) && live == old(live) && log == old(log)
    {
      var agents := Users(AGENT_KEY);
      var filteredAgent := KeepLive(agents);
      FilterFiled(agents, AGENT_KEY, IsLive(live));
      StoreUpdate(store, AGENT_KEY, filteredAgent);
      store := store[AGENT_KEY := filteredAgent];

      var customers := Users(CUSTOMER_KEY);
      var filteredCustomer := KeepLive(customers);
      FilterFiled(customers, CUSTOMER_KEY, IsLive(live));
      StoreUpdate(store, CUSTOMER_KEY, filteredCustomer);
      store := store[CUSTOMER_KEY := filteredCustomer];
    }

    /** `notify`: a 'notification' to `socketId`, emitted only if it is live. */
    method Notify(socketId: string, data: string)
      requires Valid()
      modifies this
      ensures Valid()
      ensures log == old(log) + Notification(socketId, live, data)
      ensures store == old(store) && ledgers == old(ledgers) && live == old(live)
    {
      if socketId in live {
        log := log + [Event(socketId, NOTIFICATION, data)];
      }
    }

    /** `acceptRequest`: greet the customer on the agent's behalf. */
    method AcceptRequest(customerId: string, agent: string)
      requires Valid()
      modifies this
      ensures Valid()
      ensures log == old(log) + [Event(customerId, GREETINGS, agent)]
      ensures store == old(store) && ledgers == old(ledgers) && live == old(live)
    {
      log := log + [Event(customerId, GREETINGS, agent)];
    }

    /** `sendRequest`: ask the first agent, in presence order, that `customer`
        has not asked yet, and record it in the customer's ledger. Each
        already-asked agent on the way costs the customer one
        'chatRequestError' and an HTTP response; the second such response
        throws, and the handler's `catch` ends the request there. An empty
        agent list costs one error. */
    method SendRequest(customer: string, name: string)
      requires Valid()
      modifies this
      ensures Valid()
      ensures var ids := SocketIds(old(Users(AGENT_KEY)));
              var k := FirstUntried(ids, old(Sent(customer)));
              var asked := k < |ids| && k < SKIPS_BEFORE_THROW;
              ledgers == (if asked then old(ledgers)[customer := [ids[k]] + old(Sent(customer))] else old(ledgers)) &&
              log == old(log) + Errors(customer, if ids == [] then 1 else if k < SKIPS_BEFORE_THROW then k else SKIPS_BEFORE_THROW)
                     + (if asked then Notification(ids[k], live, name + WANTS_TO_CHAT) else [])
      ensures Sent(customer) == RecordedAsWritten(SocketIds(old(Users(AGENT_KEY))), old(Sent(customer)))
      ensures store == old(store) && live == old(live)
    {
      var agentIds := SocketIds(Users(AGENT_KEY));
      var sent := Sent(customer);
      if |agentIds| == 0 {
        log := log + [NoAgent(customer)];
        return;
      }
      // Whether an HTTP response has already gone out; a second one throws.
      var responded := false;
      var i := 0;
      while i < |agentIds|
        invariant 0 <= i <= |agentIds| && i < SKIPS_BEFORE_THROW
        invariant responded <==> i > 0
        invariant forall j :: 0 <= j < i ==> agentIds[j] in sent
        invariant log == old(log) + Errors(customer, i)
        invariant store == old(store) && ledgers == old(ledgers) && live == old(live)
        invariant Valid()
      {
        if agentIds[i] !in sent {
          Notify(agentIds[i], name + WANTS_TO_CHAT);
          assert FirstUntried(agentIds, sent) == i;
          ledgers := ledgers[customer := [agentIds[i]] + sent];
          break;
        }
        log := log + [NoAgent(customer)];
        if responded {
          return;
        }
        responded := true;
        i := i + 1;
      }
      // The closing response throws if one has gone out already; the catch
      // only logs, so the state is the same either way.
    }

    /** The 'disconnect' handler for socket `s`: the socket is gone, its
        records leave both presence lists and its own ledger is deleted. */
    method Disconnect(s: string)
      requires Valid()
      modifies this
      ensures Valid()
      ensures live == old(live) - {s}
      ensures store == old(store)[AGENT_KEY := Filter(old(Users(AGENT_KEY)), IsNot(s))]
                                 [CUSTOMER_KEY := Filter(old(Users(CUSTOMER_KEY)), IsNot(s))]
      ensures ledgers == old(ledgers) - {s}
      ensures log == old(log)
    {
      live := live - {s};

      var agents := Users(AGENT_KEY);
      FilterFiled(agents, AGENT_KEY, IsNot(s));
      StoreUpdate(store, AGENT_KEY, Filter(agents, IsNot(s)));
      store := store[AGENT_KEY := Filter(agents, IsNot(s))];

      var customers := Users(CUSTOMER_KEY);
      FilterFiled(customers, CUSTOMER_KEY, IsNot(s));
      StoreUpdate(store, CUSTOMER_KEY, Filter(customers, IsNot(s)));
      store := store[CUSTOMER_KEY := Filter(customers, IsNot(s))];

      ledgers := ledgers - {s};
    }
  }
}

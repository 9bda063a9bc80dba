/** The customer-support chat relay: a process-wide table of named clients and a
    handler per call that registers the sender's name and writes every inbound
    message to every registered call. */
module CustomerSupport {

  /** Identifies one open `contactCustomerSupport` call. */
  type CallId = nat

  /** A chat message, inbound or outbound. */
  datatype ChatMessage = ChatMessage(name: string, message: string)

  /** An entry of the client table: a name and the call it routes to. */
  datatype Client = Client(name: string, call: CallId)

  /** The properties every plain JavaScript object inherits from
      `Object.prototype`. The `in` operator sees them on an empty object too;
      `for...in` does not visit them, because they are not enumerable. */
  const InheritedNames: set<string> := {
    "constructor", "__proto__", "__defineGetter__", "__defineSetter__",
    "__lookupGetter__", "__lookupSetter__", "hasOwnProperty", "isPrototypeOf",
    "propertyIsEnumerable", "toLocaleString", "toString", "valueOf"
  }

  /** The handler's `name in clients` test on the table object: true for the
      table's own names and for every inherited name. */
  predicate InTable(clients: map<string, Client>, name: string)
  {
    name in clients || name in InheritedNames
  }

  /** The table after a message from `call` carrying `name`: the name is added,
      bound to `call`, only when the `in` test fails for it. Existing entries
      are never changed or removed, and an inherited name is never added. */
  function Register(clients: map<string, Client>, name: string, call: CallId): (r: map<string, Client>)
    ensures name !in InheritedNames ==> r.Keys == clients.Keys + {name}
    ensures name in InheritedNames ==> r == clients
    ensures forall k :: k in clients ==> r[k] == clients[k]
    ensures name !in clients && name !in InheritedNames ==> r[name] == Client(name, call)
  {
    if InTable(clients, name) then clients else clients[name := Client(name, call)]
  }

  /** The names among `names` whose entry routes to `call`. */
  function BoundNames(clients: map<string, Client>, names: set<string>, call: CallId): (bound: set<string>)
    ensures bound <= names
  {
    set k | k in names && k in clients && clients[k].call == call
  }

  /** `n` copies of `m`. */
  function Repeat(m: ChatMessage, n: nat): (ms: seq<ChatMessage>)
    ensures |ms| == n
    ensures forall i :: 0 <= i < n ==> ms[i] == m
  {
    if n == 0 then [] else Repeat(m, n - 1) + [m]
  }

  /** The streams after `msg` has been written once for every entry among
      `names`: each call gets one copy per name among them bound to it. */
  function FanoutOver(streams: map<CallId, seq<ChatMessage>>, clients: map<string, Client>,
                      names: set<string>, msg: ChatMessage): (out: map<CallId, seq<ChatMessage>>)
    ensures out.Keys == streams.Keys
  {
    map c | c in streams :: streams[c] + Repeat(msg, |BoundNames(clients, names, c)|)
  }

  /** The streams after `msg` has been written for every entry of the table. */
  function Fanout(streams: map<CallId, seq<ChatMessage>>, clients: map<string, Client>,
                  msg: ChatMessage): (out: map<CallId, seq<ChatMessage>>)
    ensures out.Keys == streams.Keys
  {
    FanoutOver(streams, clients, clients.Keys, msg)
  }

  /** Every call that some entry routes to receives the message, unchanged, at
      the end of its stream. */
  lemma FanoutReachesEveryClient(streams: map<CallId, seq<ChatMessage>>, clients: map<string, Client>,
                                 msg: ChatMessage, k: string)
    requires k in clients && clients[k].call in streams
    ensures |BoundNames(clients, clients.Keys, clients[k].call)| >= 1
    ensures Fanout(streams, clients, msg)[clients[k].call] ==
            streams[clients[k].call] + Repeat(msg, |BoundNames(clients, clients.Keys, clients[k].call)|)
  {
    var c := clients[k].call;
    assert k in BoundNames(clients, clients.Keys, c);
  }

  /** A call that only the entry `k` routes to gets the message exactly once. */
  lemma FanoutToSoleName(streams: map<CallId, seq<ChatMessage>>, clients: map<string, Client>,
                         msg: ChatMessage, k: string)
    requires k in clients && clients[k].call in streams
    requires forall j :: j in clients && clients[j].call == clients[k].call ==> j == k
    ensures Fanout(streams, clients, msg)[clients[k].call] == streams[clients[k].call] + [msg]
  {
    assert BoundNames(clients, clients.Keys, clients[k].call) == {k};
    assert Repeat(msg, 1) == [msg];
  }

  /** A call that no entry routes to gets nothing. */
  lemma FanoutSkipsUnbound(streams: map<CallId, seq<ChatMessage>>, clients: map<string, Client>,
                           msg: ChatMessage, c: CallId)
    requires c in streams
    requires forall k :: k in clients ==> clients[k].call != c
    ensures Fanout(streams, clients, msg)[c] == streams[c]
  {
  }

  /** Adding one name to `done` adds it to the names of its own call only. */
  lemma BoundNamesStep(clients: map<string, Client>, done: set<string>, k: string, c: CallId)
    requires done <= clients.Keys && k in clients && k !in done
    ensures |BoundNames(clients, done + {k}, c)| ==
            |BoundNames(clients, done, c)| + (if clients[k].call == c then 1 else 0)
  {
    if clients[k].call == c {
      assert BoundNames(clients, done + {k}, c) == BoundNames(clients, done, c) + {k};
    } else {
      assert BoundNames(clients, done + {k}, c) == BoundNames(clients, done, c);
    }
  }

  /** Writing for one more name appends one copy to that name's call. */
  lemma FanoutOverStep(streams: map<CallId, seq<ChatMessage>>, clients: map<string, Client>,
                       done: set<string>, k: string, msg: ChatMessage)
    requires done <= clients.Keys && k in clients && k !in done
    requires clients[k].call in streams
    ensures FanoutOver(streams, clients, done + {k}, msg) ==
            FanoutOver(streams, clients, done, msg)[clients[k].call :=
              FanoutOver(streams, clients, done, msg)[clients[k].call] + [msg]]
  {
    var target := clients[k].call;
    var before := FanoutOver(streams, clients, done, msg);
    var after := FanoutOver(streams, clients, done + {k}, msg);
    forall c | c in streams
      ensures after[c] == before[target := before[target] + [msg]][c]
    {
      BoundNamesStep(clients, done, k, c);
    }
  }

  /** Writing for no name changes no stream. */
  lemma FanoutOverNone(streams: map<CallId, seq<ChatMessage>>, clients: map<string, Client>, msg: ChatMessage)
    ensures FanoutOver(streams, clients, {}, msg) == streams
  {
    forall c | c in streams ensures FanoutOver(streams, clients, {}, msg)[c] == streams[c] {
      assert BoundNames(clients, {}, c) == {};
    }
  }

  /** Moving one name from `todo` to `done` keeps them partitioning `names`. */
  lemma NamesStep(names: set<string>, todo: set<string>, done: set<string>, k: string)
    requires todo <= names && done == names - todo && k in todo
    ensures todo - {k} <= names && done + {k} == names - (todo - {k}) && k !in done
  {
  }

  /** The loop of the 'data' handler: writes `msg` once for every entry of
      the table, in whatever order the entries are visited. */
  method Broadcast(clients: map<string, Client>, streams: map<CallId, seq<ChatMessage>>, msg: ChatMessage)
    returns (out: map<CallId, seq<ChatMessage>>)
    requires forall k :: k in clients ==> clients[k].call in streams
    ensures out == Fanout(streams, clients, msg)
  {
    out := streams;
    var todo := clients.Keys;
    ghost var done: set<string> := {};
    FanoutOverNone(streams, clients, msg);
    while todo != {}
      invariant todo <= clients.Keys && done == clients.Keys - todo
      invariant out == FanoutOver(streams, clients, done, msg)
      decreases todo
    {
      var k :| k in todo;
      FanoutOverStep(streams, clients, done, k, msg);
      NamesStep(clients.Keys, todo, done, k);
      out := out[clients[k].call := out[clients[k].call] + [msg]];
      todo := todo - {k};
      done := done + {k};
    }
    assert done == clients.Keys;
  }

  /** The chat service's state: the process-wide client table, and for every
      call opened so far the messages the server has written on it and whether
      the server has ended it. */
  class ChatServer {
    var clients: map<string, Client>
    var streams: map<CallId, seq<ChatMessage>>
    var closed: set<CallId>

    /** Each entry is keyed by its own name, is not an inherited name, and
        routes to a call that was opened. */
    ghost predicate Valid()
      reads this
    {
      (forall k :: k in clients ==> clients[k].name == k && k !in InheritedNames && clients[k].call in streams) &&
      closed <= streams.Keys
    }

    constructor ()
      ensures Valid()
      ensures clients == map[] && streams == map[] && closed == {}
    {
      clients, streams, closed := map[], map[], {};
    }

    /** A new `contactCustomerSupport` call: its handlers are attached and
        nothing is registered until it sends a message. */
    method Open(call: CallId)
      requires Valid() && call !in streams
      modifies this
      ensures Valid()
      ensures streams == old(streams)[call := []]
      ensures clients == old(clients) && closed == old(closed)
    {
      streams := streams[call := []];
    }

    /** The 'data' handler of `call`: registers the sender's name if the `in`
        test fails for it, then writes the message to the call of every entry,
        the sender's included when it is registered. */
    method OnData(call: CallId, msg: ChatMessage)
      requires Valid() && call in streams
      modifies this
      ensures Valid()
      ensures clients == Register(old(clients), msg.name, call)
      ensures old(clients).Keys <= clients.Keys
      ensures InTable(old(clients), msg.name) ==> clients == old(clients)
      ensures streams == Fanout(old(streams), clients, msg)
      ensures closed == old(closed)
    {
      if !InTable(clients, msg.name) {
        clients := clients[msg.name := Client(msg.name, call)];
      }
      streams := Broadcast(clients, streams, msg);
    }

    /** The 'end' handler of `call`: ends the call; the table keeps every
        entry, this call's included. */
    method OnEnd(call: CallId)
      requires Valid() && call in streams
      modifies this
      ensures Valid()
      ensures closed == old(closed) + {call}
      ensures clients == old(clients) && streams == old(streams)
    {
      closed := closed + {call};
    }

    /** The 'error' handler only logs the error. */
    method OnError(call: CallId, error: string)
      requires Valid()
      ensures clients == old(clients) && streams == old(streams) && closed == old(closed)
    {
    }
  }

  /** The join notice the client sends as its first message. */
  function JoinNotice(name: string): ChatMessage
  {
    ChatMessage(name, name + " joined the chat.")
  }

  /** A first message whose name is inherited, such as "toString", registers
      nothing and is written to no call, not even the sender's. */
  lemma InheritedNameReachesNobody(streams: map<CallId, seq<ChatMessage>>, msg: ChatMessage)
    requires msg.name in InheritedNames
    ensures Register(map[], msg.name, 1) == map[]
    ensures Fanout(streams, Register(map[], msg.name, 1), msg) == streams
  {
    FanoutOverNone(streams, map[], msg);
  }

  /** Two clients, `alice` on call 1 and `bob` on call 2, join in that order,
      then `alice` sends `text`. Bob's stream holds his own join notice and
      Alice's message, unchanged; Alice's join came before Bob was in the
      table. */
  lemma {:induction false} TwoClientsTable(alice: string, bob: string, text: string)
    requires alice != bob && alice !in InheritedNames && bob !in InheritedNames
    ensures
      var t1 := Register(map[], alice, 1);
      var s1 := Fanout(map[1 := [], 2 := []], t1, JoinNotice(alice));
      var t2 := Register(t1, bob, 2);
      var s2 := Fanout(s1, t2, JoinNotice(bob));
      var t3 := Register(t2, alice, 1);
      var s3 := Fanout(s2, t3, ChatMessage(alice, text));
      t3 == t2 && t2.Keys == {alice, bob} && s3[2] == [JoinNotice(bob), ChatMessage(alice, text)]
  {
    var t1 := Register(map[], alice, 1);
    var t2 := Register(t1, bob, 2);
    assert t2 == map[alice := Client(alice, 1), bob := Client(bob, 2)];
    FanoutSkipsUnbound(map[1 := [], 2 := []], t1, JoinNotice(alice), 2);
    var s1 := Fanout(map[1 := [], 2 := []], t1, JoinNotice(alice));
    FanoutToSoleName(s1, t2, JoinNotice(bob), bob);
    var s2 := Fanout(s1, t2, JoinNotice(bob));
    FanoutToSoleName(s2, t2, ChatMessage(alice, text), bob);
  }

  /** The same exchange on the server object, followed by the end of Bob's
      call: the table keeps both entries, Bob's included. */
  method TwoClientsChat(alice: string, bob: string, text: string)
    returns (bobStream: seq<ChatMessage>, tableSize: nat)
    requires alice != bob && alice !in InheritedNames && bob !in InheritedNames
    ensures bobStream == [JoinNotice(bob), ChatMessage(alice, text)]
    ensures tableSize == 2
  {
    TwoClientsTable(alice, bob, text);
    var server := new ChatServer();
    server.Open(1);
    server.Open(2);
    server.OnData(1, JoinNotice(alice));
    server.OnData(2, JoinNotice(bob));
    server.OnData(1, ChatMessage(alice, text));
    server.OnEnd(2);
    bobStream := server.streams[2];
    tableSize := |server.clients|;
  }
}

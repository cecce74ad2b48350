/**
 * The global shared state of the server: the id counter, the registered
 * people, which connection belongs to whom, and one outbound message queue
 * per person. The lock around it is not modelled; every method here is one
 * critical section.
 */
module World {
  import opened Wrappers
  import Sequences
  import opened Persons
  import opened Messages

  /** A peer's socket address. */
  datatype SocketAddr = SocketAddr(host: string, port: nat)

  /**
   * Someone connected directly over TCP, or statelessly through an HTTP
   * session (which may be in several rooms, each with its own queue).
   */
  datatype Connection =
    | TCP(addr: SocketAddr)
    | HTTP(session: string, loc: RoomId)

  /**
   * The sending half of an outbound queue: what has been sent and not yet
   * taken by the receiving half, and whether the receiving half is gone
   * (then every send fails and changes nothing).
   */
  datatype Queue = Queue(pending: seq<Message>, closed: bool)

  /** One send on a queue; a send to a closed queue fails and is dropped. */
  function Send(q: Queue, m: Message): (r: Queue)
    ensures r.closed == q.closed
    ensures q.closed ==> r == q
    ensures !q.closed ==> |r.pending| == |q.pending| + 1 && r.pending[..|q.pending|] == q.pending && r.pending[|q.pending|] == m
  {
    if q.closed then q else q.(pending := q.pending + [m])
  }

  /** Every queue after one send of `m` to each of them, whatever became of the others. */
  function Fanout(queues: map<PersonId, Queue>, m: Message): (r: map<PersonId, Queue>)
    ensures r.Keys == queues.Keys
  {
    map id | id in queues :: Send(queues[id], m)
  }

  /**
   * A fan-out appends `m` once to the end of every open queue and leaves
   * closed ones as they were, so a failed send never holds up the others.
   */
  lemma FanoutDelivers(queues: map<PersonId, Queue>, m: Message, id: PersonId)
    requires id in queues
    ensures var q, r := queues[id], Fanout(queues, m)[id];
      && r.closed == q.closed
      && (q.closed ==> r == q)
      && (!q.closed ==> r.pending == q.pending + [m])
  {
  }

  /** Each open queue receives the messages of successive fan-outs in the order they were made. */
  lemma {:induction false} FanoutInOrder(queues: map<PersonId, Queue>, ms: seq<Message>, id: PersonId)
    requires id in queues
    ensures id in FanoutAll(queues, ms)
    ensures FanoutAll(queues, ms)[id] == if queues[id].closed then queues[id] else Queue(queues[id].pending + ms, false)
    decreases |ms|
  {
    var q0 := queues[id];
    if ms == [] {
      assert q0.pending + ms == q0.pending;
    } else {
      var init, last := ms[..|ms| - 1], ms[|ms| - 1];
      assert ms == init + [last];
      FanoutInOrder(queues, init, id);
      FanoutDelivers(FanoutAll(queues, init), last, id);
      if !q0.closed {
        Sequences.Reassociate(q0.pending, init, [last]);
      }
    }
  }

  /** Fan-out of each message of `ms` in turn. */
  function FanoutAll(queues: map<PersonId, Queue>, ms: seq<Message>): (r: map<PersonId, Queue>)
    ensures r.Keys == queues.Keys
    decreases |ms|
  {
    if ms == [] then queues else Fanout(FanoutAll(queues, ms[..|ms| - 1]), ms[|ms| - 1])
  }

  class State {
    var nextId: PersonId
    /** The registered people, by id */
    var people: map<PersonId, Person>
    /** The person each open connection belongs to */
    var peers: map<Connection, PersonId>
    /** Each person's outbound queue: pending messages and whether the receiving end is gone */
    var queues: map<PersonId, Queue>
    /** Set once shutdown has ended the process. */
    var halted: bool

    /** Every registered person is filed under its own id, and every id handed out is below `nextId`. */
    ghost predicate Valid()
      reads this
    {
      forall id :: id in people ==> id < nextId && people[id].id == id
    }

    constructor ()
      ensures Valid()
      ensures nextId == 0 && people == map[] && peers == map[] && queues == map[] && !halted
    {
      nextId := 0;
      people := map[];
      peers := map[];
      queues := map[];
      halted := false;
    }

    /** Ends the process: nothing else changes, and nothing is drained. */
    method Shutdown()
      requires !halted
      modifies this
      ensures halted
      ensures nextId == old(nextId) && people == old(people) && peers == old(peers) && queues == old(queues)
    {
      halted := true;
    }

    /** Hands out the next id; ids handed out strictly increase. */
    method FreshId() returns (id: PersonId)
      requires Valid() && !halted
      modifies this
      ensures Valid()
      ensures id == old(nextId) && nextId == old(nextId) + 1 && id !in people
      ensures people == old(people) && peers == old(peers) && queues == old(queues) && halted == old(halted)
    {
      id := nextId;
      nextId := nextId + 1;
    }

    /** Registers a new person under a fresh id; no existing entry is overwritten. */
    method NewPerson(name: string) returns (id: PersonId)
      requires Valid() && !halted
      modifies this
      ensures Valid()
      ensures id == old(nextId) && nextId == old(nextId) + 1
      ensures id !in old(people) && people == old(people)[id := Person(id, name)]
      ensures peers == old(peers) && queues == old(queues) && halted == old(halted)
    {
      id := FreshId();
      people := people[id := Person(id, name)];
    }

    /** The person registered under `id`. */
    function GetPerson(id: PersonId): (p: Person)
      reads this
      requires Valid()
      requires id in people
      ensures p.id == id && p in people.Values
    {
      people[id]
    }

    /** Files a TCP peer under `id` and gives `id` the queue `tx`, replacing any queue it had. */
    method RegisterTcpConnection(id: PersonId, addr: SocketAddr, tx: Queue)
      requires Valid() && !halted
      modifies this
      ensures Valid()
      ensures peers == old(peers)[TCP(addr) := id] && queues == old(queues)[id := tx]
      ensures nextId == old(nextId) && people == old(people) && halted == old(halted)
    {
      peers := peers[TCP(addr) := id];
      queues := queues[id := tx];
    }

    /** Forgets a TCP peer; its person's queue stays. */
    method UnregisterTcpConnection(addr: SocketAddr)
      requires Valid() && !halted
      requires TCP(addr) in peers
      modifies this
      ensures Valid()
      ensures peers == old(peers) - {TCP(addr)}
      ensures nextId == old(nextId) && people == old(people) && queues == old(queues) && halted == old(halted)
    {
      peers := peers - {TCP(addr)};
    }

    /** Sends `m` to every queue, in no particular order; a failed send only skips that queue. */
    method Broadcast(m: Message)
      requires Valid() && !halted
      modifies this
      ensures Valid()
      ensures queues == Fanout(old(queues), m)
      ensures nextId == old(nextId) && people == old(people) && peers == old(peers) && halted == old(halted)
    {
      ghost var before := queues;
      var todo := queues.Keys;
      while todo != {}
        invariant todo <= queues.Keys && queues.Keys == before.Keys
        invariant forall id :: id in before ==> queues[id] == if id in todo then before[id] else Send(before[id], m)
        invariant nextId == old(nextId) && people == old(people) && peers == old(peers) && halted == old(halted)
        decreases todo
      {
        var id :| id in todo;
        queues := queues[id := Send(queues[id], m)];
        todo := todo - {id};
      }
    }

    /**
     * Meant to send `m` to everyone in room `loc`; as written it walks every
     * queue, so `loc` plays no part and the effect is that of Broadcast.
     */
    method Roomcast(loc: RoomId, m: Message)
      requires Valid() && !halted
      modifies this
      ensures Valid()
      ensures queues == Fanout(old(queues), m)
      ensures nextId == old(nextId) && people == old(people) && peers == old(peers) && halted == old(halted)
    {
      ghost var before := queues;
      var idsInRoom := queues.Keys;
      while idsInRoom != {}
        invariant idsInRoom <= queues.Keys && queues.Keys == before.Keys
        invariant forall id :: id in before ==> queues[id] == if id in idsInRoom then before[id] else Send(before[id], m)
        invariant nextId == old(nextId) && people == old(people) && peers == old(peers) && halted == old(halted)
        decreases idsInRoom
      {
        var id :| id in idsInRoom;
        var p := if id in queues then Some(queues[id]) else None;
        match p {
          case None =>
            // listed in the room but without a queue: only logged
          case Some(q) =>
            queues := queues[id := Send(q, m)];
        }
        idsInRoom := idsInRoom - {id};
      }
    }

    /**
     * The store's logout. It is not defined in the modelled state; only its
     * signature is kept, and callers learn nothing about its effect.
     */
    method Logout(p: Person)
      requires Valid() && !halted
      modifies this
      ensures Valid() && !halted
    {
    }
  }
}

/** The server object of TcpServer.cpp, as far as it runs on the main loop: starting, naming,
    placing, registering and erasing connections. `Book` is the part of the ownership machine
    that this object holds; what the references it creates and drops are good for is proved
    about the machine. */
module TcpServers {
  import opened Names
  import opened Pools
  import opened Servers
  import opened Ownership

  /** The map of connections, the next id, the pool's cursor, and what was ever erased.
      Connection number `c`, from zero, has id c + 1. */
  datatype Book = Book(connections: map<string, nat>, nextConnId: nat, next: nat, erased: set<nat>)

  function BookOf(s: State): Book {
    Book(s.connections, |s.conns| + 1, s.next, s.erased)
  }

  /** newConnection with `k` io loops, and the erasing half of removeConnectionInLoop. */
  function AcceptIn(cfg: Config, b: Book, k: nat): Book
    requires b.nextConnId > 0
  {
    var c := b.nextConnId - 1;
    Book(b.connections[Name(cfg, c) := c], b.nextConnId + 1, NextCursor(k, b.next), b.erased)
  }

  function EraseIn(cfg: Config, b: Book, c: nat): Book {
    b.(connections := b.connections - {Name(cfg, c)}, erased := b.erased + {c})
  }

  /** The machine's loop numbers: the main loop is 0, the io loops are 1 to k. */
  function IoLoops(k: nat): seq<nat> {
    seq(k, i => i + 1)
  }

  /** The machine's accept step does to the book, and to the placement, what the object does. */
  lemma AcceptMatches(cfg: Config, s: State, fd: int)
    requires Enabled(cfg, s, Accept(fd))
    ensures BookOf(Apply(cfg, s, Accept(fd))) == AcceptIn(cfg, BookOf(s), |s.loops| - 1)
    ensures var k := |s.loops| - 1;
            && (k > 0 ==> s.next < k)
            && Apply(cfg, s, Accept(fd)).conns[|s.conns|].loop == Pick(0, IoLoops(k), s.next)
  {
    hide Name, Held, FreshFd;
  }

  /** The two steps that erase, from the main loop's batch and from a handler on it, do to the
      book what the object does. */
  lemma RemoveMatches(cfg: Config, s: State)
    ensures Enabled(cfg, s, RunTask(0)) && s.loops[0].batch[0].kind.Removing? ==>
              BookOf(Apply(cfg, s, RunTask(0))) == EraseIn(cfg, BookOf(s), s.loops[0].batch[0].conn)
    ensures Enabled(cfg, s, CloseEvent(0)) ==>
              BookOf(Apply(cfg, s, CloseEvent(0))) == EraseIn(cfg, BookOf(s), s.loops[0].phase.active[0])
  {
    hide Name, Held;
  }

  /** A functor and the loop it was handed to. */
  datatype Post = Post(loop: nat, task: Task)

  class TcpServer {
    const cfg: Config
    const pool: EventLoopThreadPool<nat>
    var connections: map<string, nat>
    var nextConnId: nat
    var started: nat
    var listenRequests: nat   // Acceptor::listen calls handed to the main loop
    var posted: seq<Post>     // what was handed to runInLoop and queueInLoop of the io loops
    ghost var erased: set<nat>

    ghost function View(): Book
      reads this, pool
    {
      Book(connections, nextConnId, pool.next, erased)
    }

    /** The map holds the connections accepted and not erased, each under its own name. */
    ghost predicate Valid()
      reads this, pool
    {
      && pool.Valid() && (started == 0 ==> !pool.started && pool.loops == [])
      && listenRequests == (if started == 0 then 0 else 1)
      && |cfg.ipPort| <= 51 && 1 <= nextConnId < INT_LIMIT
      && (forall n :: n in connections ==> connections[n] < nextConnId - 1 && n == Name(cfg, connections[n]))
      && (forall c :: 0 <= c < nextConnId - 1 ==> (Name(cfg, c) in connections <==> c !in erased))
      && (forall c :: c in erased ==> c < nextConnId - 1)
    }

    constructor (cfg: Config, pool: EventLoopThreadPool<nat>)
      requires pool.Valid() && !pool.started && pool.loops == [] && |cfg.ipPort| <= 51
      ensures Valid() && this.pool == pool && this.cfg == cfg
      ensures View() == Book(map[], 1, pool.next, {}) && started == 0 && posted == []
    {
      this.cfg, this.pool := cfg, pool;
      connections, nextConnId, started, listenRequests, posted, erased := map[], 1, 0, 0, [], {};
    }

    /** However often it is called, the pool is started once, with the loops of its threads, and
        the loop is asked once to listen. */
    method Start(made: seq<nat>)
      requires Valid() && |made| == pool.numThreads
      modifies this`started, this`listenRequests, pool
      ensures Valid() && started == old(started) + 1 && listenRequests == 1
      ensures pool.loops == if old(started) == 0 then made else old(pool.loops)
    {
      started := started + 1;
      if started == 1 {
        pool.Start(made);
        listenRequests := listenRequests + 1;
      }
    }

    /** The new connection gets a name nobody has and goes to the loop whose turn it is, which is
        handed its connectEstablished; no other entry of the map changes. This is the machine's
        accept step on the book. */
    method NewConnection() returns (c: nat, ioLoop: nat)
      requires Valid() && nextConnId + 1 < INT_LIMIT
      modifies this`connections, this`nextConnId, this`posted, pool
      ensures Valid() && pool.loops == old(pool.loops)
      ensures View() == AcceptIn(cfg, old(View()), |pool.loops|)
      ensures c == old(nextConnId) - 1 && Name(cfg, c) !in old(connections)
      ensures Name(cfg, c) in connections && connections[Name(cfg, c)] == c
      ensures posted == old(posted) + [Post(ioLoop, Task(Establishing, c))]
      ensures ioLoop == old(Pick(pool.baseLoop, pool.loops, pool.next))
      ensures ioLoop == if pool.loops == [] then pool.baseLoop else pool.loops[old(pool.calls) % |pool.loops|]
    {
      hide Name, Cursor;
      ioLoop := pool.GetNextLoop();
      c := nextConnId - 1;
      forall d | 0 <= d < c
        ensures Name(cfg, d) != Name(cfg, c)
      {
        NamesDiffer(cfg, d, c);
      }
      nextConnId := nextConnId + 1;
      connections := connections[Name(cfg, c) := c];
      posted := posted + [Post(ioLoop, Task(Establishing, c))];
    }

    /** However often it is called for a connection, no other connection leaves the map, and each
        time the connection's loop is handed its connectDestroyed. This is the machine's erasing
        step on the book. */
    method RemoveConnectionInLoop(c: nat, ioLoop: nat)
      requires Valid() && c < nextConnId - 1
      modifies this`connections, this`posted, this`erased
      ensures Valid() && View() == EraseIn(cfg, old(View()), c)
      ensures Name(cfg, c) !in connections && posted == old(posted) + [Post(ioLoop, Task(Destroying, c))]
      ensures forall d :: 0 <= d < nextConnId - 1 && d != c ==> (Name(cfg, d) in connections <==> Name(cfg, d) in old(connections))
    {
      hide Name, Cursor;
      forall d | 0 <= d < nextConnId - 1 && d != c
        ensures Name(cfg, d) != Name(cfg, c)
      {
        NamesDiffer(cfg, d, c);
      }
      connections := connections - {Name(cfg, c)};
      erased := erased + {c};
      posted := posted + [Post(ioLoop, Task(Destroying, c))];
    }
  }
}

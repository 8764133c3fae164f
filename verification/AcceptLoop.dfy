/** The accept loop: the table of client connections by descriptor, and the events that epoll
    reports for them. */
module AcceptLoop {
  import opened Connections
  import opened Exchanges
  import opened FileStore
  import opened HashTables
  import opened Headers
  import opened Network
  import opened Protocol
  import opened Servers
  import opened Wire

  predicate IsFd(fd: int)
  {
    0 <= fd < 0x8000_0000
  }

  /** No two descriptors share a connection or a read buffer. */
  ghost predicate Separate(live: map<int, Connection>)
  {
    forall fd, fd' :: fd in live && fd' in live && live[fd].address == live[fd'].address ==> fd == fd'
  }

  lemma SeparateWithout(live: map<int, Connection>, fd: int)
    requires Separate(live)
    ensures Separate(live - {fd})
  {
  }

  lemma SeparateWith(live: map<int, Connection>, fd: int, connection: Connection)
    requires Separate(live) && fd !in live
    requires forall other :: other in live ==> live[other].address != connection.address
    ensures Separate(live[fd := connection])
  {
  }

  /** The slots hold connections under the keys of their descriptors. */
  ghost predicate KeyedByFds<V>(s: seq<Slot<V>>, live: map<int, V>)
  {
    && (forall fd :: fd in live ==> IsFd(fd))
    && (forall j :: 0 <= j < |s| && s[j].Live? ==> exists fd :: fd in live && IsFd(fd) && FdKey(fd) == s[j].key)
  }

  /** The connection of a descriptor is in a slot that a probe for another descriptor comes to before
      it comes to slot `q`. */
  ghost predicate OnTheWay<V>(s: seq<Slot<V>>, other: int, fd: int, q: nat)
    requires q < |s| && IsFd(fd) && IsFd(other)
  {
    exists j :: && 0 <= j < |s| && s[j].Live? && s[j].key == FdKey(other)
                && Dist(HashKey(FdKey(fd), |s|), j, |s|) < Dist(HashKey(FdKey(fd), |s|), q, |s|)
  }

  ghost predicate SomeOnTheWay<V>(s: seq<Slot<V>>, live: map<int, V>, fd: int, q: nat)
    requires q < |s| && IsFd(fd)
  {
    exists other :: other in live && IsFd(other) && other != fd && OnTheWay(s, other, fd, q)
  }

  lemma SomeOnTheWayIff<V>(s: seq<Slot<V>>, live: map<int, V>, fd: int, q: nat)
    requires KeyedByFds(s, live) && IsFd(fd) && FirstStop(s, AsDocumented, FdKey(fd), q)
    ensures SomeOnTheWay(s, live, fd, q) <==> Blocked(s, FdKey(fd), q)
  {
    var key, h := FdKey(fd), HashKey(FdKey(fd), |s|);
    if Blocked(s, key, q) {
      var j :| 0 <= j < |s| && Dist(h, j, |s|) < Dist(h, q, |s|) && s[j].Live? && |s[j].key| == |key|;
      var other :| other in live && IsFd(other) && FdKey(other) == s[j].key;
      assert HashCompare(AsDocumented, s[j], key);
      assert OnTheWay(s, other, fd, q);
    }
  }

  /** What comes of a readable event: the connection and the world afterwards, or what the disk holds
      when the process has ended. */
  datatype Turn = Went(s: State) | Gone(disk: Disk)

  ghost function TurnOf(cfg: Config, s: State, cuts: seq<nat>): Turn
    requires Running(s.conn)
  {
    if Exits(s.conn) then Gone(s.world.disk)
    else if Ends(cfg, s, cuts) then Gone(AfterReads(cfg, s, cuts).world.disk)
    else Went(Event(cfg, s, cuts))
  }

  /** One connection in focus: the record, which is right of all the others, and the state of that
      connection as it is. */
  datatype Focus = Focus(hub: Hub, s: State)

  class ClientLoop {
    const cfg: Config
    const offsets: Offsets
    const store: Store
    const table: HashTable<Connection>
    ghost var live: map<int, Connection>
    ghost var hub: Hub

    /** The table holds the live connections, each under the key of its descriptor. */
    ghost predicate InTable()
      reads this`live, table, table.memory
    {
      && table.Valid() && table.reading == AsDocumented
      && (forall fd :: fd in live ==> IsFd(fd) && FdKey(fd) in table.contents && table.contents[FdKey(fd)] == live[fd])
      && (forall key :: key in table.contents ==> exists fd :: fd in live && IsFd(fd) && FdKey(fd) == key)
    }

    /** A key is in the table exactly if it is that of a live connection. */
    ghost predicate Keyed(key: string)
      reads this`live, table, table.memory
    {
      InTable() && (key in table.contents <==> exists fd :: fd in live && IsFd(fd) && FdKey(fd) == key)
    }

    ghost predicate Registered()
      reads this`live, table, table.memory
    {
      forall key :: Keyed(key)
    }

    lemma RegisteredIff()
      ensures Registered() <==> InTable()
    {
      if Registered() {
        assert Keyed("");
      }
    }

    ghost function AsWorld(): World
      reads store
    {
      World(store.AsDisk(), store.counter, store.ticks)
    }

    /** The value of a connection of this server. */
    ghost function View(connection: Connection): Option<Conn>
      reads connection, connection.address
    {
      if connection.cfg == cfg && connection.store == store && connection.offsets == offsets && connection.Valid()
      then Some(connection.AsConn())
      else None
    }

    /** The value of all of it, which the server keeps on record, if the record is right. */
    ghost function AsHub(): Option<Hub>
      reads *
    {
      if && Registered() && Separate(live) && hub.world == AsWorld()
         && (forall fd :: fd in live <==> fd in hub.conns)
         && (forall fd :: fd in live ==> View(live[fd]) == Some(hub.conns[fd]))
      then Some(hub)
      else None
    }

    ghost predicate Valid()
      reads *
    {
      AsHub() == Some(hub) && AllSound(hub)
    }

    constructor (cfg: Config, offsets: Offsets, store: Store)
      ensures Valid() && fresh(table) && fresh(table.memory)
      ensures this.cfg == cfg && this.offsets == offsets && this.store == store
      ensures hub == Hub(map[], World(store.AsDisk(), store.counter, store.ticks))
    {
      this.cfg, this.offsets, this.store := cfg, offsets, store;
      table := new HashTable<Connection>(100, 85, 100, 2, 0, AsDocumented);
      live := map[];
      hub := Hub(map[], World(store.AsDisk(), store.counter, store.ticks));
    }

    // ----- the table -------------------------------------------------------------------------

    /** The connection that is registered under a descriptor. */
    method Lookup(fd: int) returns (connection: Connection)
      requires Registered() && fd in live
      ensures connection == live[fd]
    {
      RegisteredIff();
      var bucket := table.Get(FdKey(fd));
      connection := bucket.value;
    }

    /** With the comparison as written, the probe for a descriptor gives its connection, or none if it
        has none, if and only if no other live connection lies on the way to that answer. */
    lemma WrittenLookupIff(fd: int, p: nat, q: nat)
      requires Registered() && IsFd(fd)
      requires FirstStop(table.memory[..], AsWritten, FdKey(fd), p)
      requires FirstStop(table.memory[..], AsDocumented, FdKey(fd), q)
      ensures table.memory[p] == (if fd in live then Live(FdKey(fd), live[fd]) else Empty)
              <==> !SomeOnTheWay(table.memory[..], live, fd, q)
    {
      RegisteredIff();
      var s := table.memory[..];
      KeysAreFds(s);
      SomeOnTheWayIff(s, live, fd, q);
      WrittenProbeIsLookupIff(s, table.contents, FdKey(fd), p, q);
      assert s[p] == table.memory[p];
      FdInTable(fd);
    }

    lemma FdInTable(fd: int)
      requires InTable() && IsFd(fd)
      ensures FdKey(fd) in table.contents <==> fd in live
      ensures fd in live ==> table.contents[FdKey(fd)] == live[fd]
    {
      if FdKey(fd) in table.contents {
        var other :| other in live && IsFd(other) && FdKey(other) == FdKey(fd);
        FdKeysDiffer(other, fd);
      }
    }

    lemma KeysAreFds(s: seq<Slot<Connection>>)
      requires InTable() && s == table.memory[..]
      ensures KeyedByFds(s, live) && Represents(s, table.contents)
    {
    }

    method AddToTable(fd: int, connection: Connection)
      requires InTable() && IsFd(fd) && fd !in live
      modifies this`live, table, table.memory
      ensures InTable() && live == old(live)[fd := connection]
      ensures table.memory == old(table.memory) || fresh(table.memory)
    {
      forall other | other in live
        ensures FdKey(other) != FdKey(fd)
      {
        FdKeysDiffer(other, fd);
      }
      assert FdKey(fd) !in table.contents;
      table.Add(FdKey(fd), connection);
      live := live[fd := connection];
    }

    /** A new connection enters the table. */
    method Register(fd: int, connection: Connection)
      requires Registered() && IsFd(fd) && fd !in live
      modifies this`live, table, table.memory
      ensures Registered() && live == old(live)[fd := connection]
      ensures table.memory == old(table.memory) || fresh(table.memory)
    {
      RegisteredIff();
      AddToTable(fd, connection);
      RegisteredIff();
    }

    method RemoveFromTable(fd: int)
      requires InTable() && fd in live
      modifies this`live, table, table.memory
      ensures InTable() && live == old(live) - {fd}
      ensures table.memory == old(table.memory)
    {
      forall other | other in live && other != fd
        ensures FdKey(other) != FdKey(fd)
      {
        FdKeysDiffer(other, fd);
      }
      table.Remove(FdKey(fd));
      live := live - {fd};
    }

    /** A closed connection leaves the table. */
    method Unregister(fd: int)
      requires Registered() && fd in live
      modifies this`live, table, table.memory
      ensures Registered() && live == old(live) - {fd}
      ensures table.memory == old(table.memory)
    {
      RegisteredIff();
      RemoveFromTable(fd);
      RegisteredIff();
    }

    // ----- the events ------------------------------------------------------------------------

    twostate lemma ViewStays(connection: Connection)
      requires unchanged(connection, connection.address)
      ensures View(connection) == old(View(connection))
    {
    }

    /** All views but that of one connection are those on record. */
    ghost predicate OthersAsRecorded(fd: int)
      reads *
    {
      && Registered() && Separate(live) && fd in live
      && (forall other :: other in live <==> other in hub.conns)
      && (forall other :: other in live && other != fd ==> View(live[other]) == Some(hub.conns[other]))
    }

    ghost function On(fd: int, connection: Connection): Option<Focus>
      reads *
    {
      if OthersAsRecorded(fd) && connection == live[fd] && View(connection).Some?
      then Some(Focus(hub, State(View(connection).value, AsWorld())))
      else None
    }

    lemma FocusOn(fd: int, s: State)
      requires AsHub() == Some(hub) && fd in live && s == State(hub.conns[fd], hub.world)
      ensures On(fd, live[fd]) == Some(Focus(hub, s))
    {
    }

    /** The others stay as they are while only that connection changes. */
    twostate lemma OthersStay(fd: int)
      requires old(OthersAsRecorded(fd)) && unchanged(this) && unchanged(table)
      requires old(allocated(table.memory)) && unchanged(table.memory)
      requires forall other :: other in live && other != fd ==>
                 old(allocated(live[other])) && old(allocated(live[other].address))
                 && unchanged(live[other]) && unchanged(live[other].address)
      ensures OthersAsRecorded(fd)
    {
      forall other | other in live && other != fd
        ensures View(live[other]) == old(View(live[other]))
      {
        ViewStays(live[other]);
      }
    }

    /** The record is replaced by one that is right. */
    method Put(ghost after: Hub)
      requires Registered() && Separate(live) && after.world == AsWorld()
      requires forall fd :: fd in live <==> fd in after.conns
      requires forall fd :: fd in live ==> View(live[fd]) == Some(after.conns[fd])
      modifies this`hub
      ensures AsHub() == Some(after)
    {
      ghost var members := live;
      hub := after;
      assert forall fd :: fd in live ==> View(live[fd]) == Some(hub.conns[fd]);
    }

    method Record(fd: int, connection: Connection, ghost s: State, ghost after: Hub)
      requires On(fd, connection) == Some(Focus(hub, s)) && after == Hub(hub.conns[fd := s.conn], s.world)
      modifies this`hub
      ensures AsHub() == Some(after)
    {
      Put(after);
    }

    /** A descriptor leaves the table, and the views of the others stay. */
    method Remove(fd: int, ghost conns: map<int, Conn>)
      requires Registered() && fd in live
      requires forall other :: other in live && other != fd ==>
                 other in conns && View(live[other]) == Some(conns[other])
      modifies this`live, table, table.memory
      ensures Registered() && live == old(live) - {fd} && table.memory == old(table.memory)
      ensures forall other :: other in live ==> other in conns && View(live[other]) == Some(conns[other])
    {
      ghost var members := live;
      Unregister(fd);
      forall other | other in members
        ensures View(members[other]) == old(View(members[other]))
      {
        ViewStays(members[other]);
      }
    }

    /** A closed connection leaves the table. */
    method Retire(fd: int, ghost after: Hub)
      requires OthersAsRecorded(fd) && after == Hub(hub.conns - {fd}, AsWorld())
      modifies this`live, this`hub, table, table.memory
      ensures AsHub() == Some(after)
      ensures table.memory == old(table.memory) && live == old(live) - {fd}
    {
      SeparateWithout(live, fd);
      Remove(fd, hub.conns);
      Put(after);
    }

    /** The value after an event of one connection. */
    method AfterEvent(fd: int, connection: Connection, ghost s: State, ghost after: Hub)
      requires On(fd, connection) == Some(Focus(hub, s)) && after == PutBack(hub, fd, s)
      modifies this`live, this`hub, table, table.memory
      ensures AsHub() == Some(after)
      ensures table.memory == old(table.memory)
      ensures live == if s.conn.open then old(live) else old(live) - {fd}
    {
      assert connection.open == s.conn.open;
      if connection.open {
        Record(fd, connection, s, after);
      } else {
        Retire(fd, after);
      }
    }

    /** What a readable event of a connection asks for. */
    ghost predicate Readied(connection: Connection, s: State, cuts: seq<nat>)
      reads connection
    {
      && Fits(cfg) && FindsFirst(cfg) && Sound(s.conn) && s.conn.open && Running(s.conn)
      && WritesElsewhere(cfg, AfterReads(cfg, s, cuts)) && (!Exits(s.conn) ==> connection.ReadsInOrder(cuts))
    }

    /** The event of a connection alone. */
    method Read(connection: Connection, cuts: seq<nat>, ghost s: State, ghost turn: Turn) returns (exited: bool)
      requires View(connection) == Some(s.conn) && s.world == AsWorld()
      requires Readied(connection, s, cuts) && turn == TurnOf(cfg, s, cuts)
      modifies store, connection, connection.address
      ensures exited == turn.Gone? && (exited ==> store.AsDisk() == turn.disk)
      ensures !exited ==> View(connection) == Some(turn.s.conn) && AsWorld() == turn.s.world
    {
      exited := connection.OnReadable(cuts);
    }

    method ReadOne(fd: int, connection: Connection, cuts: seq<nat>, ghost s: State, ghost turn: Turn)
      returns (exited: bool)
      requires On(fd, connection) == Some(Focus(hub, s)) && Readied(connection, s, cuts) && turn == TurnOf(cfg, s, cuts)
      modifies store, connection, connection.address
      ensures exited == turn.Gone? && (exited ==> store.AsDisk() == turn.disk)
      ensures !exited ==> On(fd, connection) == Some(Focus(hub, turn.s))
    {
      assert table.memory.Length >= 0;
      label before:
      exited := Read(connection, cuts, s, turn);
      OthersStay@before(fd);
    }

    /** The loop goes on with the value after an event, unless the process has ended. */
    method AfterTurn(fd: int, connection: Connection, exited: bool, ghost turn: Turn, ghost after: Hub)
      requires !exited ==>
                 turn.Went? && On(fd, connection) == Some(Focus(hub, turn.s)) && after == PutBack(hub, fd, turn.s)
      modifies this`live, this`hub, table, table.memory
      ensures !exited ==> AsHub() == Some(after)
      ensures table.memory == old(table.memory)
      ensures live == if exited || turn.s.conn.open then old(live) else old(live) - {fd}
    {
      if !exited {
        AfterEvent(fd, connection, turn.s, after);
      }
    }

    /** The event of a registered connection: the loop goes on, or the process ends. */
    method ReadConnection(fd: int, connection: Connection, cuts: seq<nat>, ghost s: State, ghost turn: Turn,
                          ghost after: Hub) returns (exited: bool)
      requires On(fd, connection) == Some(Focus(hub, s)) && Readied(connection, s, cuts) && turn == TurnOf(cfg, s, cuts)
      requires turn.Went? ==> after == PutBack(hub, fd, turn.s)
      modifies this`live, this`hub, table, table.memory, store, connection, connection.address
      ensures exited == turn.Gone? && (exited ==> store.AsDisk() == turn.disk) && (!exited ==> AsHub() == Some(after))
      ensures table.memory == old(table.memory)
      ensures live == if exited || turn.s.conn.open then old(live) else old(live) - {fd}
    {
      exited := ReadOne(fd, connection, cuts, s, turn);
      AfterTurn(fd, connection, exited, turn, after);
    }

    /** The hang-up of a connection alone. */
    method Drop(connection: Connection, ghost s: State, ghost s': State)
      requires View(connection) == Some(s.conn) && s.world == AsWorld() && s.conn.open && s' == HangUp(cfg, s)
      modifies store`files, connection
      ensures View(connection) == Some(s'.conn) && s'.world == AsWorld()
    {
      connection.OnHangUp();
    }

    method DropOne(fd: int, connection: Connection, ghost s: State, ghost s': State)
      requires On(fd, connection) == Some(Focus(hub, s)) && s.conn.open && s' == HangUp(cfg, s)
      modifies store`files, connection
      ensures On(fd, connection) == Some(Focus(hub, s'))
    {
      assert table.memory.Length >= 0;
      label before:
      Drop(connection, s, s');
      OthersStay@before(fd);
    }

    method DropConnection(fd: int, connection: Connection, ghost s: State, ghost s': State, ghost after: Hub)
      requires On(fd, connection) == Some(Focus(hub, s)) && s.conn.open && s' == HangUp(cfg, s)
      requires after == PutBack(hub, fd, s')
      modifies this`live, this`hub, table, table.memory, store`files, connection
      ensures AsHub() == Some(after)
      ensures table.memory == old(table.memory)
      ensures live == if s'.conn.open then old(live) else old(live) - {fd}
    {
      DropOne(fd, connection, s, s');
      AfterEvent(fd, connection, s', after);
    }

    /** A descriptor enters the table, and all views stay. */
    method Insert(fd: int, connection: Connection, ghost members: map<int, Connection>)
      requires Registered() && IsFd(fd) && fd !in live && members == live[fd := connection]
      modifies this`live, table, table.memory
      ensures Registered() && live == members && (table.memory == old(table.memory) || fresh(table.memory))
      ensures forall other :: other in members ==> View(members[other]) == old(View(members[other]))
    {
      Register(fd, connection);
      forall other | other in members
        ensures View(members[other]) == old(View(members[other]))
      {
        ViewStays(members[other]);
      }
    }

    method Enter(fd: int, connection: Connection, ghost conn: Conn, ghost members: map<int, Connection>,
                 ghost after: Hub)
      requires AsHub() == Some(hub) && IsFd(fd) && fd !in live && View(connection) == Some(conn)
      requires members == live[fd := connection] && Separate(members)
      requires after == hub.(conns := hub.conns[fd := conn])
      modifies this`live, this`hub, table, table.memory
      ensures AsHub() == Some(after)
      ensures table.memory == old(table.memory) || fresh(table.memory)
      ensures live == members
    {
      Insert(fd, connection, members);
      Put(after);
    }

    method AddConnection(fd: int, input: seq<byte>, ghost after: Hub) returns (connection: Connection)
      requires AsHub() == Some(hub) && IsFd(fd) && fd !in live
      requires after == hub.(conns := hub.conns[fd := NewConn(input)])
      modifies this`live, this`hub, table, table.memory
      ensures AsHub() == Some(after)
      ensures table.memory == old(table.memory) || fresh(table.memory)
      ensures live == old(live)[fd := connection] && fresh(connection) && fresh(connection.address)
    {
      connection := new Connection(cfg, store, offsets, fd, input);
      SeparateWith(live, fd, connection);
      Enter(fd, connection, NewConn(input), live[fd := connection], after);
    }

    // ----- the events ------------------------------------------------------------------------

    /** A readable descriptor: for every way its reads are cut, exactly the step of the server, or the
        end of the process. */
    method OnReadable(fd: int, cuts: seq<nat>) returns (exited: bool)
      requires Valid() && fd in live && Readied(live[fd], State(hub.conns[fd], hub.world), cuts)
      modifies this`live, this`hub, table, table.memory, store, live[fd], live[fd].address
      ensures !exited ==> Valid() && ServerStep(cfg, old(hub), Readable(fd, cuts)) == Up(hub)
      ensures exited ==> ServerStep(cfg, old(hub), Readable(fd, cuts)) == Down(store.AsDisk())
      ensures table.memory == old(table.memory)
      ensures live == old(live) || live == old(live) - {fd}
    {
      ghost var s := State(hub.conns[fd], hub.world);
      ghost var turn, after := ReadableStep(fd, cuts, s);
      FocusOn(fd, s);
      var connection := Lookup(fd);
      exited := ReadConnection(fd, connection, cuts, s, turn, after);
    }

    lemma ReadableStep(fd: int, cuts: seq<nat>, s: State) returns (turn: Turn, after: Hub)
      requires AllSound(hub) && fd in hub.conns && s == State(hub.conns[fd], hub.world)
      ensures Running(s.conn) && turn == TurnOf(cfg, s, cuts)
      ensures turn.Went? ==> after == PutBack(hub, fd, turn.s) && AllSound(after)
      ensures ServerStep(cfg, hub, Readable(fd, cuts)) ==
              match turn
              case Gone(disk) => Down(disk)
              case Went(_) => Up(after)
    {
      assert Sound(s.conn);
      turn := TurnOf(cfg, s, cuts);
      after := if turn.Went? then PutBack(hub, fd, turn.s) else hub;
      StepKeepsSound(cfg, hub, Readable(fd, cuts));
    }

    /** A descriptor that hung up. */
    method OnHangUp(fd: int)
      requires Valid() && fd in live
      modifies this`live, this`hub, table, table.memory, store`files, live[fd]
      ensures Valid() && table.memory == old(table.memory)
      ensures ServerStep(cfg, old(hub), HungUp(fd)) == Up(hub)
      ensures live == old(live) || live == old(live) - {fd}
    {
      ghost var s := State(hub.conns[fd], hub.world);
      ghost var s' := HangUp(cfg, s);
      ghost var after := PutBack(hub, fd, s');
      HungUpStep(fd, s, s', after);
      FocusOn(fd, s);
      var connection := Lookup(fd);
      DropConnection(fd, connection, s, s', after);
    }

    lemma HungUpStep(fd: int, s: State, s': State, after: Hub)
      requires AllSound(hub) && fd in hub.conns && s == State(hub.conns[fd], hub.world)
      requires s' == HangUp(cfg, s) && after == PutBack(hub, fd, s')
      ensures ServerStep(cfg, hub, HungUp(fd)) == Up(after) && AllSound(after)
    {
      StepKeepsSound(cfg, hub, HungUp(fd));
    }

    /** A client connects. The kernel hands out a descriptor that is not in use, or none, which is
        logged as fatal. */
    method OnAccept(fd: int, input: seq<byte>) returns (exited: bool)
      requires Valid() && (fd < 0 || (IsFd(fd) && fd !in live))
      modifies this`live, this`hub, table, table.memory
      ensures Valid() && (table.memory == old(table.memory) || fresh(table.memory))
      ensures exited == (fd < 0)
      ensures ServerStep(cfg, old(hub), Accept(fd, input)) == if exited then Down(store.AsDisk()) else Up(hub)
      ensures if exited then live == old(live)
              else fd in live && live == old(live)[fd := live[fd]] && fresh(live[fd]) && fresh(live[fd].address)
    {
      if fd < 0 {
        return true;
      }
      ghost var after := ServerStep(cfg, hub, Accept(fd, input)).hub;
      StepKeepsSound(cfg, hub, Accept(fd, input));
      var connection := AddConnection(fd, input, after);
      return false;
    }

    /** What an event asks for is there in every tame step of a server that keeps its promises, with the
        meant offsets. */
    lemma TameIsReadied(fd: int, cuts: seq<nat>, s: State)
      requires Valid() && Distinct(cfg) && ServerInv(cfg, hub) && fd in live && TameStep(cfg, hub, Readable(fd, cuts))
      requires Fits(cfg) && FindsFirst(cfg) && offsets.MovesForFiles?
      requires s == State(hub.conns[fd], hub.world)
      ensures Readied(live[fd], s, cuts)
    {
      assert View(live[fd]) == Some(s.conn);
      if Ends(cfg, s, cuts) {
        EndingIsProper(cfg, s, cuts);
      }
      TameWritesElsewhere(cfg, s, cuts);
    }
  }

  /** An event that ends the process completes no headers that ask to write a file. */
  lemma EndingIsProper(cfg: Config, s: State, cuts: seq<nat>)
    requires Sound(s.conn) && s.conn.open && Ends(cfg, s, cuts)
    ensures Running(s.conn) && Proper(cfg, AfterReads(cfg, s, cuts))
  {
    ReadableEndsIff(cfg, s, cuts);
  }

  lemma TameWritesElsewhere(cfg: Config, s: State, cuts: seq<nat>)
    requires Distinct(cfg) && Sound(s.conn) && s.conn.open && Owns(cfg, s.conn, s.world)
    ensures Running(s.conn)
    ensures Proper(cfg, AfterReads(cfg, s, cuts)) ==> WritesElsewhere(cfg, AfterReads(cfg, s, cuts))
  {
    ReadSomeOwns(cfg, s, TakenNow(s.conn, cuts));
    if Proper(cfg, AfterReads(cfg, s, cuts)) {
      ProperWritesElsewhere(cfg, AfterReads(cfg, s, cuts));
    }
  }
}

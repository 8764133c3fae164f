/** When a packet is taken, and that every packet that is taken comes to an end: after a bounded number
    of readable events that deliver something there is exactly one more record, and it is its own. */
module Progress {
  import opened Exchanges
  import opened Headers
  import opened Protocol
  import opened Servers
  import opened Transcripts
  import opened Wire

  // ----- the start of a packet ---------------------------------------------------------------

  /** What the eight bytes of a magic word announce: the headers in units of 16, and the body in six
      bytes, lowest first. */
  function Announces(word: seq<byte>): Header
    requires |word| == 8
  {
    Header(word[7], 16 * (word[6] as nat), FromLittleEndian(word[..6]))
  }

  lemma WordIsRead(c: Conn, word: seq<byte>)
    requires Sound(c) && c.phase.MagicRead? && c.index == c.length && word == c.input[c.consumed - 8..c.consumed]
    ensures c.got == word && ParseMagic(FromLittleEndian(c.got)) == Announces(word)
  {
    WordFromBytes(word);
  }

  lemma MagicDoneIs(s: State, word: seq<byte>, info: Header)
    requires s.conn.got == word && ParseMagic(FromLittleEndian(word)) == info
    ensures MagicDone(s) ==
            if info.magic != 0xD0 then (s, false)
            else
              (State(s.conn.(phase := HeadersRead, index := 0, length := info.headerLength, got := [], code := SUCCESS,
                             request := Some(Request(info, Create, None, "", None, false, false, 0, false))),
                     s.world), true)
  {
  }

  /** A complete magic word is taken if and only if its last byte is 0xD0: the connection stays open and
      waits for headers of the announced length, with a new request of the announced lengths. Otherwise
      it is closed, with no response and no record. */
  lemma MagicIsTakenIff(cfg: Config, s: State, word: seq<byte>, t: State)
    requires Sound(s.conn) && s.conn.open && s.conn.phase.MagicRead? && s.conn.index == s.conn.length
    requires word == s.conn.input[s.conn.consumed - 8..s.conn.consumed] && t == Dispatch(cfg, s)
    ensures t.conn.open <==> word[7] == 0xD0
    ensures t.conn.open ==>
              t.conn ==
              s.conn.(phase := HeadersRead, index := 0, length := 16 * (word[6] as nat), got := [], code := SUCCESS,
                      request := Some(Request(Announces(word), Create, None, "", None, false, false, 0, false)))
    ensures !t.conn.open ==> t.conn.done == s.conn.done && t.conn.out == s.conn.out
  {
    WordIsRead(s.conn, word);
    MagicDoneIs(s, word, Announces(word));
  }

  // ----- on the way through a packet ---------------------------------------------------------

  /** A connection is on its way through the packet that starts at a position of its stream. */
  ghost predicate Underway(c: Conn, at: nat, info: Header, done: seq<Exchange>)
  {
    && Sound(c) && c.open && c.done == done && at == UsedBy(done)
    && at + 8 <= |c.input| && info == Announces(c.input[at..at + 8]) && info.magic == 0xD0
    && (!c.phase.MagicRead? ==> c.request.value.info == info)
  }

  /** How many events can still deliver something before the packet is finished, at most. */
  function Left(c: Conn, info: Header): nat
    requires c.index <= c.length
  {
    c.length - c.index +
    match c.phase
    case MagicRead => 1 + info.headerLength + 1 + info.dataLength + 8
    case HeadersRead => 1 + info.dataLength + 8
    case ConfirmUpload => 0
    case Upload => 0
  }

  /** The socket has bytes for the first read of an event. */
  predicate Delivers(cuts: seq<nat>)
  {
    cuts != [] && cuts[0] > 0
  }

  /** The stream has ended in the middle of a phase. */
  predicate Starved(c: Conn)
  {
    c.index < c.length && c.consumed == |c.input|
  }

  lemma TakesSome(c: Conn, cuts: seq<nat>)
    requires c.index < c.length && c.consumed < |c.input| && Delivers(cuts)
    ensures TakenNow(c, cuts) > 0
  {
  }

  /** The packet has gone on record, as one more. */
  predicate OnRecord(c: Conn, t: Conn, info: Header)
  {
    |t.done| == |c.done| + 1 && t.done[..|c.done|] == c.done && t.done[|c.done|].request.info == info
  }

  /** The packet has gone on record, or the connection has got further. */
  ghost predicate GetsOn(c: Conn, t: Conn, at: nat, info: Header)
    requires c.index <= c.length
  {
    OnRecord(c, t, info) || (Underway(t, at, info, c.done) && t.input == c.input && Left(t, info) < Left(c, info))
  }

  lemma WordOfPacket(c: Conn, at: nat, info: Header)
    requires Underway(c, at, info, c.done) && c.phase.MagicRead? && c.index == c.length
    ensures c.consumed == at + 8 && info == Announces(c.input[c.consumed - 8..c.consumed])
  {
  }

  lemma MagicGetsOn(cfg: Config, s: State, at: nat, info: Header, t: State)
    requires Underway(s.conn, at, info, s.conn.done) && s.conn.phase.MagicRead? && s.conn.index == s.conn.length
    requires t == Dispatch(cfg, s)
    ensures GetsOn(s.conn, t.conn, at, info)
  {
    var word := s.conn.input[s.conn.consumed - 8..s.conn.consumed];
    WordOfPacket(s.conn, at, info);
    MagicIsTakenIff(cfg, s, word, t);
    DispatchIsSound(cfg, s);
  }

  lemma OthersGetOn(cfg: Config, s: State, at: nat, info: Header, t: State)
    requires Underway(s.conn, at, info, s.conn.done) && !s.conn.phase.MagicRead? && s.conn.index == s.conn.length
    requires t == Dispatch(cfg, s)
    ensures GetsOn(s.conn, t.conn, at, info)
  {
    DispatchIsSound(cfg, s);
    OneRecordPerPacket(cfg, s);
    WaitsForLess(cfg, s, t);
  }

  /** What a packet waits for after its headers is its body, or the eight bytes of a confirmation; after
      that it waits for nothing. */
  lemma WaitsForLess(cfg: Config, s: State, t: State)
    requires Sound(s.conn) && s.conn.open && !s.conn.phase.MagicRead? && s.conn.index == s.conn.length
    requires t == Dispatch(cfg, s) && Sound(t.conn) && GoesOnOrEnds(s.conn, t.conn)
    ensures t.conn.request.Some? ==>
              && s.conn.phase.HeadersRead? && !t.conn.phase.MagicRead? && !t.conn.phase.HeadersRead?
              && t.conn.index == 0 && t.conn.length <= s.conn.request.value.info.dataLength + 8
  {
    if !s.conn.phase.HeadersRead? {
      UploadDoneKeepsRequest(cfg, s, s.conn.request.value);
    }
  }

  lemma DispatchGetsOn(cfg: Config, s: State, at: nat, info: Header, t: State)
    requires Underway(s.conn, at, info, s.conn.done) && s.conn.index == s.conn.length && t == Dispatch(cfg, s)
    ensures GetsOn(s.conn, t.conn, at, info)
  {
    if s.conn.phase.MagicRead? {
      MagicGetsOn(cfg, s, at, info, t);
    } else {
      OthersGetOn(cfg, s, at, info, t);
    }
  }

  lemma ReadGetsOn(cfg: Config, s: State, n: nat, at: nat, info: Header, u: State)
    requires Underway(s.conn, at, info, s.conn.done)
    requires s.conn.index + n <= s.conn.length && s.conn.consumed + n <= |s.conn.input| && u == ReadSome(cfg, s, n)
    ensures Underway(u.conn, at, info, s.conn.done) && u.conn.input == s.conn.input
    ensures Left(u.conn, info) == Left(s.conn, info) - n
  {
    ReadSomeIsSound(cfg, s, n);
    ReadKeepsDone(cfg, s, n, u);
  }

  /** An event that delivers something, or finds a callback due, brings a packet on, or on record; any
      other one leaves it where it is. */
  lemma EventGetsOn(cfg: Config, s: State, cuts: seq<nat>, at: nat, info: Header, t: State)
    requires Underway(s.conn, at, info, s.conn.done) && !Exits(s.conn) && t == Event(cfg, s, cuts)
    ensures Starved(s.conn) ==> t == s
    ensures !Starved(s.conn) && Delivers(cuts) ==> GetsOn(s.conn, t.conn, at, info)
    ensures t == s || GetsOn(s.conn, t.conn, at, info)
  {
    var n, u := TakenNow(s.conn, cuts), AfterReads(cfg, s, cuts);
    ReadGetsOn(cfg, s, n, at, info, u);
    if !Starved(s.conn) && Delivers(cuts) && s.conn.index < s.conn.length {
      TakesSome(s.conn, cuts);
    }
    if u.conn.index == u.conn.length {
      DispatchGetsOn(cfg, u, at, info, t);
    }
  }

  // ----- runs of the server ------------------------------------------------------------------

  /** The client stays: it does not hang up. */
  predicate Remains(events: seq<ServerEvent>, fd: int)
  {
    forall i :: 0 <= i < |events| ==> events[i] != HungUp(fd)
  }

  /** The number of readable events of a descriptor that deliver something. */
  function Deliveries(events: seq<ServerEvent>, fd: int): nat
    decreases events
  {
    if events == [] then 0
    else (if events[0].Readable? && events[0].fd == fd && Delivers(events[0].cuts) then 1 else 0)
         + Deliveries(events[1..], fd)
  }

  /** A step puts the packet at hand in a connection on record, as one more. */
  predicate Finishes(cfg: Config, srv: Hub, e: ServerEvent, fd: int, info: Header)
  {
    && e.Readable? && e.fd == fd && fd in srv.conns && !Fatal(cfg, srv, e)
    && OnRecord(srv.conns[fd], Afterwards(cfg, srv, e).conn, info)
  }

  /** A run does, at one of its steps; before that, nothing goes on record for the connection. */
  predicate ComesToAnEnd(cfg: Config, srv: Hub, events: seq<ServerEvent>, fd: int, info: Header)
    decreases events
  {
    events != [] &&
    (|| Finishes(cfg, srv, events[0], fd, info)
     || match ServerStep(cfg, srv, events[0])
        case Down(_) => false
        case Up(next) =>
          && fd in srv.conns && fd in next.conns && next.conns[fd].done == srv.conns[fd].done
          && ComesToAnEnd(cfg, next, events[1..], fd, info))
  }

  /** A packet that is under way in a connection, or on record. */
  ghost predicate StepsOn(cfg: Config, srv: Hub, e: ServerEvent, fd: int, at: nat, info: Header, next: Hub)
    requires fd in srv.conns && srv.conns[fd].index <= srv.conns[fd].length
  {
    || Finishes(cfg, srv, e, fd, info)
    || (&& fd in next.conns && Underway(next.conns[fd], at, info, srv.conns[fd].done)
        && next.conns[fd].input == srv.conns[fd].input
        && Left(next.conns[fd], info) + Deliveries([e], fd) <= Left(srv.conns[fd], info))
  }

  lemma OneDelivery(e: ServerEvent, fd: int)
    ensures Deliveries([e], fd) == if e.Readable? && e.fd == fd && Delivers(e.cuts) then 1 else 0
  {
    assert [e][1..] == [];
  }

  lemma OwnStep(cfg: Config, srv: Hub, e: ServerEvent, fd: int, at: nat, info: Header, next: Hub, t: State)
    requires e.Readable? && e.fd == fd && fd in srv.conns && !Fatal(cfg, srv, e)
    requires Underway(srv.conns[fd], at, info, srv.conns[fd].done)
    requires t == Afterwards(cfg, srv, e) && next == PutBack(srv, fd, t)
    ensures if Starved(srv.conns[fd]) then fd in next.conns && next.conns[fd] == srv.conns[fd]
            else StepsOn(cfg, srv, e, fd, at, info, next)
  {
    EventGetsOn(cfg, State(srv.conns[fd], srv.world), e.cuts, at, info, t);
    OneDelivery(e, fd);
  }

  lemma StepGetsOn(cfg: Config, srv: Hub, e: ServerEvent, fd: int, at: nat, info: Header, next: Hub)
    requires fd in srv.conns && Underway(srv.conns[fd], at, info, srv.conns[fd].done) && e != HungUp(fd)
    requires ServerStep(cfg, srv, e) == Up(next)
    ensures if Starved(srv.conns[fd]) then fd in next.conns && next.conns[fd] == srv.conns[fd]
            else StepsOn(cfg, srv, e, fd, at, info, next)
  {
    if e.Readable? && e.fd == fd {
      OwnStep(cfg, srv, e, fd, at, info, next, Afterwards(cfg, srv, e));
    } else {
      OneDelivery(e, fd);
    }
  }

  lemma {:induction false} StarvedStays(cfg: Config, srv: Hub, events: seq<ServerEvent>, fd: int, at: nat, info: Header,
                                        later: Hub)
    requires fd in srv.conns && Underway(srv.conns[fd], at, info, srv.conns[fd].done) && Starved(srv.conns[fd])
    requires Remains(events, fd) && RunServer(cfg, srv, events) == Up(later)
    ensures fd in later.conns && later.conns[fd] == srv.conns[fd]
    decreases events
  {
    if events != [] {
      var next := ServerStep(cfg, srv, events[0]).hub;
      StepGetsOn(cfg, srv, events[0], fd, at, info, next);
      StarvedStays(cfg, next, events[1..], fd, at, info, later);
    }
  }

  /** What a run makes of a packet that is under way, if its client stays and the process survives: it is
      finished, or its stream has ended, or it is still under way, with fewer deliveries to go. */
  lemma {:induction false} RunGetsOn(cfg: Config, srv: Hub, events: seq<ServerEvent>, fd: int, at: nat, info: Header,
                                     later: Hub)
    requires fd in srv.conns && Underway(srv.conns[fd], at, info, srv.conns[fd].done)
    requires Remains(events, fd) && RunServer(cfg, srv, events) == Up(later)
    ensures ComesToAnEnd(cfg, srv, events, fd, info)
            || (&& fd in later.conns && Underway(later.conns[fd], at, info, srv.conns[fd].done)
                && later.conns[fd].input == srv.conns[fd].input
                && (|| Starved(later.conns[fd])
                    || Left(later.conns[fd], info) + Deliveries(events, fd) <= Left(srv.conns[fd], info)))
    decreases events
  {
    if Starved(srv.conns[fd]) {
      StarvedStays(cfg, srv, events, fd, at, info, later);
    } else if events != [] {
      var next := ServerStep(cfg, srv, events[0]).hub;
      StepGetsOn(cfg, srv, events[0], fd, at, info, next);
      OneDelivery(events[0], fd);
      if !Finishes(cfg, srv, events[0], fd, info) {
        RunGetsOn(cfg, next, events[1..], fd, at, info, later);
      }
    }
  }

  /** A stream that has ended in the middle of a phase is shorter than its packet, as far as that has
      been accepted. */
  lemma StarvedIsShort(c: Conn, at: nat, info: Header)
    requires Underway(c, at, info, c.done) && Starved(c)
    ensures |c.input| < at + Extent(info, c.acts)
  {
  }

  /** At the start of a packet, with the whole magic word in the stream. */
  lemma PacketIsUnderway(c: Conn, at: nat, info: Header)
    requires Sound(c) && c.open && c.phase.MagicRead? && c.index == 0 && at == c.consumed && at + 8 <= |c.input|
    requires info == Announces(c.input[at..at + 8]) && info.magic == 0xD0
    ensures Underway(c, at, info, c.done) && Left(c, info) == info.headerLength + info.dataLength + 18
  {
  }

  /** Every packet behind a valid word comes to its end, whatever else goes on: if the process survives,
      the client stays, and more events deliver something than the packet can take, then it goes on
      record, as one more, or the stream is shorter than the packet. */
  lemma EveryPacketEnds(cfg: Config, srv: Hub, events: seq<ServerEvent>, fd: int, at: nat, info: Header, later: Hub)
    requires fd in srv.conns && Sound(srv.conns[fd]) && srv.conns[fd].open && srv.conns[fd].phase.MagicRead?
    requires srv.conns[fd].index == 0 && at == srv.conns[fd].consumed && at + 8 <= |srv.conns[fd].input|
    requires info == Announces(srv.conns[fd].input[at..at + 8]) && info.magic == 0xD0
    requires Remains(events, fd) && RunServer(cfg, srv, events) == Up(later)
    requires Deliveries(events, fd) > info.headerLength + info.dataLength + 18
    ensures ComesToAnEnd(cfg, srv, events, fd, info)
            || (fd in later.conns && |srv.conns[fd].input| < at + Extent(info, later.conns[fd].acts))
  {
    PacketIsUnderway(srv.conns[fd], at, info);
    RunGetsOn(cfg, srv, events, fd, at, info, later);
    if !ComesToAnEnd(cfg, srv, events, fd, info) {
      StarvedIsShort(later.conns[fd], at, info);
    }
  }
}

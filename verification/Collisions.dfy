/** Where the promises about many connections end: a client's name can lead to a temporary file, and
    then another connection loses the body it has read; or through one, and then that file cannot be
    opened. */
module Collisions {
  import opened Exchanges
  import opened FileNames
  import opened FileStore
  import opened Headers
  import opened Network
  import opened PathAlgebra
  import opened Protocol
  import opened Servers
  import opened Wire

  /** A client that logs in and creates a file: its stream is a magic word, headers and a body. */
  datatype Client = Client(name: string, word: seq<byte>, header: seq<byte>, body: seq<byte>)

  function StreamOf(k: Client): (stream: seq<byte>)
    ensures |stream| == |k.word| + |k.header| + |k.body|
  {
    k.word + k.header + k.body
  }

  /** The headers of a plain create by a known user. */
  ghost predicate PlainCreate(cfg: Config, list: seq<Pair>, name: string)
  {
    && ReadAction(cfg.reading, list) == Create && HasAll(cfg, list, Required(Create, cfg.strayRow))
    && Granted(cfg, list) && !Has(cfg, list, "append")
    && cfg.lookup(list, "filename").Some? && cfg.lookup(list, "filename").value.text == name != ""
  }

  ghost predicate Fair(cfg: Config, k: Client)
  {
    && |k.word| == MAGIC_LENGTH && 0 < |k.header| <= READ_BUFFER && k.body != []
    && ParseMagic(FromLittleEndian(k.word)) == Header(MAGIC, |k.header|, |k.body|)
    && PlainCreate(cfg, cfg.parse(k.header), k.name)
  }

  predicate Works(env: Env)
  {
    && env.tempFolder && env.filesFolder && env.makeFolders && env.login && env.tempOpens
    && env.end.rename && env.end.insert
  }

  /** Every call into the operating system and the database works, as far as names allow. */
  ghost predicate AllWorks(cfg: Config)
  {
    (forall n :: Works(cfg.env(n))) && (forall n: nat, i: nat :: cfg.lands(n)(i))
  }

  // ----- one connection ----------------------------------------------------------------------

  /** A connection that has been asked for the body of a plain create, with nothing read yet. */
  ghost predicate Asked(cfg: Config, c: Conn, k: Client, ticket: nat, inFile: bool)
  {
    && c.open && c.phase.ConfirmUpload? && c.index == 0 && c.length == |k.body| && c.fileOpen == inFile && c.got == []
    && c.input == StreamOf(k) && c.consumed == |k.word| + |k.header| && c.code == DATA_SEND
    && c.request.Some? && c.request.value.info == Header(MAGIC, |k.header|, |k.body|)
    && c.request.value.action.Create? && !c.request.value.append && !c.request.value.confirm
    && c.request.value.dest == cfg.names.stored(k.name) && c.request.value.key == Some(cfg.names.key(k.name))
    && c.request.value.ticket == Some(ticket)
  }

  /** The disk once a temporary file is open, or could not be opened. */
  function Opened(disk: Disk, temp: string): Disk
  {
    if Bare(disk.files, temp) then disk.(files := disk.files[temp := []]) else disk
  }

  lemma SetupWorks(cfg: Config, s: State, r: Request, list: seq<Pair>, name: string)
    requires Works(EnvOf(cfg, s)) && PlainCreate(cfg, list, name) && r.action.Create?
    ensures SetupEnvironment(cfg, s, r, list)
            == (s.(world := s.world.(counter := s.world.counter + 1)),
                r.(ticket := Some(s.world.counter + 1), key := Some(cfg.names.key(name)),
                   dest := cfg.names.stored(name)),
                SUCCESS)
  {
  }

  lemma BodyIsAskedFor(cfg: Config, s: State, r: Request, list: seq<Pair>)
    requires Works(EnvOf(cfg, s)) && !Has(cfg, list, "append") && s.conn.request == Some(r) && r.action.Create?
    requires r.ticket.Some? && r.key.Some? && !HasRow(s.world.disk, r.key.value) && r.info.dataLength > 0
    ensures var (t, ok) := AfterSetup(cfg, s, r, list, SUCCESS);
            && ok && t.conn.open == s.conn.open && t.conn.phase.ConfirmUpload? && t.conn.index == 0 && t.conn.got == []
            && t.conn.length == r.info.dataLength && t.conn.code == DATA_SEND
            && t.conn.fileOpen == Bare(s.world.disk.files, cfg.names.temp(r.ticket.value))
            && t.conn.input == s.conn.input && t.conn.consumed == s.conn.consumed
            && t.conn.request == Some(r.(append := false))
            && t.world == s.world.(disk := Opened(s.world.disk, cfg.names.temp(r.ticket.value)))
  {
  }

  lemma CreateIsTaken(cfg: Config, s: State, list: seq<Pair>, name: string, r: Request, ticket: nat)
    requires ticket == s.world.counter + 1
    requires s.conn.request == Some(r) && r == NewRequest(r.info) && r.info.dataLength > 0
    requires PlainCreate(cfg, list, name) && Works(EnvOf(cfg, s)) && list == cfg.parse(s.conn.got)
    requires !HasRow(s.world.disk, cfg.names.key(name))
    ensures var (t, ok) := HeadersDone(cfg, s);
            && ok && t.conn.open == s.conn.open && t.conn.phase.ConfirmUpload? && t.conn.index == 0 && t.conn.got == []
            && t.conn.length == r.info.dataLength && t.conn.code == DATA_SEND
            && t.conn.fileOpen == Bare(s.world.disk.files, cfg.names.temp(ticket))
            && t.conn.input == s.conn.input && t.conn.consumed == s.conn.consumed
            && t.conn.request == Some(r.(ticket := Some(ticket), key := Some(cfg.names.key(name)),
                                         dest := cfg.names.stored(name)))
            && t.world == s.world.(counter := ticket, disk := Opened(s.world.disk, cfg.names.temp(ticket)))
  {
    var (s1, error) := AuthTransaction(cfg, s, list);
    LoginWorks(cfg, s, list, s1, error);
    SetupWorks(cfg, s1, r, list, name);
    var (s2, r2, _) := SetupEnvironment(cfg, s1, r, list);
    BodyIsAskedFor(cfg, s2.(conn := s2.conn.(request := Some(r2))), r2, list);
  }

  lemma LoginWorks(cfg: Config, s: State, list: seq<Pair>, s1: State, error: int)
    requires Granted(cfg, list) && EnvOf(cfg, s).login && (s1, error) == AuthTransaction(cfg, s, list)
    ensures error == SUCCESS && s1 == s.(conn := s.conn.(acts := s1.conn.acts))
  {
  }

  lemma OneRead(need: nat, available: nat, n: nat)
    requires n <= need && n <= available && n <= READ_BUFFER
    ensures Taken(need, available, [n]) == n
  {
    assert [n][1..] == [];
  }

  lemma BytesRead(cfg: Config, s: State, n: nat, bs: seq<byte>)
    requires s.conn.consumed + n <= |s.conn.input| && bs == s.conn.input[s.conn.consumed..s.conn.consumed + n]
    ensures ReadSome(cfg, s, n) == AddBytes(cfg, s, bs)
  {
  }

  /** An event with one read of all that is asked for. */
  lemma OneReadEvent(cfg: Config, s: State, n: nat, bs: seq<byte>, s1: State, t: State)
    requires s.conn.open && HasRequest(s.conn) && s.conn.index == 0 && n <= s.conn.length && n <= READ_BUFFER
    requires s.conn.fileOpen || s.conn.length <= READ_BUFFER
    requires s.conn.consumed + n <= |s.conn.input| && bs == s.conn.input[s.conn.consumed..s.conn.consumed + n]
    requires s1 == AddBytes(cfg, s, bs) && t == Event(cfg, s, [n])
    ensures HasRequest(s1.conn) && t == AfterRead(cfg, s1) && (Ends(cfg, s, [n]) <==> Dies(cfg, s1))
  {
    OneReadGets(cfg, s, n, bs);
    EventGoesOn(cfg, s, [n], s1, t);
  }

  lemma OneReadGets(cfg: Config, s: State, n: nat, bs: seq<byte>)
    requires Running(s.conn) && s.conn.index == 0 && n <= s.conn.length && n <= READ_BUFFER
    requires s.conn.consumed + n <= |s.conn.input| && bs == s.conn.input[s.conn.consumed..s.conn.consumed + n]
    ensures AfterReads(cfg, s, [n]) == AddBytes(cfg, s, bs)
  {
    OneRead(s.conn.length, |s.conn.input| - s.conn.consumed, n);
    BytesRead(cfg, s, n, bs);
  }

  lemma EventGoesOn(cfg: Config, s: State, cuts: seq<nat>, s1: State, t: State)
    requires s.conn.open && Running(s.conn) && !Exits(s.conn)
    requires s1 == AfterReads(cfg, s, cuts) && t == Event(cfg, s, cuts)
    ensures HasRequest(s1.conn) && t == AfterRead(cfg, s1) && (Ends(cfg, s, cuts) <==> Dies(cfg, s1))
  {
  }

  /** The magic word arrives in one read. */
  lemma WordArrives(cfg: Config, k: Client, w: World, t: State)
    requires Fair(cfg, k) && t == Event(cfg, State(NewConn(StreamOf(k)), w), [MAGIC_LENGTH])
    ensures t.conn.open && t.conn.phase.HeadersRead? && t.conn.index == 0 && t.conn.length == |k.header|
    ensures !t.conn.fileOpen && t.conn.got == [] && t.conn.input == StreamOf(k) && t.conn.consumed == |k.word|
    ensures t.conn.request == Some(NewRequest(Header(MAGIC, |k.header|, |k.body|)))
    ensures t.world == w.(ticks := w.ticks + 1)
    ensures !Ends(cfg, State(NewConn(StreamOf(k)), w), [MAGIC_LENGTH])
  {
    var c := NewConn(StreamOf(k));
    OneRead(MAGIC_LENGTH, |c.input|, MAGIC_LENGTH);
    assert c.input[0..MAGIC_LENGTH] == k.word && [] + k.word == k.word;
  }

  /** Then the headers do, and the body is asked for. */
  lemma HeadersArrive(cfg: Config, k: Client, s: State, t: State, ticket: nat, inFile: bool, disk: Disk)
    requires Fair(cfg, k) && Works(EnvOf(cfg, s)) && !HasRow(s.world.disk, cfg.names.key(k.name))
    requires s.conn.open && s.conn.phase.HeadersRead? && s.conn.index == 0 && s.conn.length == |k.header|
    requires !s.conn.fileOpen && s.conn.got == [] && s.conn.input == StreamOf(k) && s.conn.consumed == |k.word|
    requires s.conn.request == Some(NewRequest(Header(MAGIC, |k.header|, |k.body|)))
    requires t == Event(cfg, s, [|k.header|]) && ticket == s.world.counter + 1
    requires inFile == Bare(s.world.disk.files, cfg.names.temp(ticket))
    requires disk == Opened(s.world.disk, cfg.names.temp(ticket))
    ensures Asked(cfg, t.conn, k, ticket, inFile) && t.world.counter == ticket && t.world.disk == disk
    ensures !Ends(cfg, s, [|k.header|])
  {
    var s1 := AddBytes(cfg, s, k.header);
    assert StreamOf(k)[|k.word|..|k.word| + |k.header|] == k.header;
    OneReadEvent(cfg, s, |k.header|, k.header, s1, t);
    HeadersAreRead(cfg, s, k.header, s1);
    HeadersAreTaken(cfg, k, s1, t, ticket, inFile, disk);
  }

  lemma HeadersAreRead(cfg: Config, s: State, header: seq<byte>, s1: State)
    requires !s.conn.fileOpen && s.conn.got == [] && s1 == AddBytes(cfg, s, header)
    ensures s1.world == s.world
    ensures s1.conn == s.conn.(index := s.conn.index + |header|, consumed := s.conn.consumed + |header|,
                               read := s.conn.read + |header|, got := header)
  {
    assert [] + header == header;
    assert header == [] ==> s.conn.got == header;
  }

  lemma HeadersAreTaken(cfg: Config, k: Client, s: State, t: State, ticket: nat, inFile: bool, disk: Disk)
    requires Fair(cfg, k) && Works(EnvOf(cfg, s)) && !HasRow(s.world.disk, cfg.names.key(k.name))
    requires s.conn.open && s.conn.phase.HeadersRead? && s.conn.index == s.conn.length && s.conn.got == k.header
    requires s.conn.input == StreamOf(k) && s.conn.consumed == |k.word| + |k.header|
    requires s.conn.request == Some(NewRequest(Header(MAGIC, |k.header|, |k.body|)))
    requires t == Dispatch(cfg, s) && ticket == s.world.counter + 1
    requires inFile == Bare(s.world.disk.files, cfg.names.temp(ticket))
    requires disk == Opened(s.world.disk, cfg.names.temp(ticket))
    ensures Asked(cfg, t.conn, k, ticket, inFile) && t.world.counter == ticket && t.world.disk == disk
    ensures !CallbackDies(cfg, s)
  {
    CreateIsTaken(cfg, s, cfg.parse(k.header), k.name, s.conn.request.value, ticket);
    HeadersDieIff(cfg, s);
  }

  /** A connection that has read some of a body, with the first temporary file open. */
  ghost predicate Reading(c: Conn, body: seq<byte>)
  {
    && c.open && c.fileOpen && Ticket(c) == Some(1)
    && c.index <= c.consumed <= |c.input| && SoFar(c) == body
  }

  /** A part of the body arrives. */
  lemma SomeArrives(cfg: Config, k: Client, s: State, n: nat, t: State)
    requires Asked(cfg, s.conn, k, 1, true) && 0 < n < |k.body| && n <= READ_BUFFER && t == Event(cfg, s, [n])
    ensures Reading(t.conn, k.body[..n]) && !Ends(cfg, s, [n])
    ensures t.world.counter == s.world.counter && t.world.disk.rows == s.world.disk.rows
    ensures forall path :: path in t.world.disk.files ==> path in s.world.disk.files || path == cfg.names.temp(1)
  {
    var s1 := AddBytes(cfg, s, k.body[..n]);
    PartIsRead(cfg, k, s, n, s1);
    EventGoesOn(cfg, s, [n], s1, t);
  }

  /** What is read of a body is kept, and asks for no callback. */
  lemma PartIsRead(cfg: Config, k: Client, s: State, n: nat, t: State)
    requires Asked(cfg, s.conn, k, 1, true) && 0 < n < |k.body| && n <= READ_BUFFER
    requires t == AddBytes(cfg, s, k.body[..n])
    ensures Running(s.conn) && AfterReads(cfg, s, [n]) == t && t.conn.index < t.conn.length
    ensures Reading(t.conn, k.body[..n])
    ensures t.world.counter == s.world.counter && t.world.disk.rows == s.world.disk.rows
    ensures forall path :: path in t.world.disk.files ==> path in s.world.disk.files || path == cfg.names.temp(1)
  {
    BodyInStream(k, n);
    OneReadGets(cfg, s, n, k.body[..n]);
    SomeIsRead(cfg, s, k.body[..n], t);
  }

  lemma BodyInStream(k: Client, n: nat)
    requires n <= |k.body|
    ensures StreamOf(k)[|k.word| + |k.header|..|k.word| + |k.header| + n] == k.body[..n]
  {
  }

  lemma SomeIsRead(cfg: Config, s: State, bs: seq<byte>, t: State)
    requires s.conn.open && s.conn.fileOpen && s.conn.index == 0 && Ticket(s.conn) == Some(1)
    requires s.conn.consumed + |bs| <= |s.conn.input|
    requires bs == s.conn.input[s.conn.consumed..s.conn.consumed + |bs|] && t == AddBytes(cfg, s, bs)
    ensures Reading(t.conn, bs)
    ensures t.world.counter == s.world.counter && t.world.disk.rows == s.world.disk.rows
    ensures forall path :: path in t.world.disk.files ==> path in s.world.disk.files || path == cfg.names.temp(1)
  {
  }

  lemma FileIsWhole(cfg: Config, disk: Disk, n: nat, body: seq<byte>)
    requires AllWorks(cfg) && At(disk, cfg.names.temp(n)) == Some([])
    ensures FileWith(disk, cfg.names.temp(n), cfg.lands(n), 0, body)
            == disk.(files := disk.files[cfg.names.temp(n) := body])
  {
    LandedAllIff(cfg.lands(n), 0, body);
    assert [] + body == body;
  }

  /** The disk when all of a body has been read. */
  function WithBody(disk: Disk, temp: string, inFile: bool, body: seq<byte>): Disk
  {
    if inFile then disk.(files := disk.files[temp := body]) else disk
  }

  /** All of the body is read, into the temporary file or into memory. */
  lemma AllIsRead(cfg: Config, k: Client, ticket: nat, inFile: bool, s: State, s1: State)
    requires Fair(cfg, k) && AllWorks(cfg) && Asked(cfg, s.conn, k, ticket, inFile) && s1 == ReadSome(cfg, s, |k.body|)
    requires inFile ==> At(s.world.disk, cfg.names.temp(ticket)) == Some([])
    ensures s1.conn.index == s1.conn.length && s1.conn.request == s.conn.request && s1.conn.phase.ConfirmUpload?
    ensures s1.conn.code == DATA_SEND && s1.conn.open && s1.conn.done == s.conn.done
    ensures s1.world == s.world.(disk := WithBody(s.world.disk, cfg.names.temp(ticket), inFile, k.body))
  {
    var c := s.conn;
    assert c.input[c.consumed..c.consumed + |k.body|] == k.body;
    BytesRead(cfg, s, |k.body|, k.body);
    BodyIsRead(cfg, k.body, ticket, inFile, s, s1);
  }

  lemma BodyIsRead(cfg: Config, body: seq<byte>, ticket: nat, inFile: bool, s: State, s1: State)
    requires AllWorks(cfg) && s1 == AddBytes(cfg, s, body)
    requires s.conn.fileOpen == inFile && Ticket(s.conn) == Some(ticket)
    requires s.conn.index == 0 && s.conn.length == |body| && body != []
    requires inFile ==> At(s.world.disk, cfg.names.temp(ticket)) == Some([])
    ensures s1.conn.index == s1.conn.length && s1.conn.request == s.conn.request && s1.conn.phase == s.conn.phase
    ensures s1.conn.code == s.conn.code && s1.conn.open == s.conn.open && s1.conn.done == s.conn.done
    ensures s1.world == s.world.(disk := WithBody(s.world.disk, cfg.names.temp(ticket), inFile, body))
  {
    if inFile {
      FileIsWhole(cfg, s.world.disk, ticket, body);
    }
  }

  /** What a create leaves on the disk: what lay under its temporary name is renamed, a row is added, and
      a file that is still under the temporary name is removed. */
  function Created(disk: Disk, temp: string, dest: string, row: Row): Disk
  {
    Disk(Renamed(disk.files, dest, temp, true) - {temp}, disk.rows + [row])
  }

  lemma BodyIsMoved(cfg: Config, s: State, r: Request, temp: string, t: State) returns (row: Row)
    requires s.conn.request == Some(r) && r.action.Create? && !r.append && !r.confirm && r.ticket.Some? && r.key.Some?
    requires temp == cfg.names.temp(r.ticket.value) && s.conn.phase.ConfirmUpload? && s.conn.code == DATA_SEND
    requires Works(EnvOf(cfg, s)) && t == Dispatch(cfg, s)
    ensures row.name == r.key.value && t.world.disk == Created(s.world.disk, temp, r.dest, row)
    ensures t.conn.open == s.conn.open && |t.conn.done| == |s.conn.done| + 1
    ensures Said(PACKET_OK) in t.conn.done[|s.conn.done|].acts && t.world.counter == s.world.counter
    ensures !CallbackDies(cfg, s)
  {
    row := Row(r.key.value, AsInt(r.info.dataLength), StoredHash(s.conn.hash));
    FinishesWithOk(cfg, s, PostCreate(s.world.disk, r.key.value, r.dest, temp, false, r.info.dataLength,
                                      StoredHash(s.conn.hash), EnvOf(cfg, s).end).0, t);
  }

  lemma FinishesWithOk(cfg: Config, s: State, disk: Disk, t: State)
    requires s.conn.request.Some? && s.conn.request.value.action.Create? && !s.conn.request.value.confirm
    requires s.conn.request.value.ticket.Some? && s.conn.phase.ConfirmUpload? && s.conn.code == DATA_SEND
    requires ActionPostprocess(cfg, s) == (s.(world := s.world.(disk := disk)), SUCCESS) && t == Dispatch(cfg, s)
    ensures t.world.disk == disk.(files := disk.files - {cfg.names.temp(s.conn.request.value.ticket.value)})
    ensures t.conn.open == s.conn.open && |t.conn.done| == |s.conn.done| + 1
    ensures Said(PACKET_OK) in t.conn.done[|s.conn.done|].acts && t.world.counter == s.world.counter
  {
    var e := t.conn.done[|s.conn.done|];
    assert e.acts == s.conn.acts + [Said(PACKET_OK)];
    assert e.acts[|s.conn.acts|] == Said(PACKET_OK);
  }

  /** All of the body arrives: what lies under the temporary name is renamed to where the stored name
      leads. */
  lemma BodyArrives(cfg: Config, k: Client, ticket: nat, inFile: bool, s: State, t: State, disk: Disk)
    returns (row: Row)
    requires Fair(cfg, k) && AllWorks(cfg) && Asked(cfg, s.conn, k, ticket, inFile) && |k.body| <= READ_BUFFER
    requires t == Event(cfg, s, [|k.body|]) && (inFile ==> At(s.world.disk, cfg.names.temp(ticket)) == Some([]))
    requires disk == WithBody(s.world.disk, cfg.names.temp(ticket), inFile, k.body)
    ensures row.name == cfg.names.key(k.name)
    ensures t.world.disk == Created(disk, cfg.names.temp(ticket), cfg.names.stored(k.name), row)
    ensures t.conn.open && |t.conn.done| == |s.conn.done| + 1 && Said(PACKET_OK) in t.conn.done[|s.conn.done|].acts
    ensures t.world.counter == s.world.counter && !Ends(cfg, s, [|k.body|])
  {
    OneRead(|k.body|, |k.body|, |k.body|);
    var s1 := ReadSome(cfg, s, |k.body|);
    AllIsRead(cfg, k, ticket, inFile, s, s1);
    row := BodyIsMoved(cfg, s1, s1.conn.request.value, cfg.names.temp(ticket), t);
  }

  // ----- the server --------------------------------------------------------------------------

  /** The events of a client up to the point where its body is asked for. */
  function Opening(fd: int, k: Client): seq<ServerEvent>
  {
    [Accept(fd, StreamOf(k)), Readable(fd, [MAGIC_LENGTH]), Readable(fd, [|k.header|])]
  }

  lemma OneStep(cfg: Config, srv: Hub, e: ServerEvent)
    ensures RunServer(cfg, srv, [e]) == ServerStep(cfg, srv, e)
  {
    assert [e][1..] == [];
  }

  lemma ThreeSteps(cfg: Config, srv: Hub, a: ServerEvent, b: ServerEvent, c: ServerEvent, h: Hub, h': Hub, next: Hub)
    requires ServerStep(cfg, srv, a) == Up(h) && ServerStep(cfg, h, b) == Up(h') && ServerStep(cfg, h', c) == Up(next)
    ensures RunServer(cfg, srv, [a, b, c]) == Up(next)
  {
    assert [a, b, c][1..] == [b, c] && [b, c][1..] == [c];
    OneStep(cfg, h', c);
  }

  lemma AcceptStep(cfg: Config, srv: Hub, fd: int, input: seq<byte>, next: Hub)
    requires fd !in srv.conns && fd >= 0 && next == Hub(srv.conns[fd := NewConn(input)], srv.world)
    ensures ServerStep(cfg, srv, Accept(fd, input)) == Up(next)
  {
  }

  lemma ReadableStep(cfg: Config, srv: Hub, fd: int, cuts: seq<nat>, s: State, t: State, next: Hub)
    requires fd in srv.conns && s == State(srv.conns[fd], srv.world) && !Ends(cfg, s, cuts) && t == Event(cfg, s, cuts)
    requires t.conn.open && next == Hub(srv.conns[fd := t.conn], t.world)
    ensures ServerStep(cfg, srv, Readable(fd, cuts)) == Up(next)
  {
  }

  /** What a client finds when it connects: room for its ticket and no row for its name. */
  ghost predicate Welcome(cfg: Config, srv: Hub, fd: int, k: Client, ticket: nat)
  {
    && AllWorks(cfg) && Fair(cfg, k) && fd >= 0 && fd !in srv.conns
    && ticket == srv.world.counter + 1 && !HasRow(srv.world.disk, cfg.names.key(k.name))
  }

  lemma Opens(cfg: Config, srv: Hub, fd: int, k: Client, ticket: nat, inFile: bool, disk: Disk) returns (next: Hub)
    requires Welcome(cfg, srv, fd, k, ticket)
    requires inFile == Bare(srv.world.disk.files, cfg.names.temp(ticket))
    requires disk == Opened(srv.world.disk, cfg.names.temp(ticket))
    ensures RunServer(cfg, srv, Opening(fd, k)) == Up(next)
    ensures fd in next.conns && next.conns - {fd} == srv.conns - {fd}
    ensures Asked(cfg, next.conns[fd], k, ticket, inFile)
    ensures next.world.counter == ticket && next.world.disk == disk
  {
    var s, s1, s2 := Arrivals(cfg, k, srv.world, ticket, inFile, disk);
    next := Hub(srv.conns[fd := s2.conn], s2.world);
    OpeningSteps(cfg, srv, fd, k, s, s1, s2, next);
  }

  lemma UpdatedTwice<V>(m: map<int, V>, k: int, a: V, b: V)
    ensures m[k := a][k := b] == m[k := b]
  {
  }

  lemma OpeningSteps(cfg: Config, srv: Hub, fd: int, k: Client, s: State, s1: State, s2: State, next: Hub)
    requires fd !in srv.conns && fd >= 0
    requires s == State(NewConn(StreamOf(k)), srv.world) && !Ends(cfg, s, [MAGIC_LENGTH])
    requires s1 == Event(cfg, s, [MAGIC_LENGTH]) && s1.conn.open && !Ends(cfg, s1, [|k.header|])
    requires s2 == Event(cfg, s1, [|k.header|]) && s2.conn.open && next == Hub(srv.conns[fd := s2.conn], s2.world)
    ensures RunServer(cfg, srv, Opening(fd, k)) == Up(next)
  {
    var h, h1 := Hub(srv.conns[fd := s.conn], srv.world), Hub(srv.conns[fd := s1.conn], s1.world);
    AcceptStep(cfg, srv, fd, StreamOf(k), h);
    UpdatedTwice(srv.conns, fd, s.conn, s1.conn);
    UpdatedTwice(srv.conns, fd, s1.conn, s2.conn);
    ReadableStep(cfg, h, fd, [MAGIC_LENGTH], s, s1, h1);
    ReadableStep(cfg, h1, fd, [|k.header|], s1, s2, next);
    OpeningRuns(cfg, srv, fd, k, h, h1, next);
  }

  lemma OpeningRuns(cfg: Config, srv: Hub, fd: int, k: Client, h: Hub, h1: Hub, next: Hub)
    requires ServerStep(cfg, srv, Accept(fd, StreamOf(k))) == Up(h)
    requires ServerStep(cfg, h, Readable(fd, [MAGIC_LENGTH])) == Up(h1)
    requires ServerStep(cfg, h1, Readable(fd, [|k.header|])) == Up(next)
    ensures RunServer(cfg, srv, Opening(fd, k)) == Up(next)
  {
    ThreeSteps(cfg, srv, Accept(fd, StreamOf(k)), Readable(fd, [MAGIC_LENGTH]), Readable(fd, [|k.header|]),
               h, h1, next);
  }

  /** The states of a connection on the way to being asked for its body. */
  lemma Arrivals(cfg: Config, k: Client, w: World, ticket: nat, inFile: bool, disk: Disk)
    returns (s: State, s1: State, s2: State)
    requires Fair(cfg, k) && AllWorks(cfg) && !HasRow(w.disk, cfg.names.key(k.name)) && ticket == w.counter + 1
    requires inFile == Bare(w.disk.files, cfg.names.temp(ticket)) && disk == Opened(w.disk, cfg.names.temp(ticket))
    ensures s == State(NewConn(StreamOf(k)), w) && !Ends(cfg, s, [MAGIC_LENGTH]) && s1 == Event(cfg, s, [MAGIC_LENGTH])
    ensures s1.conn.open && !Ends(cfg, s1, [|k.header|]) && s2 == Event(cfg, s1, [|k.header|])
    ensures s2.conn.open && Asked(cfg, s2.conn, k, ticket, inFile)
    ensures s2.world.counter == ticket && s2.world.disk == disk
  {
    s := State(NewConn(StreamOf(k)), w);
    s1 := Event(cfg, s, [MAGIC_LENGTH]);
    WordArrives(cfg, k, w, s1);
    assert Works(EnvOf(cfg, s1));
    s2 := Event(cfg, s1, [|k.header|]);
    HeadersArrive(cfg, k, s1, s2, ticket, inFile, disk);
  }

  lemma Together(cfg: Config, srv: Hub, a: seq<ServerEvent>, next: Hub, b: seq<ServerEvent>, after: Outcome,
                 both: seq<ServerEvent>)
    requires RunServer(cfg, srv, a) == Up(next) && RunServer(cfg, next, b) == after && both == a + b
    ensures RunServer(cfg, srv, both) == after
  {
    RunInParts(cfg, srv, a, b);
  }

  /** All events of a client whose body comes in one piece. */
  function Visit(fd: int, k: Client): seq<ServerEvent>
  {
    Opening(fd, k) + [Readable(fd, [|k.body|])]
  }

  /** The disk after such a visit. */
  function Visited(cfg: Config, disk: Disk, k: Client, ticket: nat, row: Row): Disk
  {
    var temp := cfg.names.temp(ticket);
    Created(WithBody(disk, temp, Bare(disk.files, temp), k.body), temp, cfg.names.stored(k.name), row)
  }

  /** The client has been told that its packet was done. */
  ghost predicate ToldOk(c: Conn)
  {
    exists e :: e in c.done && Said(PACKET_OK) in e.acts
  }

  lemma LastTellsOk(c: Conn, done: seq<Exchange>)
    requires |c.done| == |done| + 1 && Said(PACKET_OK) in c.done[|done|].acts
    ensures ToldOk(c)
  {
    assert c.done[|done|] in c.done;
  }

  /** A client connects and sends all of its body. */
  lemma Visits(cfg: Config, srv: Hub, fd: int, k: Client, ticket: nat) returns (next: Hub, row: Row)
    requires Welcome(cfg, srv, fd, k, ticket) && |k.body| <= READ_BUFFER
    ensures RunServer(cfg, srv, Visit(fd, k)) == Up(next)
    ensures fd in next.conns && next.conns - {fd} == srv.conns - {fd} && ToldOk(next.conns[fd])
    ensures row.name == cfg.names.key(k.name) && next.world.disk == Visited(cfg, srv.world.disk, k, ticket, row)
    ensures next.world.counter == ticket
  {
    var temp, disk := cfg.names.temp(ticket), Opened(srv.world.disk, cfg.names.temp(ticket));
    var h := Opens(cfg, srv, fd, k, ticket, Bare(srv.world.disk.files, temp), disk);
    next, row := BodyComes(cfg, h, fd, k, ticket, Bare(srv.world.disk.files, temp), disk);
    OpenedTwice(srv.world.disk, temp, k.body);
    Together(cfg, srv, Opening(fd, k), h, [Readable(fd, [|k.body|])], Up(next), Visit(fd, k));
  }

  lemma BodyComes(cfg: Config, h: Hub, fd: int, k: Client, ticket: nat, inFile: bool, disk: Disk)
    returns (next: Hub, row: Row)
    requires AllWorks(cfg) && Fair(cfg, k) && |k.body| <= READ_BUFFER
    requires fd in h.conns && Asked(cfg, h.conns[fd], k, ticket, inFile) && h.world.disk == disk
    requires inFile ==> At(disk, cfg.names.temp(ticket)) == Some([])
    ensures RunServer(cfg, h, [Readable(fd, [|k.body|])]) == Up(next)
    ensures fd in next.conns && next.conns - {fd} == h.conns - {fd} && ToldOk(next.conns[fd])
    ensures row.name == cfg.names.key(k.name) && next.world.counter == h.world.counter
    ensures next.world.disk == Created(WithBody(disk, cfg.names.temp(ticket), inFile, k.body), cfg.names.temp(ticket),
                                       cfg.names.stored(k.name), row)
  {
    var s, t := State(h.conns[fd], h.world), Event(cfg, State(h.conns[fd], h.world), [|k.body|]);
    row := BodyArrives(cfg, k, ticket, inFile, s, t, WithBody(disk, cfg.names.temp(ticket), inFile, k.body));
    LastTellsOk(t.conn, s.conn.done);
    next := Hub(h.conns[fd := t.conn], t.world);
    ReadableStep(cfg, h, fd, [|k.body|], s, t, next);
    OneStep(cfg, h, Readable(fd, [|k.body|]));
  }

  lemma OpenedTwice(disk: Disk, temp: string, body: seq<byte>)
    ensures WithBody(Opened(disk, temp), temp, Bare(disk.files, temp), body)
            == WithBody(disk, temp, Bare(disk.files, temp), body)
  {
    assert disk.files[temp := []][temp := body] == disk.files[temp := body];
  }

  const START: Hub := Hub(map[], World(Disk(map[], []), 0, 0))

  // ----- a stored name under a temporary one -------------------------------------------------

  /** One client connects and sends the first byte of its body. */
  lemma FirstPart(cfg: Config, a: Client, events: seq<ServerEvent>) returns (next: Hub)
    requires AllWorks(cfg) && Fair(cfg, a) && |a.body| > 1
    requires events == Opening(1, a) + [Readable(1, [1])]
    ensures RunServer(cfg, START, events) == Up(next)
    ensures 1 in next.conns && 2 !in next.conns && Reading(next.conns[1], a.body[..1])
    ensures next.world.counter == 1 && next.world.disk.rows == []
    ensures forall path :: path in next.world.disk.files ==> path == cfg.names.temp(1)
  {
    var h := Opens(cfg, START, 1, a, 1, true, Opened(START.world.disk, cfg.names.temp(1)));
    var s, t := State(h.conns[1], h.world), Event(cfg, State(h.conns[1], h.world), [1]);
    SomeArrives(cfg, a, s, 1, t);
    next := Hub(h.conns[1 := t.conn], t.world);
    assert 2 in h.conns ==> 2 in h.conns - {1};
    ReadableStep(cfg, h, 1, [1], s, t, next);
    OneStep(cfg, h, Readable(1, [1]));
    Together(cfg, START, Opening(1, a), h, [Readable(1, [1])], Up(next), events);
  }

  function BothRun(a: Client, b: Client): seq<ServerEvent>
  {
    (Opening(1, a) + [Readable(1, [1])]) + Visit(2, b)
  }

  lemma BodyIsLost(cfg: Config, c: Conn, w: World, body: seq<byte>, other: seq<byte>)
    requires AllWorks(cfg) && Reading(c, body) && At(w.disk, cfg.names.temp(1)) == Some(other) && other != body
    ensures !Owns(cfg, c, w)
  {
    LandedAllIff(cfg.lands(1), 0, body);
  }

  lemma BodyIsThere(cfg: Config, disk: Disk, b: Client, row: Row, path: string)
    requires Distinct(cfg) && path == cfg.names.stored(b.name) && path == cfg.names.temp(1)
    requires forall p :: p in disk.files ==> p == path
    ensures At(Visited(cfg, disk, b, 2, row), path) == Some(b.body)
  {
    var temp := cfg.names.temp(2);
    assert !AtOrBelow(path, temp) && !AtOrBelow(temp, path);
  }

  /** A run from the start: one client has sent the first byte of its body when the create of another
      one, which is stored under the first temporary name, is finished. The first client's temporary
      file then holds the other one's body, and not what its connection has read. */
  lemma OtherBodyTakesOver(cfg: Config, a: Client, b: Client) returns (after: Hub)
    requires Distinct(cfg) && AllWorks(cfg) && Fair(cfg, a) && Fair(cfg, b)
    requires |a.body| > 1 && |b.body| <= READ_BUFFER && b.body != a.body[..1]
    requires cfg.names.stored(b.name) == cfg.names.temp(1)
    ensures RunServer(cfg, START, BothRun(a, b)) == Up(after)
    ensures 1 in after.conns && Reading(after.conns[1], a.body[..1])
    ensures At(after.world.disk, cfg.names.temp(1)) == Some(b.body)
    ensures !Owns(cfg, after.conns[1], after.world)
  {
    var next := FirstPart(cfg, a, Opening(1, a) + [Readable(1, [1])]);
    var row;
    after, row := Visits(cfg, next, 2, b, 2);
    assert 1 in next.conns - {2} && 1 in after.conns - {2};
    assert after.conns[1] == (after.conns - {2})[1] == (next.conns - {2})[1];
    Together(cfg, START, Opening(1, a) + [Readable(1, [1])], next, Visit(2, b), Up(after), BothRun(a, b));
    BodyIsThere(cfg, next.world.disk, b, row, cfg.names.temp(1));
    BodyIsLost(cfg, after.conns[1], after.world, a.body[..1], b.body);
  }

  /** With the program's names such a file name is stored there. */
  lemma StoredUnderTemporaryName(cfg: Config, home: string, text: string, n: nat)
    requires cfg.names == NamesUnder(home) && CleanHome(home)
    requires CString(text) == ".." + "/" + ("temp" + "/" + TempName(n))
    ensures cfg.names.stored(text) == cfg.names.temp(n) && Distinct(cfg)
  {
    NamesAreDistinct(cfg, home);
    NameThatLands(CString(text), n, home);
    RealIsTempIff(text, n, home);
  }

  // ----- a stored name below a temporary one -------------------------------------------------

  /** A client stores a file below the second temporary name. */
  lemma FolderIsMade(cfg: Config, b: Client) returns (next: Hub)
    requires Distinct(cfg) && AllWorks(cfg) && Fair(cfg, b) && |b.body| <= READ_BUFFER
    requires Below(cfg.names.stored(b.name), cfg.names.temp(2))
    ensures RunServer(cfg, START, Visit(2, b)) == Up(next)
    ensures 1 !in next.conns && next.world.counter == 1
    ensures next.world.disk.files == map[cfg.names.stored(b.name) := b.body]
    ensures forall row :: row in next.world.disk.rows ==> row.name == cfg.names.key(b.name)
  {
    var row;
    next, row := Visits(cfg, START, 2, b, 1);
    assert 1 in next.conns ==> 1 in next.conns - {2};
    FirstFileIs(cfg, b, row, cfg.names.stored(b.name));
  }

  lemma FirstFileIs(cfg: Config, b: Client, row: Row, path: string)
    requires Distinct(cfg) && path == cfg.names.stored(b.name) && Below(path, cfg.names.temp(2))
    ensures Visited(cfg, Disk(map[], []), b, 1, row) == Disk(map[path := b.body], [row])
  {
    var temp := cfg.names.temp(1);
    SecondIsNotFirst(cfg, path);
    assert (map[temp := b.body] - {temp})[path := b.body] - {temp} == map[path := b.body];
  }

  lemma SecondIsNotFirst(cfg: Config, path: string)
    requires Distinct(cfg) && Below(path, cfg.names.temp(2))
    ensures path != cfg.names.temp(1)
  {
    assert !AtOrBelow(cfg.names.temp(1), cfg.names.temp(2));
  }

  lemma FolderIsNotBare(cfg: Config, files: map<string, seq<byte>>, path: string, n: nat)
    requires path in files && Below(path, cfg.names.temp(n))
    ensures !Bare(files, cfg.names.temp(n))
  {
  }

  /** A run from the start: a client has stored a file below the second temporary name, so that this is
      the name of a folder. The next client wants to create a file, and its temporary file cannot be
      opened. If its body is larger than the read buffer, the event after its headers ends the process,
      and every other connection with it. */
  lemma FolderEndsProcess(cfg: Config, a: Client, b: Client, cuts: seq<nat>)
    requires Distinct(cfg) && AllWorks(cfg) && Fair(cfg, a) && Fair(cfg, b) && |b.body| <= READ_BUFFER < |a.body|
    requires Below(cfg.names.stored(b.name), cfg.names.temp(2)) && cfg.names.key(a.name) != cfg.names.key(b.name)
    ensures RunServer(cfg, START, Visit(2, b) + (Opening(1, a) + [Readable(1, cuts)])).Down?
  {
    var next := FolderIsMade(cfg, b);
    FolderIsNotBare(cfg, next.world.disk.files, cfg.names.stored(b.name), 2);
    var h := Opens(cfg, next, 1, a, 2, false, next.world.disk);
    OneStep(cfg, h, Readable(1, cuts));
    var end := ServerStep(cfg, h, Readable(1, cuts));
    Together(cfg, next, Opening(1, a), h, [Readable(1, cuts)], end, Opening(1, a) + [Readable(1, cuts)]);
    Together(cfg, START, Visit(2, b), next, Opening(1, a) + [Readable(1, cuts)], end,
             Visit(2, b) + (Opening(1, a) + [Readable(1, cuts)]));
  }

  lemma FolderGoes(cfg: Config, disk: Disk, a: Client, path: string, row: Row)
    requires disk.files.Keys == {path} && Below(path, cfg.names.temp(2)) && cfg.names.temp(2) !in disk.files
    requires cfg.names.stored(a.name) !in disk.files && !AtOrBelow(cfg.names.temp(2), cfg.names.stored(a.name))
    ensures var after := Visited(cfg, disk, a, 2, row);
            && cfg.names.stored(a.name) !in after.files && row in after.rows
            && At(after, Carried(path, cfg.names.stored(a.name), cfg.names.temp(2))) == Some(disk.files[path])
  {
    var temp, dest := cfg.names.temp(2), cfg.names.stored(a.name);
    FolderIsNotBare(cfg, disk.files, path, 2);
    MovedIs(disk.files, dest, temp);
    CarriedBack(path, dest, temp);
    MovedMakesNoFile(disk.files, dest, temp);
    assert row in disk.rows + [row];
  }

  /** If its body fits into memory, the client is told `OK`, but what has been renamed is the folder: its
      body is in no file, and the other client's file is now in a folder of the new name. */
  lemma FolderTakesPlace(cfg: Config, a: Client, b: Client) returns (after: Hub)
    requires Distinct(cfg) && AllWorks(cfg) && Fair(cfg, a) && Fair(cfg, b)
    requires |a.body| <= READ_BUFFER && |b.body| <= READ_BUFFER
    requires Below(cfg.names.stored(b.name), cfg.names.temp(2)) && cfg.names.key(a.name) != cfg.names.key(b.name)
    requires IsReal(cfg, cfg.names.stored(a.name)) && !AtOrBelow(cfg.names.temp(2), cfg.names.stored(a.name))
    ensures RunServer(cfg, START, Visit(2, b) + Visit(1, a)) == Up(after)
    ensures 1 in after.conns && ToldOk(after.conns[1])
    ensures cfg.names.stored(a.name) !in after.world.disk.files && HasRow(after.world.disk, cfg.names.key(a.name))
    ensures At(after.world.disk, Carried(cfg.names.stored(b.name), cfg.names.stored(a.name), cfg.names.temp(2)))
            == Some(b.body)
  {
    var next := FolderIsMade(cfg, b);
    var path := cfg.names.stored(b.name);
    var row;
    after, row := Visits(cfg, next, 1, a, 2);
    Together(cfg, START, Visit(2, b), next, Visit(1, a), Up(after), Visit(2, b) + Visit(1, a));
    assert AtOrBelow(path, cfg.names.temp(2)) && AtOrBelow(cfg.names.temp(2), cfg.names.temp(2));
    NotBelowItself(path, cfg.names.temp(2));
    FolderGoes(cfg, next.world.disk, a, path, row);
  }

  lemma NotBelowItself(path: string, folder: string)
    requires Below(path, folder)
    ensures path != folder
  {
  }

  /** With the program's names such a file name is stored below the temporary one. */
  lemma StoredBelowTemporaryName(cfg: Config, home: string, text: string, n: nat, x: string)
    requires cfg.names == NamesUnder(home) && CleanHome(home) && NoSlash(x)
    requires CString(text) == ".." + "/" + ("temp" + "/" + (TempName(n) + "/" + x))
    ensures cfg.names.stored(text) == cfg.names.temp(n) + "/" + x
    ensures Below(cfg.names.stored(text), cfg.names.temp(n)) && Distinct(cfg)
  {
    NamesAreDistinct(cfg, home);
    NameThatPasses(text, n, x, home, CString(text));
    RealIsTempIff(text, n, home);
  }
}

/** Storing a file over one connection and serving it over another, while other connections do what
    they like: the bytes that come out are the bytes that went in. */
module RoundTrip {
  import opened Effects
  import opened Exchanges
  import opened FileNames
  import opened FileStore
  import opened Headers
  import opened Hex
  import opened Logs
  import opened PathAlgebra
  import opened Permissions
  import opened Protocol
  import opened Responses
  import opened Servers
  import opened Wire

  // ----- the request that a header leads to --------------------------------------------------

  /** What the rest of a packet works with, told by its headers alone. */
  ghost predicate RequestOf(cfg: Config, list: seq<Pair>, r: Request)
  {
    && r.action == ReadAction(cfg.reading, list) && r.ticket.Some?
    && (match cfg.lookup(list, "filename")
        case None => r.key.None? && r.dest == ""
        case Some(pair) => r.key == Some(cfg.names.key(pair.text)) && r.dest == cfg.names.stored(pair.text))
    && (r.action.Create? ==> r.append == Has(cfg, list, "append"))
    && (r.action.Update? ==>
          && Has(cfg, list, "updateat") && cfg.lookup(list, "updateat").value.length == r.at
          && Has(cfg, list, "trim") && r.trim == (cfg.lookup(list, "trim").value.length != 0))
  }

  ghost predicate Waits(c: Conn)
  {
    (c.phase.ConfirmUpload? || c.phase.Upload?) && c.request.Some?
  }

  /** How an accepted packet on record was answered: a create with `OK` if and only if its row was added, a
      delete, a login and a notification with `OK` in any case, a listing and the server information with
      data. */
  ghost predicate Answers(env: Env, done: seq<Exchange>, c: Conn)
  {
    |c.done| > |done| && Accepted(c.done[|done|].acts) ==> AnsweredAs(env, c.done[|done|])
  }

  ghost predicate AnsweredAs(env: Env, e: Exchange)
  {
    match e.request.action
    case Create => !e.request.append ==> (EndsWithOk(e.acts) <==> env.end.insert)
    case Delete => EndsWithOk(e.acts)
    case Login => EndsWithOk(e.acts)
    case Notification => EndsWithOk(e.acts)
    case Dir => EndsWithData(e.acts)
    case Server => EndsWithData(e.acts)
    case RequestFile => true
    case Update => true
    case Invalid => true
  }

  predicate EndsWithOk(acts: seq<Act>)
  {
    acts != [] && acts[|acts| - 1] == Said(PACKET_OK)
  }

  predicate EndsWithData(acts: seq<Act>)
  {
    acts != [] && acts[|acts| - 1] == Said(DATA_READY)
  }

  /** A request that waits, or that was accepted and has gone on record, is the one of the list. */
  ghost predicate Tells(cfg: Config, env: Env, list: seq<Pair>, done: seq<Exchange>, c: Conn)
  {
    && (c.phase.ConfirmUpload? || c.phase.Upload? ==> c.request.Some? && RequestOf(cfg, list, c.request.value))
    && (|c.done| > |done| && Accepted(c.done[|done|].acts) ==> RequestOf(cfg, list, c.done[|done|].request))
    && Answers(env, done, c)
  }

  lemma RefusalTells(cfg: Config, s: State, list: seq<Pair>, code: int)
    requires s.conn.request.Some? && !Accepted(s.conn.acts)
    ensures Tells(cfg, EnvOf(cfg, s), list, s.conn.done, Fail(cfg, s, code).0.conn)
  {
    Snoc(s.conn.acts, Said(code));
  }

  lemma AfterPostprocessAnswers(cfg: Config, env: Env, s: State, error: int)
    requires s.conn.request.Some? && !s.conn.request.value.action.Dir? && !s.conn.request.value.action.Server?
    requires s.conn.code != DATA_READY
    requires s.conn.request.value.action.Create? && !s.conn.request.value.append ==>
               error == if env.end.insert then SUCCESS else SERVER_FILE_ERROR
    requires var action := s.conn.request.value.action;
             action.Delete? || action.Login? || action.Notification? ==> error == SUCCESS
    ensures Answers(env, s.conn.done, AfterPostprocess(cfg, s, error).0.conn)
  {
  }

  lemma AfterDataAnswers(cfg: Config, env: Env, s: State)
    requires s.conn.request.Some? && s.conn.code == DATA_READY && EndsWithData(s.conn.acts)
    requires s.conn.request.value.action.Dir? || s.conn.request.value.action.Server?
    ensures Answers(env, s.conn.done, AfterPostprocess(cfg, s, SUCCESS).0.conn)
  {
  }

  lemma WorkAnswers(cfg: Config, s: State, action: Action, t: State, error: int)
    requires s.conn.request.Some? && action == s.conn.request.value.action
    requires (t, error) == ActionPostprocess(cfg, SendData(cfg, s))
    ensures t.conn.done == s.conn.done && t.conn.request == s.conn.request
    ensures action.Dir? || action.Server? ==>
              error == SUCCESS && t.conn.code == DATA_READY && EndsWithData(t.conn.acts)
    ensures !action.Dir? && !action.Server? && !action.RequestFile? ==> t.conn == s.conn
    ensures action.Delete? || action.Login? || action.Notification? ==> error == SUCCESS
    ensures action.Create? && !s.conn.request.value.append ==>
              error == if EnvOf(cfg, s).end.insert then SUCCESS else SERVER_FILE_ERROR
  {
  }

  lemma UploadDoneAnswers(cfg: Config, s: State)
    requires s.conn.request.Some? && s.conn.code != DATA_READY
    requires s.conn.request.value.confirm ==> s.conn.request.value.action.RequestFile?
    ensures Answers(EnvOf(cfg, s), s.conn.done, UploadDone(cfg, s).0.conn)
  {
    var action := s.conn.request.value.action;
    UploadDoneRecords(cfg, s);
    if !action.RequestFile? {
      var (s1, error) := ActionPostprocess(cfg, SendData(cfg, s));
      WorkAnswers(cfg, s, action, s1, error);
      if action.Dir? || action.Server? {
        AfterDataAnswers(cfg, EnvOf(cfg, s), s1);
      } else {
        AfterPostprocessAnswers(cfg, EnvOf(cfg, s), s1, error);
      }
    }
  }

  lemma UploadDoneTells(cfg: Config, s: State, list: seq<Pair>)
    requires s.conn.request.Some? && RequestOf(cfg, list, s.conn.request.value) && s.conn.code != DATA_READY
    requires s.conn.request.value.confirm ==> s.conn.request.value.action.RequestFile?
    ensures Tells(cfg, EnvOf(cfg, s), list, s.conn.done, UploadDone(cfg, s).0.conn)
  {
    UploadDoneRecords(cfg, s);
    UploadDoneAnswers(cfg, s);
    UploadDoneWaitsForNothing(cfg, s);
  }

  lemma UploadDoneWaitsForNothing(cfg: Config, s: State)
    requires s.conn.request.Some?
    ensures UploadDone(cfg, s).0.conn.phase.MagicRead?
  {
  }

  lemma AfterPreprocessTells(cfg: Config, s: State, list: seq<Pair>, error: int)
    requires s.conn.request.Some? && s.conn.code == SUCCESS
    requires s.conn.request.value.confirm ==> s.conn.request.value.action.RequestFile?
    requires if error == SUCCESS then RequestOf(cfg, list, s.conn.request.value) else !Accepted(s.conn.acts)
    ensures Tells(cfg, EnvOf(cfg, s), list, s.conn.done, AfterPreprocess(cfg, s, error).0.conn)
  {
    if error != SUCCESS {
      RefusalTells(cfg, s, list, error);
    } else if s.conn.request.value.info.dataLength == 0 && !s.conn.request.value.confirm {
      UploadDoneTells(cfg, s, list);
    }
  }

  /** A request that has its names. */
  ghost predicate HasNames(cfg: Config, list: seq<Pair>, r: Request)
  {
    && r.action == ReadAction(cfg.reading, list) && r.ticket.Some?
    && match cfg.lookup(list, "filename")
       case None => r.key.None? && r.dest == ""
       case Some(pair) => r.key == Some(cfg.names.key(pair.text)) && r.dest == cfg.names.stored(pair.text)
  }

  lemma PreprocessGives(cfg: Config, s: State, r: Request, list: seq<Pair>, t: State, r1: Request, error: int)
    requires (t, r1, error) == Preprocess(cfg, s, r, list)
    ensures r1 == r.(confirm := r1.confirm, append := r1.append, at := r1.at, trim := r1.trim)
    ensures t.conn == s.conn && t.world.ticks == s.world.ticks
    ensures error == SUCCESS && r.action.Create? ==> r1.append == Has(cfg, list, "append")
    ensures error == SUCCESS && r.action.Update? ==>
              && Has(cfg, list, "updateat") && cfg.lookup(list, "updateat").value.length == r1.at
              && Has(cfg, list, "trim") && r1.trim == (cfg.lookup(list, "trim").value.length != 0)
    ensures r1.confirm ==> r.confirm || r.action.RequestFile?
  {
  }

  lemma PreprocessTells(cfg: Config, s: State, r: Request, list: seq<Pair>, t: State, r1: Request, error: int)
    requires HasNames(cfg, list, r) && (t, r1, error) == Preprocess(cfg, s, r, list) && !r.confirm
    ensures error == SUCCESS ==> RequestOf(cfg, list, r1)
    ensures t.conn == s.conn && t.world.ticks == s.world.ticks && (r1.confirm ==> r1.action.RequestFile?)
  {
    PreprocessGives(cfg, s, r, list, t, r1, error);
  }

  lemma AfterSetupTells(cfg: Config, s: State, r: Request, list: seq<Pair>, error: int)
    requires s.conn.request == Some(r) && !Accepted(s.conn.acts) && (error == SUCCESS ==> HasNames(cfg, list, r))
    requires s.conn.code == SUCCESS && !r.confirm
    ensures Tells(cfg, EnvOf(cfg, s), list, s.conn.done, AfterSetup(cfg, s, r, list, error).0.conn)
  {
    if error != SUCCESS {
      RefusalTells(cfg, s, list, error);
    } else {
      var s1 := OpenTemp(cfg, s, r);
      OpenTempIsLawful(cfg, s, r);
      var (s2, r2, error2) := Preprocess(cfg, s1, r, list);
      PreprocessTells(cfg, s1, r, list, s2, r2, error2);
      var act := Prepared(r2.action, error2 == SUCCESS);
      Snoc(s.conn.acts, act);
      AfterPreprocessTells(cfg, s2.(conn := s2.conn.(request := Some(r2), acts := s2.conn.acts + [act])), list, error2);
    }
  }

  lemma SetupNames(cfg: Config, s: State, r: Request, list: seq<Pair>)
    requires r.action == ReadAction(cfg.reading, list) && r.key.None? && r.dest == ""
    ensures var (s1, r1, error) := SetupEnvironment(cfg, s, r, list);
            && s1.conn == s.conn && s1.world.ticks == s.world.ticks && r1.confirm == r.confirm
            && (error == SUCCESS ==> HasNames(cfg, list, r1))
  {
  }

  lemma AfterAuthTells(cfg: Config, s: State, r: Request, list: seq<Pair>, error: int)
    requires s.conn.request == Some(r) && !Accepted(s.conn.acts)
    requires r.action == ReadAction(cfg.reading, list) && r.key.None? && r.dest == ""
    requires s.conn.code == SUCCESS && !r.confirm
    ensures Tells(cfg, EnvOf(cfg, s), list, s.conn.done, AfterAuth(cfg, s, r, list, error).0.conn)
  {
    if error != SUCCESS {
      RefusalTells(cfg, s, list, error);
    } else {
      var (s1, r1, error1) := SetupEnvironment(cfg, s, r, list);
      SetupNames(cfg, s, r, list);
      AfterSetupTells(cfg, s1.(conn := s1.conn.(request := Some(r1))), r1, list, error1);
    }
  }

  lemma HeadersTell(cfg: Config, s: State, r: Request, list: seq<Pair>, s1: State, error: int)
    requires s.conn.request == Some(r) && r.action == ReadAction(cfg.reading, list) && r.key.None? && r.dest == ""
    requires s.conn.code == SUCCESS && !r.confirm && s.conn.acts == [] && (s1, error) == AuthTransaction(cfg, s, list)
    ensures Tells(cfg, EnvOf(cfg, s), list, s.conn.done,
                  if HasAll(cfg, list, Required(r.action, cfg.strayRow)) then AfterAuth(cfg, s1, r, list, error).0.conn
                  else Fail(cfg, s, MISSING_ATTRIBS).0.conn)
  {
    AuthAcceptsNothing(cfg, s, list);
    if HasAll(cfg, list, Required(r.action, cfg.strayRow)) {
      AfterAuthTells(cfg, s1, r, list, error);
    } else {
      RefusalTells(cfg, s, list, MISSING_ATTRIBS);
    }
  }

  lemma HeadersDoneTells(cfg: Config, s: State, list: seq<Pair>)
    requires s.conn.request.Some? && s.conn.request.value == NewRequest(s.conn.request.value.info)
    requires s.conn.acts == [] && s.conn.code == SUCCESS && list == cfg.parse(s.conn.got)
    ensures Tells(cfg, EnvOf(cfg, s), list, s.conn.done, HeadersDone(cfg, s).0.conn)
  {
    var r := s.conn.request.value.(action := ReadAction(cfg.reading, list));
    var s1 := s.(conn := s.conn.(request := Some(r)));
    HeadersTell(cfg, s1, r, list, AuthTransaction(cfg, s1, list).0, AuthTransaction(cfg, s1, list).1);
  }

  // ----- requests and streams ----------------------------------------------------------------

  /** The headers of a packet that starts at a position of a stream. */
  function HeadersAt(input: seq<byte>, at: nat): seq<byte>
    requires at + MAGIC_LENGTH <= |input|
  {
    var info := ParseMagic(FromLittleEndian(input[at..at + MAGIC_LENGTH]));
    var start := at + MAGIC_LENGTH;
    if start + info.headerLength <= |input| then input[start..start + info.headerLength] else []
  }

  /** A request is the one that the stream tells at a position: by the magic word and the headers. */
  ghost predicate ToldAt(cfg: Config, input: seq<byte>, at: nat, r: Request)
  {
    && at + MAGIC_LENGTH <= |input| && r.info == ParseMagic(FromLittleEndian(input[at..at + MAGIC_LENGTH]))
    && RequestOf(cfg, cfg.parse(HeadersAt(input, at)), r)
  }

  ghost predicate Told(cfg: Config, c: Conn)
  {
    Waits(c) ==> ToldAt(cfg, c.input, UsedBy(c.done), c.request.value)
  }

  /** What a connection keeps and records is told by its stream. */
  ghost predicate TellsOn(cfg: Config, env: Env, c: Conn, t: Conn)
  {
    && Told(cfg, t) && Answers(env, c.done, t)
    && (|t.done| > |c.done| && Accepted(t.done[|c.done|].acts) ==>
          ToldAt(cfg, c.input, UsedBy(c.done), t.done[|c.done|].request))
  }

  /** The headers of a packet that starts at a position are what a connection has in memory. */
  ghost predicate HeadersFrom(c: Conn, at: nat)
  {
    && c.request.Some? && c.consumed == at + MAGIC_LENGTH + c.request.value.info.headerLength <= |c.input|
    && Announced(c.request.value.info, c.input, at + MAGIC_LENGTH)
    && c.got == c.input[at + MAGIC_LENGTH..c.consumed]
  }

  lemma HeadersStart(c: Conn, at: nat)
    requires Sound(c) && c.open && c.phase.HeadersRead? && c.index == c.length && at == UsedBy(c.done)
    ensures HeadersFrom(c, at)
  {
    HeadersStartBehind(c, at, c.consumed - c.index);
  }

  lemma HeadersStartBehind(c: Conn, at: nat, start: nat)
    requires Books(c) && c.open && at == UsedBy(c.done) && c.read == MAGIC_LENGTH + c.index
    requires start == c.consumed - c.index && c.consumed <= |c.input| && c.got == c.input[start..c.consumed]
    requires c.request.Some? && c.index == c.request.value.info.headerLength
    requires Announced(c.request.value.info, c.input, start)
    ensures HeadersFrom(c, at)
  {
    assert start == at + MAGIC_LENGTH;
  }

  /** So the stream has its word and its headers in front. */
  lemma HeadersAre(c: Conn, at: nat)
    requires HeadersFrom(c, at)
    ensures at + MAGIC_LENGTH <= |c.input|
    ensures c.request.value.info == ParseMagic(FromLittleEndian(c.input[at..at + MAGIC_LENGTH]))
    ensures HeadersAt(c.input, at) == c.got
  {
    WordAndHeadersAre(c.input, at, at + MAGIC_LENGTH, c.consumed, c.request.value.info, c.got);
  }

  lemma WordAndHeadersAre(input: seq<byte>, at: nat, start: nat, end: nat, info: Header, got: seq<byte>)
    requires Announced(info, input, start) && start == at + MAGIC_LENGTH
    requires end == start + info.headerLength <= |input| && got == input[start..end]
    ensures info == ParseMagic(FromLittleEndian(input[at..at + MAGIC_LENGTH])) && HeadersAt(input, at) == got
  {
    assert start - MAGIC_LENGTH == at;
  }

  lemma HeadersTellOn(cfg: Config, s: State, t: State, at: nat)
    requires Sound(s.conn) && s.conn.open && s.conn.phase.HeadersRead? && s.conn.index == s.conn.length
    requires at == UsedBy(s.conn.done) && t == HeadersDone(cfg, s).0
    ensures TellsOn(cfg, EnvOf(cfg, s), s.conn, t.conn)
  {
    HeadersStart(s.conn, at);
    HeadersAre(s.conn, at);
    HeadersDoneTells(cfg, s, cfg.parse(s.conn.got));
    HeadersDoneEnds(cfg, s);
  }

  lemma AfterCallbackTells(cfg: Config, env: Env, c: Conn, s: State, ok: bool)
    requires TellsOn(cfg, env, c, s.conn)
    ensures TellsOn(cfg, env, c, AfterCallback(cfg, s, ok).conn)
  {
  }

  lemma UploadTellsOn(cfg: Config, s: State)
    requires s.conn.request.Some? && s.conn.code != DATA_READY && Waits(s.conn) && Told(cfg, s.conn)
    requires s.conn.request.value.confirm ==> s.conn.request.value.action.RequestFile?
    ensures TellsOn(cfg, EnvOf(cfg, s), s.conn, UploadDone(cfg, s).0.conn)
  {
    UploadDoneRecords(cfg, s);
    UploadDoneAnswers(cfg, s);
    UploadDoneWaitsForNothing(cfg, s);
  }

  lemma CallbackTells(cfg: Config, s: State)
    requires Sound(s.conn) && s.conn.open && s.conn.index == s.conn.length && Told(cfg, s.conn)
    ensures TellsOn(cfg, EnvOf(cfg, s), s.conn, Callback(cfg, s).0.conn)
  {
    match s.conn.phase {
      case MagicRead =>
      case HeadersRead => HeadersTellOn(cfg, s, HeadersDone(cfg, s).0, UsedBy(s.conn.done));
      case ConfirmUpload => UploadTellsOn(cfg, s);
      case Upload => UploadTellsOn(cfg, s);
    }
  }

  lemma DispatchTells(cfg: Config, c: Conn, s: State, t: State)
    requires Sound(s.conn) && s.conn.open && s.conn.index == s.conn.length && Told(cfg, c) && t == Dispatch(cfg, s)
    requires c.input == s.conn.input && c.done == s.conn.done && c.request == s.conn.request && c.phase == s.conn.phase
    ensures TellsOn(cfg, EnvOf(cfg, s), c, t.conn)
  {
    assert Told(cfg, s.conn);
    CallbackTells(cfg, s);
    AfterCallbackTells(cfg, EnvOf(cfg, s), s.conn, Callback(cfg, s).0, Callback(cfg, s).1);
  }

  lemma EventTells(cfg: Config, s: State, cuts: seq<nat>, t: State)
    requires Sound(s.conn) && s.conn.open && !Exits(s.conn) && Told(cfg, s.conn) && t == Event(cfg, s, cuts)
    ensures TellsOn(cfg, EnvOf(cfg, s), s.conn, t.conn)
  {
    var n, s1 := TakenNow(s.conn, cuts), AfterReads(cfg, s, cuts);
    ReadKeepsStored(cfg, s, n, s1);
    ReadSomeIsSound(cfg, s, n);
    if s1.conn.index == s1.conn.length {
      DispatchTells(cfg, s.conn, s1, t);
    }
  }

  ghost predicate AllTold(cfg: Config, srv: Hub)
  {
    forall fd :: fd in srv.conns ==> Told(cfg, srv.conns[fd])
  }

  lemma RecordedIs(cfg: Config, srv: Hub, e: ServerEvent, x: Entry)
    requires x in Recorded(cfg, srv, e)
    ensures e.Readable? && e.fd in srv.conns && !Fatal(cfg, srv, e) && x.env == cfg.env(srv.world.ticks)
    ensures var c, t := srv.conns[e.fd], Afterwards(cfg, srv, e);
            |t.conn.done| > |c.done| && x.packet == t.conn.done[|c.done|]
  {
  }

  lemma AfterwardsTells(cfg: Config, srv: Hub, e: ServerEvent)
    requires AllSound(srv) && AllTold(cfg, srv) && e.Readable? && e.fd in srv.conns && !Fatal(cfg, srv, e)
    ensures TellsOn(cfg, cfg.env(srv.world.ticks), srv.conns[e.fd], Afterwards(cfg, srv, e).conn)
  {
    EventTells(cfg, State(srv.conns[e.fd], srv.world), e.cuts, Afterwards(cfg, srv, e));
  }

  /** Every request at hand, and every accepted one on record, is the one its stream tells. */
  lemma StepTells(cfg: Config, srv: Hub, e: ServerEvent)
    requires AllSound(srv) && AllTold(cfg, srv)
    ensures ServerStep(cfg, srv, e).Up? ==> AllTold(cfg, ServerStep(cfg, srv, e).hub)
    ensures forall x :: x in Recorded(cfg, srv, e) && Accepted(x.packet.acts) ==>
              ToldAt(cfg, srv.conns[e.fd].input, UsedBy(srv.conns[e.fd].done), x.packet.request)
  {
    if e.fd in srv.conns && e.Readable? && !Fatal(cfg, srv, e) {
      AfterwardsTells(cfg, srv, e);
    }
  }

  /** All that a run needs to begin with, and keeps; a server without connections has it. */
  ghost predicate Ready(cfg: Config, srv: Hub)
  {
    Distinct(cfg) && ServerInv(cfg, srv) && AllTold(cfg, srv)
  }

  lemma {:induction false} RunStaysReady(cfg: Config, srv: Hub, events: seq<ServerEvent>)
    requires Ready(cfg, srv) && TameRun(cfg, srv, events)
    ensures RunServer(cfg, srv, events).Up? ==> Ready(cfg, RunServer(cfg, srv, events).hub)
    decreases events
  {
    if events != [] {
      StepKeepsInv(cfg, srv, events[0]);
      StepTells(cfg, srv, events[0]);
      if ServerStep(cfg, srv, events[0]).Up? {
        RunStaysReady(cfg, ServerStep(cfg, srv, events[0]).hub, events[1..]);
      }
    }
  }

  // ----- storing -----------------------------------------------------------------------------

  /** The headers name a file and call for an action on it, by the name of the action. */
  ghost predicate Asks(cfg: Config, header: seq<byte>, verb: string, name: string)
  {
    var list := cfg.parse(header);
    && Calls(cfg.reading, list, verb)
    && cfg.lookup(list, "filename").Some? && cfg.lookup(list, "filename").value.text == name
  }

  lemma ActionAsked(cfg: Config, header: seq<byte>, name: string)
    ensures Asks(cfg, header, "create", name) ==> ReadAction(cfg.reading, cfg.parse(header)) == Create
    ensures Asks(cfg, header, "update", name) ==> ReadAction(cfg.reading, cfg.parse(header)) == Update
    ensures Asks(cfg, header, "delete", name) ==> ReadAction(cfg.reading, cfg.parse(header)) == Delete
  {
    CallsIff(cfg.reading, cfg.parse(header), ReadAction(cfg.reading, cfg.parse(header)));
  }

  /** They ask to create a file of that name, not to append to it. */
  ghost predicate AsksCreate(cfg: Config, header: seq<byte>, name: string)
  {
    Asks(cfg, header, "create", name) && !Has(cfg, cfg.parse(header), "append")
  }

  /** A step puts a packet of a connection on record that was accepted and answered with `OK`. */
  ghost predicate Oks(cfg: Config, srv: Hub, e: ServerEvent, x: Entry)
  {
    && e.Readable? && e.fd in srv.conns && Recorded(cfg, srv, e) == [x]
    && Accepted(x.packet.acts) && EndsWithOk(x.packet.acts)
  }

  /** The headers of the packet at hand in a connection. */
  function HeadersOf(c: Conn): seq<byte>
  {
    if UsedBy(c.done) + MAGIC_LENGTH <= |c.input| then HeadersAt(c.input, UsedBy(c.done)) else []
  }

  predicate Holds(disk: Disk, path: string, content: seq<byte>)
  {
    path in disk.files && disk.files[path] == content
  }

  lemma SameHolds(cfg: Config, a: Disk, b: Disk, path: string, content: seq<byte>)
    requires SameStored(cfg, a, b) && IsReal(cfg, path)
    ensures Holds(a, path, content) <==> Holds(b, path, content)
  {
    assert SameAt(a.files, b.files, path);
  }

  /** All of a body landed in its temporary file. */
  ghost predicate Whole(cfg: Config, x: Entry)
  {
    var r := x.packet.request;
    x.packet.inFile && r.ticket.Some? && AllLand(cfg.lands(r.ticket.value), 0, |x.body|)
  }

  /** What an entry tells of its body: it is the one in the stream, its digest is on hand if it went to
      a file, and then that file holds all of it if and only if every byte landed there. */
  ghost predicate TellsBody(cfg: Config, srv: Hub, fd: int, x: Entry)
    requires fd in srv.conns
  {
    var r := x.packet.request;
    && x.env == cfg.env(srv.world.ticks) && r.ticket.Some?
    && x.body == BodyAt(srv.conns[fd].input, UsedBy(srv.conns[fd].done), r.info) && |x.body| == r.info.dataLength
    && (x.packet.inFile ==>
          && (x.body != [] ==> x.hash == Hexify(cfg.sha256(x.body)))
          && x.temp.Some? && (x.temp == Some(x.body) <==> Whole(cfg, x)))
    && (!x.packet.inFile ==> x.temp == At(srv.world.disk, cfg.names.temp(r.ticket.value)))
  }

  lemma EntryTellsBody(cfg: Config, srv: Hub, e: ServerEvent, x: Entry)
    requires Ready(cfg, srv) && TameStep(cfg, srv, e) && e.Readable? && e.fd in srv.conns
    requires Recorded(cfg, srv, e) == [x] && Accepted(x.packet.acts)
    ensures TellsBody(cfg, srv, e.fd, x)
  {
    StepTakes(cfg, srv, e);
    StepTells(cfg, srv, e);
    assert x in Recorded(cfg, srv, e);
    var r := x.packet.request;
    LandedAllIff(cfg.lands(r.ticket.value), 0, x.body);
  }

  /** A create that was answered with `OK`, whatever other connections did while its body came in, has
      a row. If the rename of its last callback worked and there was a file under its temporary name,
      its file holds exactly its body if and only if that one did; otherwise, if and only if it held
      just that before. */
  lemma CreateIsStoredIff(cfg: Config, srv: Hub, e: ServerEvent, x: Entry, name: string)
    requires Ready(cfg, srv) && TameStep(cfg, srv, e) && Oks(cfg, srv, e, x)
    requires AsksCreate(cfg, HeadersOf(srv.conns[e.fd]), name)
    ensures TellsBody(cfg, srv, e.fd, x)
    ensures var before, after, path := srv.world.disk, ServerStep(cfg, srv, e).DiskOf(), cfg.names.stored(name);
            && IsReal(cfg, path) && Row(cfg.names.key(name), AsInt(|x.body|), StoredHash(x.hash)) in after.rows
            && (Holds(after, path, x.body) <==>
                  if x.env.end.rename && x.temp.Some? then x.temp == Some(x.body) else Holds(before, path, x.body))
  {
    EntryTellsBody(cfg, srv, e, x);
    CreateStep(cfg, srv, e, x, name);
  }

  /** A packet on record was accepted, and has a request that its headers make. */
  ghost predicate Requests(cfg: Config, srv: Hub, e: ServerEvent, x: Entry, action: Action, name: string)
    requires e.fd in srv.conns
  {
    var r, list := x.packet.request, cfg.parse(HeadersOf(srv.conns[e.fd]));
    && RequestOf(cfg, list, r) && r.action == action
    && r.key == Some(cfg.names.key(name)) && r.dest == cfg.names.stored(name)
  }

  lemma RecordRequests(cfg: Config, srv: Hub, e: ServerEvent, x: Entry, verb: string, action: Action, name: string)
    requires AllSound(srv) && AllTold(cfg, srv) && e.fd in srv.conns && x in Recorded(cfg, srv, e)
    requires Accepted(x.packet.acts) && Asks(cfg, HeadersOf(srv.conns[e.fd]), verb, name)
    requires ReadAction(cfg.reading, cfg.parse(HeadersOf(srv.conns[e.fd]))) == action
    ensures Requests(cfg, srv, e, x, action, name)
  {
    StepTells(cfg, srv, e);
  }

  /** What such a step does to the disk. */
  lemma CreateStep(cfg: Config, srv: Hub, e: ServerEvent, x: Entry, name: string)
    requires Ready(cfg, srv) && TameStep(cfg, srv, e) && Oks(cfg, srv, e, x)
    requires AsksCreate(cfg, HeadersOf(srv.conns[e.fd]), name)
    ensures x.packet.request.dest == cfg.names.stored(name) && x.packet.request.key == Some(cfg.names.key(name))
    ensures |x.body| == x.packet.request.info.dataLength && IsReal(cfg, x.packet.request.dest)
    ensures CreateDid(srv.world.disk, x, ServerStep(cfg, srv, e).DiskOf())
  {
    StepTakes(cfg, srv, e);
    assert x in Recorded(cfg, srv, e);
    ActionAsked(cfg, HeadersOf(srv.conns[e.fd]), name);
    RecordRequests(cfg, srv, e, x, "create", Create, name);
    CreateTook(cfg, srv.world.disk, x, ServerStep(cfg, srv, e).DiskOf());
  }

  /** The row is there, and the file is what was under the temporary name, or as it was. */
  ghost predicate CreateDid(d: Disk, x: Entry, after: Disk)
  {
    var r := x.packet.request;
    && Row(KeyOf(r), AsInt(|x.body|), StoredHash(x.hash)) in after.rows
    && if x.env.end.rename && x.temp.Some? then Holds(after, r.dest, x.temp.value)
       else SameAt(d.files, after.files, r.dest)
  }

  lemma CreateTook(cfg: Config, d: Disk, x: Entry, after: Disk)
    requires Accepted(x.packet.acts) && EndsWithOk(x.packet.acts)
    requires x.packet.request.action.Create? && !x.packet.request.append
    requires Took(cfg, x.env, d, x.packet, x.body, x.hash, after)
    requires x.temp == LeftBy(cfg, d, x.packet.request, x.packet.inFile, x.body)
    ensures |x.body| == x.packet.request.info.dataLength && IsReal(cfg, x.packet.request.dest)
    ensures CreateDid(d, x, after)
  {
    var r := x.packet.request;
    var (d', error) := EffectFor(cfg, x.env, d, x.packet, x.body, x.hash);
    assert error == SUCCESS;
    assert d'.rows[|d.rows|] == Row(KeyOf(r), AsInt(|x.body|), StoredHash(x.hash));
    assert SameAt(d'.files, after.files, r.dest);
  }

  /** Whether a create is answered with `OK` depends on its row only, neither on its temporary file nor
      on the rename. */
  lemma CreateIsOkIff(cfg: Config, srv: Hub, e: ServerEvent, x: Entry, name: string)
    requires AllSound(srv) && AllTold(cfg, srv) && e.fd in srv.conns && x in Recorded(cfg, srv, e)
    requires Accepted(x.packet.acts) && AsksCreate(cfg, HeadersOf(srv.conns[e.fd]), name)
    ensures EndsWithOk(x.packet.acts) <==> x.env.end.insert
  {
    ActionAsked(cfg, HeadersOf(srv.conns[e.fd]), name);
    RecordRequests(cfg, srv, e, x, "create", Create, name);
    RecordedIs(cfg, srv, e, x);
    AfterwardsTells(cfg, srv, e);
  }

  /** So the body of a create can be lost, and the client is told `OK`: where the rename fails, and
      where the temporary file could not be opened and there is no other file of its name. */
  lemma LostBodyIsNotNoticed(cfg: Config, srv: Hub, e: ServerEvent, x: Entry, name: string)
    requires Ready(cfg, srv) && TameStep(cfg, srv, e) && Oks(cfg, srv, e, x)
    requires AsksCreate(cfg, HeadersOf(srv.conns[e.fd]), name)
    requires !x.env.end.rename || (!x.packet.inFile && x.packet.request.ticket.Some?
                                   && cfg.names.temp(x.packet.request.ticket.value) !in srv.world.disk.files)
    ensures var after := ServerStep(cfg, srv, e).DiskOf();
            && SameAt(srv.world.disk.files, after.files, cfg.names.stored(name))
            && Row(cfg.names.key(name), AsInt(|x.body|), StoredHash(x.hash)) in after.rows
  {
    EntryTellsBody(cfg, srv, e, x);
    CreateStep(cfg, srv, e, x, name);
  }

  /** A create without append is refused where it finds a row of its key and its file, but a file that
      is there without such a row it replaces: if and only if the rename works and there is a file with
      other bytes under its temporary name. */
  lemma CreateReplacesIff(cfg: Config, srv: Hub, e: ServerEvent, x: Entry, name: string)
    requires Ready(cfg, srv) && TameStep(cfg, srv, e) && Oks(cfg, srv, e, x)
    requires AsksCreate(cfg, HeadersOf(srv.conns[e.fd]), name) && cfg.names.stored(name) in srv.world.disk.files
    ensures var before, after, path := srv.world.disk, ServerStep(cfg, srv, e).DiskOf(), cfg.names.stored(name);
            && path in after.files
            && (after.files[path] != before.files[path] <==>
                  x.env.end.rename && x.temp.Some? && x.temp.value != before.files[path])
  {
    CreateStep(cfg, srv, e, x, name);
  }

  /** Such a file can have been stored by a create of another name: one with another key that leads to
      the same file. */
  lemma OtherNamePasses(cfg: Config, home: string, s: State, r: Request, list: seq<Pair>, x: string, a: string,
                        b: string)
    requires cfg.names == NamesUnder(home) && CleanHome(home) && NoSlash(x) && !Rooted(x)
    requires CString(a) == x && CString(b) == "" + "/" + x
    requires FileExists(s.world.disk, cfg.names.key(a), cfg.names.stored(a)) && !HasRow(s.world.disk, cfg.names.key(b))
    requires r.action.Create? && r.key == Some(cfg.names.key(b)) && r.dest == cfg.names.stored(b)
    ensures cfg.names.key(b) != cfg.names.key(a) && r.dest in s.world.disk.files
    ensures Preprocess(cfg, s, r, list).2 == SUCCESS
  {
    OtherKeySameFile(x, a, b, home);
  }

  /** An update that was answered with `OK`, whatever other connections did while its body came in,
      has left the bytes before its position, its body, and, if not trimmed, the bytes behind it,
      all of the file as it was at that moment; the metadata stays. Its body is all there also where
      not all of it landed, since the copy then fails; only where its temporary file could not be
      opened it may be that of another file of that name. */
  lemma UpdateIsStored(cfg: Config, srv: Hub, e: ServerEvent, x: Entry, name: string)
    requires Ready(cfg, srv) && TameStep(cfg, srv, e) && Oks(cfg, srv, e, x)
    requires Asks(cfg, HeadersOf(srv.conns[e.fd]), "update", name)
    ensures TellsBody(cfg, srv, e.fd, x)
    ensures var before, after, path := srv.world.disk, ServerStep(cfg, srv, e).DiskOf(), cfg.names.stored(name);
            var r, list, source := x.packet.request, cfg.parse(HeadersOf(srv.conns[e.fd])), ValueOr(x.temp);
            && Has(cfg, list, "updateat") && r.at == cfg.lookup(list, "updateat").value.length
            && Has(cfg, list, "trim") && r.trim == (cfg.lookup(list, "trim").value.length != 0)
            && path in before.files && |x.body| <= |source|
            && Holds(after, path, Updated(before.files[path], r, source[..|x.body|]))
            && (x.packet.inFile || x.body == [] ==> source[..|x.body|] == x.body)
            && after.rows == before.rows
  {
    EntryTellsBody(cfg, srv, e, x);
    UpdateStep(cfg, srv, e, x, name);
    var r, source := x.packet.request, ValueOr(x.temp);
    if x.packet.inFile {
      LandedWhole(cfg.lands(r.ticket.value), x.body, source);
    }
  }

  /** As many bytes landed as there were, so all of them did. */
  lemma LandedWhole(lands: nat -> bool, body: seq<byte>, source: seq<byte>)
    requires source == Landed(lands, 0, body) && |body| <= |source|
    ensures source[..|body|] == body
  {
    LandedAllIff(lands, 0, body);
  }

  lemma UpdateStep(cfg: Config, srv: Hub, e: ServerEvent, x: Entry, name: string)
    requires Ready(cfg, srv) && TameStep(cfg, srv, e) && Oks(cfg, srv, e, x)
    requires Asks(cfg, HeadersOf(srv.conns[e.fd]), "update", name)
    ensures Requests(cfg, srv, e, x, Update, name)
    ensures x.packet.inFile && x.packet.request.ticket.Some? ==>
              x.temp == Some(Landed(cfg.lands(x.packet.request.ticket.value), 0, x.body))
    ensures UpdateDid(srv.world.disk, x, ServerStep(cfg, srv, e).DiskOf())
  {
    StepTakes(cfg, srv, e);
    assert x in Recorded(cfg, srv, e);
    ActionAsked(cfg, HeadersOf(srv.conns[e.fd]), name);
    RecordRequests(cfg, srv, e, x, "update", Update, name);
    UpdateTook(cfg, srv.world.disk, x, ServerStep(cfg, srv, e).DiskOf());
  }

  ghost predicate UpdateDid(d: Disk, x: Entry, after: Disk)
  {
    var r, source := x.packet.request, ValueOr(x.temp);
    && |x.body| <= |source| && r.dest in d.files && after.rows == d.rows
    && Holds(after, r.dest, Updated(d.files[r.dest], r, source[..|x.body|]))
  }

  lemma UpdateTook(cfg: Config, d: Disk, x: Entry, after: Disk)
    requires Accepted(x.packet.acts) && EndsWithOk(x.packet.acts)
    requires x.packet.request.action.Update? && Took(cfg, x.env, d, x.packet, x.body, x.hash, after)
    requires x.temp == LeftBy(cfg, d, x.packet.request, x.packet.inFile, x.body)
    ensures UpdateDid(d, x, after)
  {
    var r, source := x.packet.request, ValueOr(x.temp);
    var (d', error) := EffectFor(cfg, x.env, d, x.packet, x.body, x.hash);
    assert error == SUCCESS;
    CopySucceedsIff(source, r.info.dataLength, x.env.end.copy);
    SameHolds(cfg, d', after, r.dest, Updated(d.files[r.dest], r, source[..|x.body|]));
  }

  // ----- digests and deletes -----------------------------------------------------------------

  /** The row of a create whose body went to a file holds the digest of that body in lower-case text,
      without its last digit. */
  lemma RowHasDigest(cfg: Config, srv: Hub, e: ServerEvent, x: Entry, name: string, digest: seq<byte>)
    requires Ready(cfg, srv) && TameStep(cfg, srv, e) && Oks(cfg, srv, e, x)
    requires AsksCreate(cfg, HeadersOf(srv.conns[e.fd]), name)
    requires x.packet.inFile && x.body != [] && digest == cfg.sha256(x.body) && |digest| == 32
    ensures Row(cfg.names.key(name), AsInt(|x.body|), Hexify(digest)[..63]) in ServerStep(cfg, srv, e).DiskOf().rows
  {
    CreateIsStoredIff(cfg, srv, e, x, name);
  }

  /** An accepted delete is answered with `OK`; all rows of its key are gone, all others are there, and
      every stored file is as it was. */
  lemma DeleteForgets(cfg: Config, srv: Hub, e: ServerEvent, x: Entry, name: string)
    requires Ready(cfg, srv) && TameStep(cfg, srv, e) && e.Readable? && e.fd in srv.conns
    requires Recorded(cfg, srv, e) == [x] && Accepted(x.packet.acts)
    requires Asks(cfg, HeadersOf(srv.conns[e.fd]), "delete", name)
    ensures EndsWithOk(x.packet.acts)
    ensures var before, after := srv.world.disk, ServerStep(cfg, srv, e).DiskOf();
            && (forall row :: row in after.rows <==> row in before.rows && row.name != cfg.names.key(name))
            && (forall path :: IsReal(cfg, path) ==> SameAt(before.files, after.files, path))
  {
    StepTakes(cfg, srv, e);
    assert x in Recorded(cfg, srv, e);
    ActionAsked(cfg, HeadersOf(srv.conns[e.fd]), name);
    RecordRequests(cfg, srv, e, x, "delete", Delete, name);
    DeleteTook(cfg, srv.world.disk, x, ServerStep(cfg, srv, e).DiskOf(), cfg.names.key(name));
  }

  lemma DeleteTook(cfg: Config, d: Disk, x: Entry, after: Disk, key: string)
    requires Accepted(x.packet.acts) && x.packet.request.action.Delete? && x.packet.request.key == Some(key)
    requires Took(cfg, x.env, d, x.packet, x.body, x.hash, after)
    ensures EndsWithOk(x.packet.acts) && after.rows == WithoutRows(d.rows, key)
    ensures forall path :: IsReal(cfg, path) ==> SameAt(d.files, after.files, path)
  {
  }

  /** An accepted packet on record is for the action that its headers call for. */
  lemma RecordIsCalled(cfg: Config, srv: Hub, e: ServerEvent, x: Entry, list: seq<Pair>)
    requires AllSound(srv) && AllTold(cfg, srv) && e.fd in srv.conns && x in Recorded(cfg, srv, e)
    requires Accepted(x.packet.acts) && list == cfg.parse(HeadersOf(srv.conns[e.fd]))
    ensures Chosen(cfg.reading, list, x.packet.request.action)
    ensures AnsweredAs(x.env, x.packet)
  {
    StepTells(cfg, srv, e);
    CallsIff(cfg.reading, list, ReadAction(cfg.reading, list));
    RecordedIs(cfg, srv, e, x);
    AfterwardsTells(cfg, srv, e);
  }

  /** What the last response to an accepted packet is, by what its headers call for: `OK` for a login, a
      notification and a delete, data for a listing and the server information. */
  lemma CallsAreAnswered(cfg: Config, srv: Hub, e: ServerEvent, x: Entry, list: seq<Pair>)
    requires AllSound(srv) && AllTold(cfg, srv) && e.fd in srv.conns && x in Recorded(cfg, srv, e)
    requires Accepted(x.packet.acts) && list == cfg.parse(HeadersOf(srv.conns[e.fd]))
    ensures Calls(cfg.reading, list, "login") || Calls(cfg.reading, list, "notification") ==>
              EndsWithOk(x.packet.acts)
    ensures Calls(cfg.reading, list, "delete") ==> EndsWithOk(x.packet.acts)
    ensures Calls(cfg.reading, list, "dir") || Calls(cfg.reading, list, "server") ==> EndsWithData(x.packet.acts)
  {
    RecordIsCalled(cfg, srv, e, x, list);
  }

  // ----- serving -----------------------------------------------------------------------------

  /** A step puts a packet on record whose connection had been asked to confirm, and whose last
      response is the data. */
  ghost predicate Serves(cfg: Config, srv: Hub, e: ServerEvent, y: Entry)
  {
    && e.Readable? && e.fd in srv.conns && srv.conns[e.fd].phase.Upload? && Recorded(cfg, srv, e) == [y]
    && EndsWithData(y.packet.acts)
  }

  lemma SendsFile(cfg: Config, s: State, r: Request)
    requires s.conn.request == Some(r) && r.action.RequestFile?
    ensures ActionPostprocess(cfg, SendData(cfg, s))
            == (Say(cfg, s, DATA_READY, File(ValueOr(Served(cfg, s, r)))), SUCCESS)
  {
  }

  lemma SaysFrame(cfg: Config, s: State, code: int, content: seq<byte>)
    requires Fits(cfg)
    ensures Say(cfg, s, code, File(content)).conn.out == s.conn.out + Responses.Frame(cfg.serialize(code), content)
  {
    FrameIsSentIff(cfg.serialize(code), File(content));
    assert File(content).Payload() == content;
  }

  /** A confirmed request is answered with one packet that holds what is under its name, any other
      answer of the client with an error. */
  lemma UploadServes(cfg: Config, s: State, r: Request)
    requires Fits(cfg) && s.conn.request == Some(r) && r.action.RequestFile? && r.confirm
    ensures var t := UploadDone(cfg, s).0;
            && |t.conn.done| == |s.conn.done| + 1
            && t.conn.done[|s.conn.done|].acts
               == s.conn.acts
                  + [Said(if s.conn.got == Bytes("ACCEPT\0\0") then DATA_READY else NETWORK_ERROR_WRITE)]
            && (s.conn.got == Bytes("ACCEPT\0\0") ==>
                  t.conn.out == s.conn.out + Responses.Frame(cfg.serialize(DATA_READY), ValueOr(Served(cfg, s, r))))
  {
    SendsFile(cfg, s, r);
    SaysFrame(cfg, s, DATA_READY, ValueOr(Served(cfg, s, r)));
  }

  lemma AfterCallbackKeepsOut(cfg: Config, s: State, ok: bool)
    ensures AfterCallback(cfg, s, ok).conn.out == s.conn.out && AfterCallback(cfg, s, ok).conn.done == s.conn.done
  {
  }

  /** The record that `t` has on top of some others says last that there is data. */
  predicate RecordsData(done: seq<Exchange>, t: Conn)
  {
    |t.done| > |done| && EndsWithData(t.done[|done|].acts)
  }

  lemma UploadRecordsData(cfg: Config, s: State, r: Request, t: State)
    requires Fits(cfg) && s.conn.request == Some(r) && r.action.RequestFile? && r.confirm
    requires t == UploadDone(cfg, s).0 && RecordsData(s.conn.done, t.conn)
    ensures s.conn.got == ACCEPT
    ensures t.conn.out == s.conn.out + Responses.Frame(cfg.serialize(DATA_READY), ValueOr(Served(cfg, s, r)))
  {
    UploadServes(cfg, s, r);
  }

  /** A callback that puts data on record, and does not end the process. */
  lemma AcceptServes(cfg: Config, s: State, t: State, r: Request)
    requires Fits(cfg) && s.conn.phase.Upload? && s.conn.request == Some(r) && r.action.RequestFile? && r.confirm
    requires t == Dispatch(cfg, s) && RecordsData(s.conn.done, t.conn)
    ensures s.conn.got == ACCEPT
    ensures t.conn.out == s.conn.out + Responses.Frame(cfg.serialize(DATA_READY), ValueOr(Served(cfg, s, r)))
  {
    AfterCallbackKeepsOut(cfg, UploadDone(cfg, s).0, UploadDone(cfg, s).1);
    UploadRecordsData(cfg, s, r, UploadDone(cfg, s).0);
  }

  lemma AfterReadServes(cfg: Config, s: State, t: State, r: Request)
    requires Fits(cfg) && s.conn.phase.Upload? && s.conn.request == Some(r) && r.action.RequestFile? && r.confirm
    requires !Dies(cfg, s) && t == AfterRead(cfg, s) && RecordsData(s.conn.done, t.conn)
    ensures Served(cfg, s, r).Some?
    ensures t.conn.out == s.conn.out + Responses.Frame(cfg.serialize(DATA_READY), ValueOr(Served(cfg, s, r)))
  {
    assert s.conn.index == s.conn.length;
    AcceptServes(cfg, s, t, r);
  }

  lemma ReadForAccept(cfg: Config, s: State, n: nat, t: State)
    requires Sound(s.conn) && s.conn.phase.Upload? && s.conn.consumed + n <= |s.conn.input| && t == ReadSome(cfg, s, n)
    ensures t.world == s.world && t.conn.out == s.conn.out && t.conn.done == s.conn.done
    ensures t.conn.request == s.conn.request && t.conn.phase == s.conn.phase
  {
  }

  lemma EventServes(cfg: Config, s: State, cuts: seq<nat>, t: State, r: Request)
    requires Fits(cfg) && Sound(s.conn) && s.conn.open && !Ends(cfg, s, cuts) && s.conn.phase.Upload?
    requires s.conn.request == Some(r) && t == Event(cfg, s, cuts) && RecordsData(s.conn.done, t.conn)
    ensures Served(cfg, s, r).Some?
    ensures t.conn.out == s.conn.out + Responses.Frame(cfg.serialize(DATA_READY), ValueOr(Served(cfg, s, r)))
  {
    var n, s1 := TakenNow(s.conn, cuts), AfterReads(cfg, s, cuts);
    ReadForAccept(cfg, s, n, s1);
    ReadSomeIsSound(cfg, s, n);
    AfterReadServes(cfg, s1, t, r);
  }

  lemma ToldNames(cfg: Config, c: Conn, verb: string, name: string)
    requires Told(cfg, c) && Waits(c) && Asks(cfg, HeadersOf(c), verb, name)
    ensures c.request.value.dest == cfg.names.stored(name)
  {
  }

  lemma ServesData(cfg: Config, srv: Hub, e: ServerEvent, y: Entry)
    requires Serves(cfg, srv, e, y)
    ensures !Fatal(cfg, srv, e) && RecordsData(srv.conns[e.fd].done, Afterwards(cfg, srv, e).conn)
  {
    RecordedIs(cfg, srv, e, y);
  }

  /** A request that was served, whatever other connections do and whatever the clients name, gets one
      packet whose payload is what its name stands for at that moment: the file, if there is one. */
  lemma FileIsServed(cfg: Config, srv: Hub, e: ServerEvent, y: Entry, name: string)
    requires AllSound(srv) && AllTold(cfg, srv) && Fits(cfg) && Serves(cfg, srv, e, y)
    requires Asks(cfg, HeadersOf(srv.conns[e.fd]), "request", name)
    ensures var seen := Seen(srv.world.disk.files, cfg.env(srv.world.ticks).end.look, cfg.names.stored(name));
            && seen.Some?
            && Afterwards(cfg, srv, e).conn.out
               == srv.conns[e.fd].out + Responses.Frame(cfg.serialize(DATA_READY), seen.value)
  {
    var s, t := State(srv.conns[e.fd], srv.world), Afterwards(cfg, srv, e);
    ServesData(cfg, srv, e, y);
    ToldNames(cfg, s.conn, "request", name);
    EventServes(cfg, s, e.cuts, t, s.conn.request.value);
  }

  // ----- both --------------------------------------------------------------------------------

  lemma FrameIsReadBack(header: seq<byte>, body: seq<byte>, before: seq<byte>, after: seq<byte>)
    requires |header| <= 4080 && after == before + Responses.Frame(header, body)
    ensures before <= after
    ensures |body| < 0x100_0000_0000 ==> ReadFrame(after[|before|..]) == Packet(Padded(header), body, [])
  {
    assert after[|before|..] == Responses.Frame(header, body) + [];
    FrameRoundTripIff(header, body, []);
  }

  /** No recorded packet of the run writes the file. */
  ghost predicate NobodyWrites(cfg: Config, srv: Hub, events: seq<ServerEvent>, path: string)
  {
    NoneWrites(Log(cfg, srv, events), path)
  }

  /** A file keeps its bytes over every run in which no recorded packet writes it. */
  lemma FileStays(cfg: Config, srv: Hub, events: seq<ServerEvent>, path: string, content: seq<byte>)
    requires Ready(cfg, srv) && TameRun(cfg, srv, events) && IsReal(cfg, path)
    requires NobodyWrites(cfg, srv, events, path) && Holds(srv.world.disk, path, content)
    ensures Holds(RunServer(cfg, srv, events).DiskOf(), path, content)
  {
    var log := Log(cfg, srv, events);
    RunIsReplay(cfg, srv, events);
    NoWriterNoChange(srv.world.disk, log, path);
    SameHolds(cfg, Replay(srv.world.disk, log), RunServer(cfg, srv, events).DiskOf(), path, content);
  }

  /** What one connection stored, another one gets. A step answers a create with `OK` whose body landed
      whole in its temporary file and whose rename works; then come any events of any connections, of
      which no recorded packet writes that file; then a step serves a request for the same name. The
      packet that goes out in that step, read back, holds exactly the body that came in: however both
      streams were cut and interleaved with others, and however often the buffer was filled. */
  lemma StoreThenServe(cfg: Config, srv: Hub, a: ServerEvent, x: Entry, events: seq<ServerEvent>, later: Hub,
                       b: ServerEvent, y: Entry, name: string)
    requires Ready(cfg, srv) && Fits(cfg) && TameStep(cfg, srv, a)
    requires Oks(cfg, srv, a, x) && AsksCreate(cfg, HeadersOf(srv.conns[a.fd]), name)
    requires Whole(cfg, x) && x.env.end.rename
    requires ServerStep(cfg, srv, a).Up? && TameRun(cfg, ServerStep(cfg, srv, a).hub, events)
    requires RunServer(cfg, ServerStep(cfg, srv, a).hub, events) == Up(later)
    requires NobodyWrites(cfg, ServerStep(cfg, srv, a).hub, events, cfg.names.stored(name))
    requires Serves(cfg, later, b, y) && Asks(cfg, HeadersOf(later.conns[b.fd]), "request", name)
    ensures var before, after := later.conns[b.fd].out, Afterwards(cfg, later, b).conn.out;
            && before <= after
            && (|x.body| < 0x100_0000_0000 ==>
                  ReadFrame(after[|before|..]) == Packet(Padded(cfg.serialize(DATA_READY)), x.body, []))
  {
    StoredStays(cfg, srv, a, x, ServerStep(cfg, srv, a).hub, events, later, name);
    HeldIsServed(cfg, later, b, y, name, x.body);
  }

  lemma StoredStays(cfg: Config, srv: Hub, a: ServerEvent, x: Entry, next: Hub, events: seq<ServerEvent>, later: Hub,
                    name: string)
    requires Ready(cfg, srv) && TameStep(cfg, srv, a) && ServerStep(cfg, srv, a) == Up(next)
    requires Oks(cfg, srv, a, x) && AsksCreate(cfg, HeadersOf(srv.conns[a.fd]), name)
    requires Whole(cfg, x) && x.env.end.rename
    requires TameRun(cfg, next, events) && RunServer(cfg, next, events) == Up(later)
    requires NobodyWrites(cfg, next, events, cfg.names.stored(name))
    ensures Ready(cfg, later) && Holds(later.world.disk, cfg.names.stored(name), x.body)
  {
    CreateIsStoredIff(cfg, srv, a, x, name);
    StepKeepsInv(cfg, srv, a);
    StepTells(cfg, srv, a);
    FileStays(cfg, next, events, cfg.names.stored(name), x.body);
    RunStaysReady(cfg, next, events);
  }

  lemma HeldIsServed(cfg: Config, srv: Hub, e: ServerEvent, y: Entry, name: string, body: seq<byte>)
    requires Ready(cfg, srv) && Fits(cfg) && Holds(srv.world.disk, cfg.names.stored(name), body)
    requires Serves(cfg, srv, e, y) && Asks(cfg, HeadersOf(srv.conns[e.fd]), "request", name)
    ensures var before, after := srv.conns[e.fd].out, Afterwards(cfg, srv, e).conn.out;
            && before <= after
            && (|body| < 0x100_0000_0000 ==>
                  ReadFrame(after[|before|..]) == Packet(Padded(cfg.serialize(DATA_READY)), body, []))
  {
    FileIsServed(cfg, srv, e, y, name);
    FrameIsReadBack(cfg.serialize(DATA_READY), body, srv.conns[e.fd].out, Afterwards(cfg, srv, e).conn.out);
  }
}

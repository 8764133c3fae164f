/** Credentials are granted exactly where they are those of a user, and without them nothing stored
    changes, whoever the users are. */
module Credentials {
  import opened Exchanges
  import opened Headers
  import opened Permissions
  import opened Protocol
  import opened Servers
  import opened Verdicts
  import opened Wire

  // ----- what grants credentials -------------------------------------------------------------

  /** No credentials are granted from the one to the other. */
  predicate SameAsked(acts: seq<Act>, more: seq<Act>)
  {
    Asked(true) in more <==> Asked(true) in acts
  }

  lemma FailAsks(cfg: Config, u: State, code: int)
    requires u.conn.request.Some?
    ensures SameAsked(u.conn.acts, Caused(u.conn, Fail(cfg, u, code).0.conn))
  {
  }

  lemma AfterPostprocessAsks(cfg: Config, u: State, error: int)
    requires u.conn.request.Some?
    ensures SameAsked(u.conn.acts, Caused(u.conn, AfterPostprocess(cfg, u, error).0.conn))
  {
  }

  lemma UploadDoneAsks(cfg: Config, u: State)
    requires u.conn.request.Some?
    ensures SameAsked(u.conn.acts, Caused(u.conn, UploadDone(cfg, u).0.conn))
  {
    if u.conn.request.value.confirm && u.conn.got != ACCEPT {
      FailAsks(cfg, u, NETWORK_ERROR_WRITE);
    } else {
      var (v, error) := ActionPostprocess(cfg, SendData(cfg, u));
      WorkSaysData(cfg, u);
      AfterPostprocessAsks(cfg, v, error);
    }
  }

  lemma ConfirmDoneAsks(cfg: Config, u: State)
    requires u.conn.request.Some?
    ensures SameAsked(u.conn.acts, Caused(u.conn, ConfirmDone(cfg, u).0.conn))
  {
    if !u.conn.request.value.confirm {
      UploadDoneAsks(cfg, u);
    }
  }

  lemma AfterPreprocessAsks(cfg: Config, u: State, error: int)
    requires u.conn.request.Some?
    ensures SameAsked(u.conn.acts, Caused(u.conn, AfterPreprocess(cfg, u, error).0.conn))
  {
    if error != SUCCESS {
      FailAsks(cfg, u, error);
    } else if u.conn.request.value.info.dataLength == 0 {
      ConfirmDoneAsks(cfg, u);
    }
  }

  lemma AfterSetupAsks(cfg: Config, u: State, r: Request, list: seq<Pair>, error: int)
    requires u.conn.request == Some(r)
    ensures SameAsked(u.conn.acts, Caused(u.conn, AfterSetup(cfg, u, r, list, error).0.conn))
  {
    if error != SUCCESS {
      FailAsks(cfg, u, error);
    } else {
      var (v, r1, error1) := Preprocess(cfg, OpenTemp(cfg, u, r), r, list);
      PreprocessKeepsActs(cfg, u, r, list);
      var act := Prepared(r1.action, error1 == SUCCESS);
      AfterPreprocessAsks(cfg, v.(conn := v.conn.(request := Some(r1), acts := v.conn.acts + [act])), error1);
    }
  }

  lemma PreprocessKeepsActs(cfg: Config, u: State, r: Request, list: seq<Pair>)
    ensures var v := Preprocess(cfg, OpenTemp(cfg, u, r), r, list).0;
            v.conn.acts == u.conn.acts && v.conn.done == u.conn.done
  {
  }

  lemma AfterAuthAsks(cfg: Config, u: State, r: Request, list: seq<Pair>, error: int)
    requires u.conn.request == Some(r)
    ensures SameAsked(u.conn.acts, Caused(u.conn, AfterAuth(cfg, u, r, list, error).0.conn))
  {
    if error != SUCCESS {
      FailAsks(cfg, u, error);
    } else {
      var (v, r1, error1) := SetupEnvironment(cfg, u, r, list);
      SetupKeeps(cfg, u, r, list);
      AfterSetupAsks(cfg, v.(conn := v.conn.(request := Some(r1))), r1, list, error1);
    }
  }

  lemma AskedForGranted(cfg: Config, u: State, list: seq<Pair>, v: State)
    requires u.conn.acts == [] && v == AuthTransaction(cfg, u, list).0
    ensures Asked(true) in v.conn.acts <==> Known(cfg, list) && EnvOf(cfg, u).login
    ensures v.conn.request == u.conn.request && v.conn.done == u.conn.done
  {
    CredentialsAre(cfg, u, list);
  }

  /** What headers that carry what they need come to asks for both credentials, if they are there. */
  lemma AuthAsks(cfg: Config, u: State, r: Request, list: seq<Pair>, v: State, error: int)
    requires u.conn.request == Some(r) && u.conn.acts == [] && (v, error) == AuthTransaction(cfg, u, list)
    ensures Asked(true) in Caused(u.conn, AfterAuth(cfg, v, r, list, error).0.conn) <==>
            Known(cfg, list) && EnvOf(cfg, u).login
  {
    AskedForGranted(cfg, u, list, v);
    AfterAuthAsks(cfg, v, r, list, error);
  }

  /** The credentials of a packet are granted if and only if its headers carry what their action needs,
      a user of that name with the digest of that secret is known, and the query works. */
  lemma HeadersDoneAsks(cfg: Config, s: State, list: seq<Pair>, action: Action)
    requires s.conn.request.Some? && s.conn.acts == [] && list == cfg.parse(s.conn.got)
    requires action == ReadAction(cfg.reading, list)
    ensures Asked(true) in Caused(s.conn, HeadersDone(cfg, s).0.conn) <==>
            Carries(cfg, list, Needed(cfg, action)) && Known(cfg, list) && EnvOf(cfg, s).login
  {
    var r := s.conn.request.value.(action := action);
    var u := s.(conn := s.conn.(request := Some(r)));
    CarriesIff(cfg, list, action);
    if HasAll(cfg, list, Required(action, cfg.strayRow)) {
      AuthAsks(cfg, u, r, list, AuthTransaction(cfg, u, list).0, AuthTransaction(cfg, u, list).1);
    } else {
      FailAsks(cfg, u, MISSING_ATTRIBS);
    }
  }

  lemma AfterCallbackAsks(cfg: Config, c: Conn, u: State, ok: bool)
    requires ok || |u.conn.done| > |c.done| || u.conn.acts == []
    ensures Caused(c, AfterCallback(cfg, u, ok).conn) == Caused(c, u.conn)
  {
  }

  /** A callback that fails has put its packet on record. */
  lemma FailureIsRecorded(cfg: Config, s: State)
    requires s.conn.request.Some? && !s.conn.phase.MagicRead?
    ensures !Callback(cfg, s).1 ==> |Callback(cfg, s).0.conn.done| > |s.conn.done|
  {
    FailingCallbackEnds(cfg, s);
    CallbackEnds(cfg, s);
  }

  /** The same of the whole step that completes the headers. */
  lemma CredentialsAreGrantedIff(cfg: Config, s: State, list: seq<Pair>, action: Action, t: State)
    requires Arrived(cfg, s, list) && action == ReadAction(cfg.reading, list) && t == Dispatch(cfg, s)
    ensures Asked(true) in Caused(s.conn, t.conn) <==>
            Carries(cfg, list, Needed(cfg, action)) && Known(cfg, list) && EnvOf(cfg, s).login
  {
    HeadersDoneAsks(cfg, s, list, action);
    FailureIsRecorded(cfg, s);
    AfterCallbackAsks(cfg, s.conn, HeadersDone(cfg, s).0, HeadersDone(cfg, s).1);
  }

  // ----- clients without the credentials of a user -------------------------------------------

  /** At a position of a stream that a magic word announces, there are no headers with the name and the
      secret of a user. */
  predicate StrangeAt(cfg: Config, input: seq<byte>, at: nat)
    requires MAGIC_LENGTH <= at <= |input|
  {
    StrangeBehind(cfg, input, at, ParseMagic(FromLittleEndian(input[at - MAGIC_LENGTH..at])))
  }

  predicate StrangeBehind(cfg: Config, input: seq<byte>, at: nat, info: Header)
  {
    info.magic == MAGIC && at + info.headerLength <= |input| ==>
      !Known(cfg, cfg.parse(input[at..at + info.headerLength]))
  }

  ghost predicate Stranger(cfg: Config, input: seq<byte>)
  {
    forall at :: MAGIC_LENGTH <= at <= |input| ==> StrangeAt(cfg, input, at)
  }

  /** A stranger's connection, to which no credentials were granted. */
  ghost predicate Strange(cfg: Config, c: Conn)
  {
    Stranger(cfg, c.input) && Asked(true) !in c.acts
  }

  lemma StrangersAreUnknown(cfg: Config, input: seq<byte>, at: nat, end: nat, info: Header, got: seq<byte>)
    requires Stranger(cfg, input) && Announced(info, input, at) && end == at + info.headerLength <= |input|
    requires got == input[at..end]
    ensures !Known(cfg, cfg.parse(got))
  {
    assert StrangeAt(cfg, input, at);
    assert StrangeBehind(cfg, input, at, info);
  }

  lemma StrangeHeaders(cfg: Config, s: State)
    requires Sound(s.conn) && s.conn.phase.HeadersRead? && s.conn.index == s.conn.length && Strange(cfg, s.conn)
    ensures Asked(true) !in Caused(s.conn, HeadersDone(cfg, s).0.conn)
  {
    var at := s.conn.consumed - s.conn.index;
    StrangersAreUnknown(cfg, s.conn.input, at, s.conn.consumed, s.conn.request.value.info, s.conn.got);
    HeadersDoneAsks(cfg, s, cfg.parse(s.conn.got), ReadAction(cfg.reading, cfg.parse(s.conn.got)));
  }

  lemma CallbackStaysStrange(cfg: Config, s: State)
    requires Sound(s.conn) && s.conn.open && s.conn.index == s.conn.length && Strange(cfg, s.conn)
    ensures Asked(true) !in Caused(s.conn, Callback(cfg, s).0.conn)
  {
    match s.conn.phase {
      case MagicRead =>
      case HeadersRead => StrangeHeaders(cfg, s);
      case ConfirmUpload => ConfirmDoneAsks(cfg, s);
      case Upload => UploadDoneAsks(cfg, s);
    }
  }

  lemma NewPacketHasNoActs(cfg: Config, s: State, t: State)
    requires s.conn.request.Some? && GoesOnOrEnds(s.conn, t.conn) && Sound(t.conn)
    ensures |t.conn.done| > |s.conn.done| ==> t.conn.acts == []
  {
  }

  lemma AcceptedMagicHasNoActs(cfg: Config, s: State)
    requires Sound(s.conn) && s.conn.phase.MagicRead?
    ensures Dispatch(cfg, s).conn.done == s.conn.done && Dispatch(cfg, s).conn.acts == []
  {
  }

  lemma DispatchStaysStrange(cfg: Config, s: State, t: State)
    requires Sound(s.conn) && s.conn.open && s.conn.index == s.conn.length && Strange(cfg, s.conn)
    requires t == Dispatch(cfg, s)
    ensures Asked(true) !in Caused(s.conn, t.conn) && Strange(cfg, t.conn)
  {
    DispatchIsSound(cfg, s);
    OneRecordPerPacket(cfg, s);
    if s.conn.phase.MagicRead? {
      AcceptedMagicHasNoActs(cfg, s);
    } else {
      CallbackStaysStrange(cfg, s);
      FailureIsRecorded(cfg, s);
      AfterCallbackAsks(cfg, s.conn, Callback(cfg, s).0, Callback(cfg, s).1);
      NewPacketHasNoActs(cfg, s, t);
    }
  }

  lemma ReadStaysStrange(cfg: Config, s: State, n: nat, t: State)
    requires s.conn.consumed + n <= |s.conn.input| && t == ReadSome(cfg, s, n) && Strange(cfg, s.conn)
    ensures Strange(cfg, t.conn) && t.conn.done == s.conn.done && t.conn.acts == s.conn.acts
  {
  }

  lemma AfterReadStaysStrange(cfg: Config, s: State, t: State)
    requires Sound(s.conn) && s.conn.open && Strange(cfg, s.conn) && t == AfterRead(cfg, s)
    ensures Asked(true) !in Caused(s.conn, t.conn) && Strange(cfg, t.conn)
  {
    if s.conn.index == s.conn.length {
      DispatchStaysStrange(cfg, s, t);
    }
  }

  /** An event of a stranger grants nothing. */
  lemma EventStaysStrange(cfg: Config, s: State, cuts: seq<nat>, t: State)
    requires Sound(s.conn) && s.conn.open && !Exits(s.conn) && Strange(cfg, s.conn) && t == Event(cfg, s, cuts)
    ensures Asked(true) !in Caused(s.conn, t.conn) && Strange(cfg, t.conn)
  {
    var n, s1 := TakenNow(s.conn, cuts), AfterReads(cfg, s, cuts);
    ReadStaysStrange(cfg, s, n, s1);
    ReadSomeIsSound(cfg, s, n);
    AfterReadStaysStrange(cfg, s1, t);
  }

  lemma HangUpStaysStrange(cfg: Config, s: State)
    requires Strange(cfg, s.conn)
    ensures Strange(cfg, HangUp(cfg, s).conn)
  {
  }

  ghost predicate AllStrange(cfg: Config, srv: Hub)
  {
    forall fd :: fd in srv.conns ==> Strange(cfg, srv.conns[fd])
  }

  lemma AfterwardsIsStrange(cfg: Config, srv: Hub, e: ServerEvent, t: State)
    requires AllSound(srv) && AllStrange(cfg, srv) && e.fd in srv.conns && !Fatal(cfg, srv, e) && !e.Accept?
    requires t == Afterwards(cfg, srv, e)
    ensures Strange(cfg, t.conn) && (e.Readable? ==> Asked(true) !in Caused(srv.conns[e.fd], t.conn))
  {
    var s := State(srv.conns[e.fd], srv.world);
    if e.Readable? {
      EventStaysStrange(cfg, s, e.cuts, t);
    } else {
      HangUpStaysStrange(cfg, s);
    }
  }

  lemma PutBackStaysStrange(cfg: Config, srv: Hub, fd: int, t: State)
    requires AllStrange(cfg, srv) && Strange(cfg, t.conn)
    ensures AllStrange(cfg, PutBack(srv, fd, t))
  {
  }

  lemma NotLoggedIn(cfg: Config, done: seq<Exchange>, c: Conn, t: Conn)
    requires c.done == done && Asked(true) !in Caused(c, t)
    ensures !LoginRecorded(cfg, done, t)
  {
  }

  lemma StepStaysStrange(cfg: Config, srv: Hub, e: ServerEvent)
    requires AllSound(srv) && AllStrange(cfg, srv) && (e.Accept? ==> Stranger(cfg, e.input))
    ensures ServerStep(cfg, srv, e).Up? ==> AllStrange(cfg, ServerStep(cfg, srv, e).hub)
    ensures !LogsIn(cfg, srv, e)
  {
    if e.fd in srv.conns && !Fatal(cfg, srv, e) && !e.Accept? {
      var t := Afterwards(cfg, srv, e);
      AfterwardsIsStrange(cfg, srv, e, t);
      PutBackStaysStrange(cfg, srv, e.fd, t);
      if e.Readable? {
        NotLoggedIn(cfg, srv.conns[e.fd].done, srv.conns[e.fd], t.conn);
      }
    }
  }

  ghost predicate StrangeEvents(cfg: Config, events: seq<ServerEvent>)
  {
    forall i :: 0 <= i < |events| && events[i].Accept? ==> Stranger(cfg, events[i].input)
  }

  /** A run in which no headers of any client carry the name and the secret of a user stores nothing and
      loses nothing, whoever the users are, in any order of events and any pieces. */
  lemma {:induction false} StrangersChangeNothing(cfg: Config, srv: Hub, events: seq<ServerEvent>)
    requires Orderly(cfg, srv) && AllStrange(cfg, srv) && StrangeEvents(cfg, events)
    ensures SameStored(cfg, srv.world.disk, RunServer(cfg, srv, events).DiskOf())
    decreases events
  {
    if events != [] {
      StepStaysOrderly(cfg, srv, events[0]);
      StepStaysStrange(cfg, srv, events[0]);
      StepIsLawful(cfg, srv, events[0]);
      match ServerStep(cfg, srv, events[0]) {
        case Down(_) =>
        case Up(next) =>
          StrangersChangeNothing(cfg, next, events[1..]);
          StoredTwice(cfg, srv.world.disk, next.world.disk, RunServer(cfg, next, events[1..]).DiskOf());
      }
    }
  }
}

/** No temporary file outlives its packet: over every tame run, each one that is there belongs to the
    request that a connection is working on. */
module TempFiles {
  import opened Exchanges
  import opened FileStore
  import opened Headers
  import opened PathAlgebra
  import opened Permissions
  import opened Protocol
  import opened Servers

  // ----- one connection ----------------------------------------------------------------------

  /** Of the temporary files of a share, only that of the request at hand can be there. */
  ghost predicate Tidy(cfg: Config, share: Share, u: State)
  {
    forall n: nat :: Mine(share, n) && cfg.names.temp(n) in u.world.disk.files ==> Ticket(u.conn) == Some(n)
  }

  lemma ResetTidies(cfg: Config, share: Share, u: State)
    requires Tidy(cfg, share, u)
    ensures Tidy(cfg, share, ResetNewPacket(cfg, u))
  {
  }

  lemma FinishTidies(cfg: Config, share: Share, u: State)
    requires Tidy(cfg, share, u) && u.conn.request.Some?
    ensures Tidy(cfg, share, Finish(cfg, u))
  {
    var e := Exchange(u.conn.request.value, u.conn.read, u.conn.acts, u.conn.fileOpen);
    ResetTidies(cfg, share, u.(conn := u.conn.(done := u.conn.done + [e])));
  }

  lemma FailTidies(cfg: Config, share: Share, u: State, code: int)
    requires Tidy(cfg, share, u) && u.conn.request.Some?
    ensures Tidy(cfg, share, Fail(cfg, u, code).0)
  {
    FinishTidies(cfg, share, Say(cfg, u, code, MessageSource(code)));
  }

  lemma AfterPostprocessTidies(cfg: Config, share: Share, u: State, error: int)
    requires Tidy(cfg, share, u) && u.conn.request.Some?
    ensures Tidy(cfg, share, AfterPostprocess(cfg, u, error).0)
  {
    if error != SUCCESS {
      FailTidies(cfg, share, u, error);
    } else if u.conn.code != DATA_READY {
      FinishTidies(cfg, share, Say(cfg, u, PACKET_OK, MessageSource(PACKET_OK)));
    } else {
      FinishTidies(cfg, share, u);
    }
  }

  /** The work of a request makes no temporary file, its own apart. */
  lemma WorkMakesNone(cfg: Config, u: State, r: Request, v: State, n: nat)
    requires Distinct(cfg) && Named(cfg, u.conn, u.world) && u.conn.request == Some(r) && r.ticket.Some?
    requires v == ActionPostprocess(cfg, SendData(cfg, u)).0 && r.ticket != Some(n)
    ensures cfg.names.temp(n) in v.world.disk.files ==> cfg.names.temp(n) in u.world.disk.files
  {
    var temp, path := cfg.names.temp(r.ticket.value), cfg.names.temp(n);
    WorkReaches(cfg, u, r, temp, v, path);
    assert Bare(u.world.disk.files, temp);
    assert !AtOrBelow(path, temp);
    assert WritesFile(r.action) ==> !AtOrBelow(r.dest, path);
  }

  lemma WorkTidies(cfg: Config, share: Share, u: State, r: Request, v: State)
    requires Distinct(cfg) && Named(cfg, u.conn, u.world) && u.conn.request == Some(r) && r.ticket.Some?
    requires Tidy(cfg, share, u) && v == ActionPostprocess(cfg, SendData(cfg, u)).0
    ensures Tidy(cfg, share, v) && v.conn.request == u.conn.request
  {
    WorkReaches(cfg, u, r, cfg.names.temp(r.ticket.value), v, "");
    forall n: nat | Mine(share, n) && cfg.names.temp(n) in v.world.disk.files
      ensures r.ticket == Some(n)
    {
      if r.ticket != Some(n) {
        WorkMakesNone(cfg, u, r, v, n);
      }
    }
  }

  lemma UploadDoneTidies(cfg: Config, share: Share, u: State, r: Request)
    requires Distinct(cfg) && Named(cfg, u.conn, u.world) && u.conn.request == Some(r) && r.ticket.Some?
    requires Tidy(cfg, share, u)
    ensures Tidy(cfg, share, UploadDone(cfg, u).0)
  {
    if r.confirm && u.conn.got != ACCEPT {
      FailTidies(cfg, share, u, NETWORK_ERROR_WRITE);
    } else {
      var (v, error) := ActionPostprocess(cfg, SendData(cfg, u));
      WorkTidies(cfg, share, u, r, v);
      AfterPostprocessTidies(cfg, share, v, error);
    }
  }

  lemma AfterPreprocessTidies(cfg: Config, share: Share, u: State, r: Request, error: int)
    requires Distinct(cfg) && Named(cfg, u.conn, u.world) && u.conn.request == Some(r) && r.ticket.Some?
    requires Tidy(cfg, share, u)
    ensures Tidy(cfg, share, AfterPreprocess(cfg, u, error).0)
  {
    if error != SUCCESS {
      FailTidies(cfg, share, u, error);
    } else if r.info.dataLength == 0 && !r.confirm {
      UploadDoneTidies(cfg, share, u, r);
    }
  }

  lemma OpenTempTidies(cfg: Config, share: Share, u: State, r: Request)
    requires Distinct(cfg) && u.conn.request == Some(r) && r.ticket.Some? && Tidy(cfg, share, u)
    ensures Tidy(cfg, share, OpenTemp(cfg, u, r))
  {
    forall n: nat | Mine(share, n) && cfg.names.temp(n) in OpenTemp(cfg, u, r).world.disk.files
      ensures r.ticket == Some(n)
    {
      assert AtOrBelow(cfg.names.temp(n), cfg.names.temp(r.ticket.value)) ==> n == r.ticket.value;
    }
  }

  lemma PreprocessedTidies(cfg: Config, share: Share, v: State, r: Request, list: seq<Pair>, w: State, r1: Request,
                           error: int, x: State)
    requires Tidy(cfg, share, v) && Named(cfg, v.conn, v.world) && v.conn.request == Some(r)
    requires (w, r1, error) == Preprocess(cfg, v, r, list)
    requires x.world == w.world && x.conn == w.conn.(request := Some(r1), acts := x.conn.acts)
    ensures Tidy(cfg, share, x) && Named(cfg, x.conn, x.world) && r1.ticket == r.ticket
  {
    PreprocessFrame(cfg, v, r, list);
  }

  lemma AfterSetupTidies(cfg: Config, share: Share, u: State, r: Request, list: seq<Pair>, error: int)
    requires Distinct(cfg) && Named(cfg, u.conn, u.world) && u.conn.request == Some(r)
    requires Tidy(cfg, share, u) && (error == SUCCESS ==> r.ticket.Some?)
    ensures Tidy(cfg, share, AfterSetup(cfg, u, r, list, error).0)
  {
    if error != SUCCESS {
      FailTidies(cfg, share, u, error);
    } else {
      var v := OpenTemp(cfg, u, r);
      OpenTempTidies(cfg, share, u, r);
      OpenTempFrame(cfg, u, r);
      var (w, r1, error1) := Preprocess(cfg, v, r, list);
      var act := Prepared(r1.action, error1 == SUCCESS);
      var x := w.(conn := w.conn.(request := Some(r1), acts := w.conn.acts + [act]));
      PreprocessedTidies(cfg, share, v, r, list, w, r1, error1, x);
      AfterPreprocessTidies(cfg, share, x, r1, error1);
    }
  }

  /** A request gets its ticket where no temporary file of the share is there. */
  lemma SetupTidies(cfg: Config, share: Share, u: State, r: Request, list: seq<Pair>)
    requires Tidy(cfg, share, u) && Ticket(u.conn) == None && u.conn.request == Some(r)
    ensures var (v, r1, _) := SetupEnvironment(cfg, u, r, list);
            Tidy(cfg, share, v.(conn := v.conn.(request := Some(r1))))
  {
  }

  lemma AfterAuthTidies(cfg: Config, share: Share, u: State, r: Request, list: seq<Pair>, error: int)
    requires Distinct(cfg) && Named(cfg, u.conn, u.world) && u.conn.request == Some(r)
    requires r.ticket.None? && r.dest == "" && Tidy(cfg, share, u)
    requires error == SUCCESS && WritesFile(r.action) ==> NamesReal(cfg, list)
    ensures Tidy(cfg, share, AfterAuth(cfg, u, r, list, error).0)
  {
    if error != SUCCESS {
      FailTidies(cfg, share, u, error);
    } else {
      var (v, r1, error1) := SetupEnvironment(cfg, u, r, list);
      SetupTidies(cfg, share, u, r, list);
      SetupKeeps(cfg, u, r, list);
      SetupFrame(cfg, u, r, list);
      AfterSetupTidies(cfg, share, v.(conn := v.conn.(request := Some(r1))), r1, list, error1);
    }
  }

  lemma HeadersTidy(cfg: Config, share: Share, u: State, r: Request, list: seq<Pair>, v: State, error: int)
    requires Distinct(cfg) && Named(cfg, u.conn, u.world) && u.conn.request == Some(r)
    requires r.ticket.None? && r.dest == "" && Tidy(cfg, share, u) && (v, error) == AuthTransaction(cfg, u, list)
    requires HasAll(cfg, list, Required(r.action, cfg.strayRow)) && error == SUCCESS && WritesFile(r.action) ==>
               NamesReal(cfg, list)
    ensures Tidy(cfg, share, if HasAll(cfg, list, Required(r.action, cfg.strayRow))
                             then AfterAuth(cfg, v, r, list, error).0 else Fail(cfg, u, MISSING_ATTRIBS).0)
  {
    if HasAll(cfg, list, Required(r.action, cfg.strayRow)) {
      AskingTidies(cfg, share, u, list, v);
      AfterAuthTidies(cfg, share, v, r, list, error);
    } else {
      FailTidies(cfg, share, u, MISSING_ATTRIBS);
    }
  }

  lemma AskingTidies(cfg: Config, share: Share, u: State, list: seq<Pair>, v: State)
    requires Named(cfg, u.conn, u.world) && Tidy(cfg, share, u) && v == AuthTransaction(cfg, u, list).0
    ensures Named(cfg, v.conn, v.world) && Tidy(cfg, share, v) && v.conn.request == u.conn.request
  {
  }

  lemma HeadersDoneTidies(cfg: Config, share: Share, s: State)
    requires Distinct(cfg) && s.conn.request.Some? && Named(cfg, s.conn, s.world) && Tidy(cfg, share, s)
    requires s.conn.request.value == NewRequest(s.conn.request.value.info)
    requires s.conn.phase.HeadersRead? && s.conn.index == s.conn.length && Proper(cfg, s)
    ensures Tidy(cfg, share, HeadersDone(cfg, s).0)
  {
    var list := cfg.parse(s.conn.got);
    var r := s.conn.request.value.(action := ReadAction(cfg.reading, list));
    var u := s.(conn := s.conn.(request := Some(r)));
    NamedBefore(cfg, s.conn, s.world, r);
    HeadersTidy(cfg, share, u, r, list, AuthTransaction(cfg, u, list).0, AuthTransaction(cfg, u, list).1);
  }

  lemma CallbackTidies(cfg: Config, share: Share, s: State)
    requires Distinct(cfg) && Sound(s.conn) && s.conn.open && s.conn.index == s.conn.length
    requires Named(cfg, s.conn, s.world) && Proper(cfg, s) && Tidy(cfg, share, s)
    ensures Tidy(cfg, share, Callback(cfg, s).0)
  {
    match s.conn.phase {
      case MagicRead =>
      case HeadersRead => HeadersDoneTidies(cfg, share, s);
      case ConfirmUpload => UploadDoneTidies(cfg, share, s, s.conn.request.value);
      case Upload => UploadDoneTidies(cfg, share, s, s.conn.request.value);
    }
  }

  lemma CloseTidies(cfg: Config, share: Share, s: State)
    requires Tidy(cfg, share, s)
    ensures Tidy(cfg, share, Close(cfg, s)) && Ticket(Close(cfg, s).conn) == None
  {
    ResetTidies(cfg, share, s);
  }

  lemma DispatchTidies(cfg: Config, share: Share, s: State)
    requires Distinct(cfg) && Sound(s.conn) && s.conn.open && s.conn.index == s.conn.length
    requires Named(cfg, s.conn, s.world) && Proper(cfg, s) && Tidy(cfg, share, s)
    ensures Tidy(cfg, share, Dispatch(cfg, s))
  {
    CallbackTidies(cfg, share, s);
    CloseTidies(cfg, share, Callback(cfg, s).0);
  }

  lemma ReadTidies(cfg: Config, share: Share, s: State, n: nat, u: State)
    requires Distinct(cfg) && Tidy(cfg, share, s) && s.conn.consumed + n <= |s.conn.input| && u == ReadSome(cfg, s, n)
    ensures Tidy(cfg, share, u)
  {
    forall m: nat | Mine(share, m) && cfg.names.temp(m) in u.world.disk.files
      ensures Ticket(u.conn) == Some(m)
    {
      if Ticket(s.conn).Some? {
        assert AtOrBelow(cfg.names.temp(m), cfg.names.temp(Ticket(s.conn).value)) ==> m == Ticket(s.conn).value;
      }
    }
  }

  lemma EventTidies(cfg: Config, share: Share, s: State, cuts: seq<nat>)
    requires Distinct(cfg) && Sound(s.conn) && s.conn.open && !Exits(s.conn) && Owns(cfg, s.conn, s.world)
    requires Proper(cfg, AfterReads(cfg, s, cuts)) && Tidy(cfg, share, s)
    ensures Tidy(cfg, share, Event(cfg, s, cuts))
  {
    var n, u := TakenNow(s.conn, cuts), AfterReads(cfg, s, cuts);
    ReadTidies(cfg, share, s, n, u);
    ReadSomeIsSound(cfg, s, n);
    ReadSomeOwns(cfg, s, n);
    if u.conn.index == u.conn.length {
      DispatchTidies(cfg, share, u);
    }
  }

  // ----- the server --------------------------------------------------------------------------

  /** A connection works on the request with some ticket. */
  predicate Working(srv: Hub, n: nat)
  {
    exists fd :: fd in srv.conns && Ticket(srv.conns[fd]) == Some(n)
  }

  /** Every temporary file belongs to a request at hand. */
  ghost predicate NoLeftovers(cfg: Config, srv: Hub)
  {
    forall n: nat :: cfg.names.temp(n) in srv.world.disk.files ==> Working(srv, n)
  }

  /** To start with, the temporary files of a share are those of its own request. */
  lemma StartsTidy(cfg: Config, srv: Hub, fd: int)
    requires ServerInv(cfg, srv) && NoLeftovers(cfg, srv) && fd in srv.conns
    ensures Tidy(cfg, ShareOf(srv, fd), State(srv.conns[fd], srv.world))
  {
    forall n: nat | Mine(ShareOf(srv, fd), n) && cfg.names.temp(n) in srv.world.disk.files
      ensures Ticket(srv.conns[fd]) == Some(n)
    {
      var other :| other in srv.conns && Ticket(srv.conns[other]) == Some(n);
      assert Owns(cfg, srv.conns[other], srv.world);
    }
  }

  lemma PutBackLeavesNone(cfg: Config, srv: Hub, fd: int, t: State, next: Hub)
    requires ServerInv(cfg, srv) && NoLeftovers(cfg, srv) && fd in srv.conns && next == PutBack(srv, fd, t)
    requires Frame(cfg, State(srv.conns[fd], srv.world), t) && Tidy(cfg, ShareOf(srv, fd), t)
    requires !t.conn.open ==> Ticket(t.conn) == None
    ensures NoLeftovers(cfg, next)
  {
    forall n: nat | cfg.names.temp(n) in next.world.disk.files
      ensures Working(next, n)
    {
      if Mine(ShareOf(srv, fd), n) {
        assert fd in next.conns && Ticket(next.conns[fd]) == Some(n);
      } else {
        assert SameAt(srv.world.disk.files, t.world.disk.files, cfg.names.temp(n));
        var other :| other in srv.conns && Ticket(srv.conns[other]) == Some(n);
        assert other in next.conns && Ticket(next.conns[other]) == Some(n);
      }
    }
  }

  /** What is closed has no request. */
  lemma ClosedHasNoTicket(cfg: Config, s: State, cuts: seq<nat>)
    requires Sound(s.conn) && s.conn.open && !Exits(s.conn)
    ensures !Event(cfg, s, cuts).conn.open ==> Ticket(Event(cfg, s, cuts).conn) == None
  {
    var n, u := TakenNow(s.conn, cuts), AfterReads(cfg, s, cuts);
    ReadSomeIsSound(cfg, s, n);
    if u.conn.index == u.conn.length {
      OneRecordPerPacket(cfg, u);
      ClosedDispatch(cfg, u);
    }
  }

  lemma ClosedDispatch(cfg: Config, u: State)
    requires Sound(u.conn) && u.conn.open && u.conn.index == u.conn.length
    requires u.conn.request.Some? ==> GoesOnOrEnds(u.conn, Dispatch(cfg, u).conn)
    ensures !Dispatch(cfg, u).conn.open ==> Dispatch(cfg, u).conn.request.None?
  {
  }

  lemma StepLeavesNone(cfg: Config, srv: Hub, e: ServerEvent)
    requires Distinct(cfg) && ServerInv(cfg, srv) && NoLeftovers(cfg, srv) && TameStep(cfg, srv, e)
    ensures ServerStep(cfg, srv, e).Up? ==> NoLeftovers(cfg, ServerStep(cfg, srv, e).hub)
  {
    if e.Accept? {
      if e.fd !in srv.conns {
        AcceptLeavesNone(cfg, srv, e.fd, NewConn(e.input));
      }
    } else if e.fd in srv.conns && !Fatal(cfg, srv, e) {
      var s, t := State(srv.conns[e.fd], srv.world), Afterwards(cfg, srv, e);
      StartsTidy(cfg, srv, e.fd);
      AfterwardsFrame(cfg, srv, e);
      if e.Readable? {
        EventTidies(cfg, ShareOf(srv, e.fd), s, e.cuts);
        ClosedHasNoTicket(cfg, s, e.cuts);
      } else {
        CloseTidies(cfg, ShareOf(srv, e.fd), s);
      }
      PutBackLeavesNone(cfg, srv, e.fd, t, PutBack(srv, e.fd, t));
    }
  }

  lemma AcceptLeavesNone(cfg: Config, srv: Hub, fd: int, c: Conn)
    requires NoLeftovers(cfg, srv) && fd !in srv.conns
    ensures NoLeftovers(cfg, srv.(conns := srv.conns[fd := c]))
  {
    forall n: nat | cfg.names.temp(n) in srv.world.disk.files
      ensures Working(srv.(conns := srv.conns[fd := c]), n)
    {
      var other :| other in srv.conns && Ticket(srv.conns[other]) == Some(n);
      assert other in srv.conns[fd := c] && srv.conns[fd := c][other] == srv.conns[other];
    }
  }

  /** Over every tame run, up to the end of the process, no temporary file outlives its packet. */
  lemma {:induction false} RunLeavesNone(cfg: Config, srv: Hub, events: seq<ServerEvent>)
    requires Distinct(cfg) && ServerInv(cfg, srv) && NoLeftovers(cfg, srv) && TameRun(cfg, srv, events)
    ensures RunServer(cfg, srv, events).Up? ==> NoLeftovers(cfg, RunServer(cfg, srv, events).hub)
    decreases events
  {
    if events != [] {
      StepLeavesNone(cfg, srv, events[0]);
      StepKeepsInv(cfg, srv, events[0]);
      if ServerStep(cfg, srv, events[0]).Up? {
        RunLeavesNone(cfg, ServerStep(cfg, srv, events[0]).hub, events[1..]);
      }
    }
  }
}

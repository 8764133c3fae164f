/** What is stored changes only in packets whose credentials were granted, and of the files only the
    one that such a packet names and the temporary file of its own. No condition on the clients and
    what they name is needed for that. */
module Permissions {
  import opened Exchanges
  import opened FileStore
  import opened Headers
  import opened PathAlgebra
  import opened Protocol
  import opened Responses
  import opened Servers

  /** The credentials of a packet were looked up and found among the users. */
  predicate LoggedIn(cfg: Config, acts: seq<Act>)
  {
    Asked(true) in acts && cfg.users != {}
  }

  /** A request that is past its login has made the one it needs. */
  predicate Entitled(cfg: Config, c: Conn)
  {
    c.request.Some? && NeedsLogin(c.request.value.action) ==> LoggedIn(cfg, c.acts)
  }

  /** A request that waits is entitled, and was accepted. */
  predicate Licensed(cfg: Config, c: Conn)
  {
    c.phase.ConfirmUpload? || c.phase.Upload? ==> Entitled(cfg, c) && Accepted(c.acts)
  }

  // ----- what stays the same -----------------------------------------------------------------

  /** The metadata and every file that is not a temporary one are the same. */
  ghost predicate SameStored(cfg: Config, a: Disk, b: Disk)
  {
    a.rows == b.rows && forall path :: IsReal(cfg, path) ==> SameAt(a.files, b.files, path)
  }

  lemma StoredTwice(cfg: Config, a: Disk, b: Disk, c: Disk)
    requires SameStored(cfg, a, b) && SameStored(cfg, b, c)
    ensures SameStored(cfg, a, c)
  {
  }

  /** The tickets of a connection from some moment on: the one it has, and those to be drawn. */
  datatype Share = Share(own: Option<nat>, since: nat)

  predicate Mine(share: Share, n: nat)
  {
    share.own == Some(n) || n > share.since
  }

  /** A path lies at or below no temporary name of a share. */
  ghost predicate Foreign(cfg: Config, share: Share, path: string)
  {
    forall n: nat :: Mine(share, n) ==> !AtOrBelow(path, cfg.names.temp(n))
  }

  ghost predicate SameFiles(cfg: Config, share: Share, a: Disk, b: Disk)
  {
    forall path :: Foreign(cfg, share, path) ==> SameAt(a.files, b.files, path)
  }

  ghost predicate SameForeign(cfg: Config, share: Share, a: Disk, b: Disk)
  {
    a.rows == b.rows && SameFiles(cfg, share, a, b)
  }

  lemma ForeignIsStored(cfg: Config, share: Share, a: Disk, b: Disk)
    requires SameForeign(cfg, share, a, b)
    ensures SameStored(cfg, a, b)
  {
    forall path | IsReal(cfg, path)
      ensures SameAt(a.files, b.files, path)
    {
      assert Foreign(cfg, share, path);
    }
  }

  /** Tickets are drawn in order, and the one of a connection is of its share. */
  predicate Drawn(share: Share, s: State)
  {
    && share.since <= s.world.counter
    && (Ticket(s.conn).Some? ==> Mine(share, Ticket(s.conn).value) && Ticket(s.conn).value <= s.world.counter)
  }

  /** Of the foreign files, at most the one that an accepted request to write names has changed, or,
      where it names a folder, what lies in it. */
  ghost predicate OnlyNamed(cfg: Config, share: Share, a: Disk, b: Disk, r: Request, acts: seq<Act>)
  {
    forall path :: Foreign(cfg, share, path) && !SameAt(a.files, b.files, path) ==>
      Accepted(acts) && WritesFile(r.action) && AtOrBelow(path, r.dest)
  }

  /** Since the records were `done`, a packet whose credentials were granted has gone on record. */
  predicate LoginRecorded(cfg: Config, done: seq<Exchange>, c: Conn)
  {
    |c.done| == |done| + 1 && LoggedIn(cfg, c.done[|done|].acts)
  }

  /** Since the disk was `d` and the records were `done`, nothing foreign has changed, or there is
      such a record, and only files that it names have. */
  ghost predicate Lawful(cfg: Config, share: Share, d: Disk, done: seq<Exchange>, t: State)
  {
    && Drawn(share, t)
    && (|| SameForeign(cfg, share, d, t.world.disk)
        || (LoginRecorded(cfg, done, t.conn)
            && OnlyNamed(cfg, share, d, t.world.disk, t.conn.done[|done|].request, t.conn.done[|done|].acts)))
  }

  /** The same in the middle of a packet. */
  ghost predicate LawfulSoFar(cfg: Config, share: Share, d: Disk, s: State)
  {
    && s.conn.request.Some? && Drawn(share, s)
    && (|| SameForeign(cfg, share, d, s.world.disk)
        || (LoggedIn(cfg, s.conn.acts)
            && OnlyNamed(cfg, share, d, s.world.disk, s.conn.request.value, s.conn.acts)))
  }

  // ----- the end of a packet -----------------------------------------------------------------

  lemma ResetKeepsStored(cfg: Config, d: Disk, s: State)
    requires SameStored(cfg, d, s.world.disk)
    ensures SameStored(cfg, d, ResetNewPacket(cfg, s).world.disk)
  {
    if s.conn.request.Some? && s.conn.request.value.ticket.Some? {
      var temp := cfg.names.temp(s.conn.request.value.ticket.value);
      assert AtOrBelow(temp, temp);
    }
  }

  lemma ResetKeepsForeign(cfg: Config, share: Share, s: State, path: string)
    requires Drawn(share, s) && Foreign(cfg, share, path)
    ensures SameAt(s.world.disk.files, ResetNewPacket(cfg, s).world.disk.files, path)
  {
    if s.conn.request.Some? && s.conn.request.value.ticket.Some? {
      assert AtOrBelow(path, path);
      assert Mine(share, s.conn.request.value.ticket.value);
    }
  }

  lemma ResetKeepsFiles(cfg: Config, share: Share, s: State)
    requires Drawn(share, s)
    ensures SameForeign(cfg, share, s.world.disk, ResetNewPacket(cfg, s).world.disk)
    ensures Drawn(share, ResetNewPacket(cfg, s))
  {
    forall path | Foreign(cfg, share, path)
      ensures SameAt(s.world.disk.files, ResetNewPacket(cfg, s).world.disk.files, path)
    {
      ResetKeepsForeign(cfg, share, s, path);
    }
  }

  lemma OnlyNamedOn(cfg: Config, share: Share, a: Disk, b: Disk, c: Disk, r: Request, acts: seq<Act>)
    requires OnlyNamed(cfg, share, a, b, r, acts) && SameFiles(cfg, share, b, c)
    ensures OnlyNamed(cfg, share, a, c, r, acts)
  {
  }

  lemma ForeignTwice(cfg: Config, share: Share, a: Disk, b: Disk, c: Disk)
    requires SameForeign(cfg, share, a, b) && SameForeign(cfg, share, b, c)
    ensures SameForeign(cfg, share, a, c)
  {
  }

  lemma FinishIsLawful(cfg: Config, share: Share, d: Disk, s: State)
    requires LawfulSoFar(cfg, share, d, s)
    ensures Lawful(cfg, share, d, s.conn.done, Finish(cfg, s)) && Licensed(cfg, Finish(cfg, s).conn)
  {
    var e := Exchange(s.conn.request.value, s.conn.read, s.conn.acts, s.conn.fileOpen);
    var s1 := s.(conn := s.conn.(done := s.conn.done + [e]));
    var t := ResetNewPacket(cfg, s1);
    ResetKeepsFiles(cfg, share, s1);
    if SameForeign(cfg, share, d, s.world.disk) {
      ForeignTwice(cfg, share, d, s.world.disk, t.world.disk);
    } else {
      OnlyNamedOn(cfg, share, d, s.world.disk, t.world.disk, e.request, e.acts);
    }
  }

  lemma SayIsLawful(cfg: Config, share: Share, d: Disk, s: State, code: int, source: Source)
    requires LawfulSoFar(cfg, share, d, s)
    ensures LawfulSoFar(cfg, share, d, Say(cfg, s, code, source))
  {
    Snoc(s.conn.acts, Said(code));
  }

  lemma FailIsLawful(cfg: Config, share: Share, d: Disk, s: State, code: int)
    requires LawfulSoFar(cfg, share, d, s)
    ensures Lawful(cfg, share, d, s.conn.done, Fail(cfg, s, code).0) && Licensed(cfg, Fail(cfg, s, code).0.conn)
  {
    SayIsLawful(cfg, share, d, s, code, MessageSource(code));
    FinishIsLawful(cfg, share, d, Say(cfg, s, code, MessageSource(code)));
  }

  lemma AfterPostprocessIsLawful(cfg: Config, share: Share, d: Disk, s: State, error: int)
    requires LawfulSoFar(cfg, share, d, s)
    ensures var t := AfterPostprocess(cfg, s, error).0;
            Lawful(cfg, share, d, s.conn.done, t) && Licensed(cfg, t.conn)
  {
    if error != SUCCESS {
      FailIsLawful(cfg, share, d, s, error);
    } else if s.conn.code != DATA_READY {
      SayIsLawful(cfg, share, d, s, PACKET_OK, MessageSource(PACKET_OK));
      FinishIsLawful(cfg, share, d, Say(cfg, s, PACKET_OK, MessageSource(PACKET_OK)));
    } else {
      FinishIsLawful(cfg, share, d, s);
    }
  }

  /** What the work of a request touches is its own temporary file, or below it, or named by it. */
  lemma WorkIsNamed(cfg: Config, share: Share, d: Disk, s: State, r: Request, t: State)
    requires SameForeign(cfg, share, d, s.world.disk) && Drawn(share, s) && s.conn.request == Some(r)
    requires r.ticket.Some? && Accepted(s.conn.acts) && t == ActionPostprocess(cfg, SendData(cfg, s)).0
    ensures OnlyNamed(cfg, share, d, t.world.disk, r, s.conn.acts)
  {
    var temp := cfg.names.temp(r.ticket.value);
    forall path | Foreign(cfg, share, path) && !SameAt(d.files, t.world.disk.files, path)
      ensures WritesFile(r.action) && AtOrBelow(path, r.dest)
    {
      WorkReaches(cfg, s, r, temp, t, path);
      assert !AtOrBelow(path, temp);
    }
  }

  /** The actions that write at the end of a packet all need a login. */
  lemma ActionIsLawful(cfg: Config, share: Share, d: Disk, s: State)
    requires LawfulSoFar(cfg, share, d, s) && Entitled(cfg, s.conn) && Accepted(s.conn.acts)
    requires s.conn.request.value.ticket.Some?
    requires WritesFile(s.conn.request.value.action) ==> SameForeign(cfg, share, d, s.world.disk)
    ensures var t := ActionPostprocess(cfg, SendData(cfg, s)).0;
            LawfulSoFar(cfg, share, d, t) && t.conn.done == s.conn.done
  {
    var r, t := s.conn.request.value, ActionPostprocess(cfg, SendData(cfg, s)).0;
    if WritesFile(r.action) {
      WorkIsNamed(cfg, share, d, s, r, t);
    } else {
      OtherWork(cfg, s);
      OtherWorkIsLawful(cfg, share, d, s, t);
    }
  }

  /** The other actions say at most one thing, and leave the world as it is. */
  lemma OtherWork(cfg: Config, s: State)
    requires s.conn.request.Some? && !WritesFile(s.conn.request.value.action)
    ensures var t := ActionPostprocess(cfg, SendData(cfg, s)).0;
            && t.world == s.world && t.conn.done == s.conn.done && t.conn.request == s.conn.request
            && (t.conn.acts == s.conn.acts || t.conn.acts == s.conn.acts + [Said(DATA_READY)])
  {
  }

  lemma OtherWorkIsLawful(cfg: Config, share: Share, d: Disk, s: State, t: State)
    requires LawfulSoFar(cfg, share, d, s) && t.world == s.world && t.conn.request == s.conn.request
    requires t.conn.acts == s.conn.acts || t.conn.acts == s.conn.acts + [Said(DATA_READY)]
    ensures LawfulSoFar(cfg, share, d, t)
  {
    Snoc(s.conn.acts, Said(DATA_READY));
  }

  /** An accepted request that is entitled, and has written nothing yet; a delete has done its work. */
  ghost predicate Allowed(cfg: Config, share: Share, d: Disk, s: State)
  {
    && LawfulSoFar(cfg, share, d, s) && Entitled(cfg, s.conn) && Accepted(s.conn.acts)
    && s.conn.request.value.ticket.Some?
    && (!s.conn.request.value.action.Delete? ==> SameForeign(cfg, share, d, s.world.disk))
  }

  lemma UploadDoneIsLawful(cfg: Config, share: Share, d: Disk, s: State)
    requires Allowed(cfg, share, d, s)
    ensures var t := UploadDone(cfg, s).0;
            Lawful(cfg, share, d, s.conn.done, t) && Licensed(cfg, t.conn)
  {
    if s.conn.request.value.confirm && s.conn.got != ACCEPT {
      FailIsLawful(cfg, share, d, s, NETWORK_ERROR_WRITE);
    } else {
      ActionIsLawful(cfg, share, d, s);
      var (s1, error) := ActionPostprocess(cfg, SendData(cfg, s));
      AfterPostprocessIsLawful(cfg, share, d, s1, error);
    }
  }

  lemma AwaitIsLawful(cfg: Config, share: Share, d: Disk, s: State, code: int, phase: Phase, length: nat)
    requires Allowed(cfg, share, d, s) && SameForeign(cfg, share, d, s.world.disk)
    ensures var t := Await(Say(cfg, s, code, MessageSource(code)), phase, length);
            Lawful(cfg, share, d, s.conn.done, t) && Licensed(cfg, t.conn)
  {
    Snoc(s.conn.acts, Said(code));
  }

  lemma ConfirmDoneIsLawful(cfg: Config, share: Share, d: Disk, s: State)
    requires Allowed(cfg, share, d, s)
    requires s.conn.request.value.confirm ==> SameForeign(cfg, share, d, s.world.disk)
    ensures var t := ConfirmDone(cfg, s).0;
            Lawful(cfg, share, d, s.conn.done, t) && Licensed(cfg, t.conn)
  {
    if s.conn.request.value.confirm {
      AwaitIsLawful(cfg, share, d, s, DATA_MORE, Phase.Upload, ACCEPT_LENGTH);
    } else {
      UploadDoneIsLawful(cfg, share, d, s);
    }
  }

  // ----- the headers -------------------------------------------------------------------------

  lemma AfterPreprocessIsLawful(cfg: Config, share: Share, d: Disk, s: State, error: int)
    requires if error == SUCCESS then Allowed(cfg, share, d, s) else LawfulSoFar(cfg, share, d, s)
    requires error == SUCCESS && !SameForeign(cfg, share, d, s.world.disk) ==>
               s.conn.request.value.info.dataLength == 0 && !s.conn.request.value.confirm
    ensures var t := AfterPreprocess(cfg, s, error).0;
            Lawful(cfg, share, d, s.conn.done, t) && Licensed(cfg, t.conn)
  {
    if error != SUCCESS {
      FailIsLawful(cfg, share, d, s, error);
    } else if s.conn.request.value.info.dataLength > 0 {
      AwaitIsLawful(cfg, share, d, s, DATA_SEND, ConfirmUpload, s.conn.request.value.info.dataLength);
    } else {
      ConfirmDoneIsLawful(cfg, share, d, s);
    }
  }

  /** Only a delete changes anything while it is prepared: rows, and it has no body. */
  lemma PreprocessIsLawful(cfg: Config, s: State, r: Request, list: seq<Pair>, t: State, r1: Request, error: int)
    requires (t, r1, error) == Preprocess(cfg, s, r, list) && !r.confirm
    ensures t.conn == s.conn && r1.action == r.action && r1.info == r.info && r1.ticket == r.ticket
    ensures t.world.counter == s.world.counter && t.world.disk.files == s.world.disk.files
    ensures t.world == s.world || (error == SUCCESS && r.action.Delete? && r.info.dataLength == 0 && !r1.confirm)
  {
  }

  lemma OpenTempIsLawful(cfg: Config, s: State, r: Request)
    ensures SameStored(cfg, s.world.disk, OpenTemp(cfg, s, r).world.disk)
    ensures OpenTemp(cfg, s, r).conn == s.conn.(fileOpen := OpenTemp(cfg, s, r).conn.fileOpen)
  {
    if r.ticket.Some? {
      assert AtOrBelow(cfg.names.temp(r.ticket.value), cfg.names.temp(r.ticket.value));
    }
  }

  lemma OpenTempKeepsForeign(cfg: Config, share: Share, s: State, r: Request)
    requires r.ticket.Some? && Mine(share, r.ticket.value)
    ensures SameForeign(cfg, share, s.world.disk, OpenTemp(cfg, s, r).world.disk)
    ensures OpenTemp(cfg, s, r).world == s.world.(disk := OpenTemp(cfg, s, r).world.disk)
    ensures OpenTemp(cfg, s, r).conn == s.conn.(fileOpen := OpenTemp(cfg, s, r).conn.fileOpen)
  {
    assert AtOrBelow(cfg.names.temp(r.ticket.value), cfg.names.temp(r.ticket.value));
  }

  lemma AfterSetupIsLawful(cfg: Config, share: Share, s: State, r: Request, list: seq<Pair>, error: int)
    requires s.conn.request == Some(r) && !r.confirm && Drawn(share, s)
    requires error == SUCCESS ==> Entitled(cfg, s.conn) && r.ticket.Some?
    ensures var t := AfterSetup(cfg, s, r, list, error).0;
            Lawful(cfg, share, s.world.disk, s.conn.done, t) && Licensed(cfg, t.conn)
  {
    if error != SUCCESS {
      FailIsLawful(cfg, share, s.world.disk, s, error);
    } else {
      var s1 := OpenTemp(cfg, s, r);
      OpenTempKeepsForeign(cfg, share, s, r);
      var (s2, r2, error2) := Preprocess(cfg, s1, r, list);
      PreprocessIsLawful(cfg, s1, r, list, s2, r2, error2);
      PreparedIsLawful(cfg, share, s, s1, s2, r, r2, error2);
    }
  }

  lemma PreparedIsLawful(cfg: Config, share: Share, s: State, s1: State, s2: State, r: Request, r2: Request, error: int)
    requires s.conn.request == Some(r) && Entitled(cfg, s.conn) && Drawn(share, s) && r.ticket.Some?
    requires SameForeign(cfg, share, s.world.disk, s1.world.disk) && s1.world == s.world.(disk := s1.world.disk)
    requires s1.conn == s.conn.(fileOpen := s1.conn.fileOpen)
    requires s2.conn == s1.conn && r2.action == r.action && r2.info == r.info && r2.ticket == r.ticket
    requires s2.world.counter == s1.world.counter && s2.world.disk.files == s1.world.disk.files
    requires s2.world == s1.world || (error == SUCCESS && r.action.Delete? && r.info.dataLength == 0 && !r2.confirm)
    ensures var act := Prepared(r2.action, error == SUCCESS);
            var s3 := s2.(conn := s2.conn.(request := Some(r2), acts := s2.conn.acts + [act]));
            var t := AfterPreprocess(cfg, s3, error).0;
            Lawful(cfg, share, s.world.disk, s.conn.done, t) && Licensed(cfg, t.conn)
  {
    var act := Prepared(r2.action, error == SUCCESS);
    Snoc(s.conn.acts, act);
    var s3 := s2.(conn := s2.conn.(request := Some(r2), acts := s2.conn.acts + [act]));
    assert LoggedIn(cfg, s.conn.acts) ==> LoggedIn(cfg, s3.conn.acts);
    AfterPreprocessIsLawful(cfg, share, s.world.disk, s3, error);
  }

  lemma AfterAuthIsLawful(cfg: Config, share: Share, s: State, r: Request, list: seq<Pair>, error: int)
    requires s.conn.request == Some(r) && !r.confirm && Drawn(share, s) && (error == SUCCESS ==> Entitled(cfg, s.conn))
    ensures var t := AfterAuth(cfg, s, r, list, error).0;
            Lawful(cfg, share, s.world.disk, s.conn.done, t) && Licensed(cfg, t.conn)
  {
    if error != SUCCESS {
      FailIsLawful(cfg, share, s.world.disk, s, error);
    } else {
      SetupKeeps(cfg, s, r, list);
      var (s1, r1, error1) := SetupEnvironment(cfg, s, r, list);
      SetupGives(cfg, s, r, list, s1, r1);
      AfterSetupIsLawful(cfg, share, s1.(conn := s1.conn.(request := Some(r1))), r1, list, error1);
    }
  }

  /** An action that needs a login gets past it only with one. */
  lemma AuthEntitles(cfg: Config, s: State, r: Request, list: seq<Pair>)
    requires s.conn.request == Some(r) && HasAll(cfg, list, Required(r.action, cfg.strayRow))
    ensures var (t, error) := AuthTransaction(cfg, s, list);
            && t.world == s.world && t.conn == s.conn.(acts := t.conn.acts)
            && (error == SUCCESS ==> Entitled(cfg, t.conn))
  {
    if NeedsLogin(r.action) {
      RequiredDemandsLogin(cfg, list, r.action);
      var (t, error) := AuthTransaction(cfg, s, list);
      if error == SUCCESS {
        assert t.conn.acts[|s.conn.acts|] == Asked(true);
      }
    }
  }

  lemma HeadersAreLawful(cfg: Config, share: Share, s: State, r: Request, list: seq<Pair>)
    requires s.conn.request == Some(r) && !r.confirm && Drawn(share, s)
    ensures !HasAll(cfg, list, Required(r.action, cfg.strayRow)) ==>
              var t := Fail(cfg, s, MISSING_ATTRIBS).0;
              Lawful(cfg, share, s.world.disk, s.conn.done, t) && Licensed(cfg, t.conn)
    ensures HasAll(cfg, list, Required(r.action, cfg.strayRow)) ==>
              var (s1, error) := AuthTransaction(cfg, s, list);
              var t := AfterAuth(cfg, s1, r, list, error).0;
              Lawful(cfg, share, s.world.disk, s.conn.done, t) && Licensed(cfg, t.conn)
  {
    if HasAll(cfg, list, Required(r.action, cfg.strayRow)) {
      AuthEntitles(cfg, s, r, list);
      var (s1, error) := AuthTransaction(cfg, s, list);
      AfterAuthIsLawful(cfg, share, s1, r, list, error);
    } else {
      FailIsLawful(cfg, share, s.world.disk, s, MISSING_ATTRIBS);
    }
  }

  lemma HeadersDoneIsLawful(cfg: Config, share: Share, s: State)
    requires s.conn.request.Some? && s.conn.request.value == NewRequest(s.conn.request.value.info) && Drawn(share, s)
    ensures var t := HeadersDone(cfg, s).0;
            Lawful(cfg, share, s.world.disk, s.conn.done, t) && Licensed(cfg, t.conn)
  {
    var list := cfg.parse(s.conn.got);
    var r := s.conn.request.value.(action := ReadAction(cfg.reading, list));
    HeadersAreLawful(cfg, share, s.(conn := s.conn.(request := Some(r))), r, list);
  }

  // ----- events ------------------------------------------------------------------------------

  lemma CallbackIsLawful(cfg: Config, share: Share, s: State)
    requires Sound(s.conn) && Licensed(cfg, s.conn) && Drawn(share, s)
    ensures var t := Callback(cfg, s).0;
            Lawful(cfg, share, s.world.disk, s.conn.done, t) && Licensed(cfg, t.conn)
  {
    match s.conn.phase {
      case MagicRead =>
      case HeadersRead => HeadersDoneIsLawful(cfg, share, s);
      case ConfirmUpload => ConfirmDoneIsLawful(cfg, share, s.world.disk, s);
      case Upload => UploadDoneIsLawful(cfg, share, s.world.disk, s);
    }
  }

  lemma AfterCallbackIsLawful(cfg: Config, share: Share, d: Disk, done: seq<Exchange>, s: State, ok: bool)
    requires Lawful(cfg, share, d, done, s) && Licensed(cfg, s.conn)
    ensures Lawful(cfg, share, d, done, AfterCallback(cfg, s, ok)) && Licensed(cfg, AfterCallback(cfg, s, ok).conn)
  {
    if !ok {
      ResetKeepsFiles(cfg, share, s);
      LawfulOn(cfg, share, d, done, s, AfterCallback(cfg, s, ok));
    }
  }

  lemma LawfulOn(cfg: Config, share: Share, d: Disk, done: seq<Exchange>, s: State, t: State)
    requires Lawful(cfg, share, d, done, s) && t.conn.done == s.conn.done && Drawn(share, t)
    requires SameForeign(cfg, share, s.world.disk, t.world.disk)
    ensures Lawful(cfg, share, d, done, t)
  {
    if SameForeign(cfg, share, d, s.world.disk) {
      ForeignTwice(cfg, share, d, s.world.disk, t.world.disk);
    } else {
      var e := s.conn.done[|done|];
      OnlyNamedOn(cfg, share, d, s.world.disk, t.world.disk, e.request, e.acts);
    }
  }

  lemma DispatchIsLawful(cfg: Config, share: Share, s: State)
    requires Sound(s.conn) && Licensed(cfg, s.conn) && Drawn(share, s)
    ensures Lawful(cfg, share, s.world.disk, s.conn.done, Dispatch(cfg, s)) && Licensed(cfg, Dispatch(cfg, s).conn)
  {
    CallbackIsLawful(cfg, share, s);
    AfterCallbackIsLawful(cfg, share, s.world.disk, s.conn.done, Callback(cfg, s).0, Callback(cfg, s).1);
  }

  lemma ReadSomeIsLawful(cfg: Config, share: Share, s: State, n: nat, t: State)
    requires s.conn.consumed + n <= |s.conn.input| && Licensed(cfg, s.conn) && Drawn(share, s)
    requires t == ReadSome(cfg, s, n)
    ensures SameForeign(cfg, share, s.world.disk, t.world.disk) && Drawn(share, t)
    ensures t.conn.done == s.conn.done && Licensed(cfg, t.conn)
  {
    if Ticket(s.conn).Some? {
      var temp := cfg.names.temp(Ticket(s.conn).value);
      assert AtOrBelow(temp, temp);
    }
  }

  lemma LawfulFrom(cfg: Config, share: Share, d: Disk, e: Disk, done: seq<Exchange>, t: State)
    requires SameForeign(cfg, share, d, e) && Lawful(cfg, share, e, done, t)
    ensures Lawful(cfg, share, d, done, t)
  {
    if SameForeign(cfg, share, e, t.world.disk) {
      ForeignTwice(cfg, share, d, e, t.world.disk);
    }
  }

  lemma AfterReadIsLawful(cfg: Config, share: Share, s: State, t: State)
    requires Sound(s.conn) && Licensed(cfg, s.conn) && Drawn(share, s) && t == AfterRead(cfg, s)
    ensures Lawful(cfg, share, s.world.disk, s.conn.done, t) && Licensed(cfg, t.conn)
  {
    if s.conn.index == s.conn.length {
      DispatchIsLawful(cfg, share, s);
    }
  }

  lemma OpenEventIsLawful(cfg: Config, share: Share, s: State, n: nat, s1: State, t: State)
    requires Sound(s.conn) && s.conn.open && Licensed(cfg, s.conn) && Drawn(share, s)
    requires s.conn.consumed + n <= |s.conn.input| && s.conn.index + n <= s.conn.length
    requires s1 == ReadSome(cfg, s, n) && t == AfterRead(cfg, s1)
    ensures Lawful(cfg, share, s.world.disk, s.conn.done, t) && Licensed(cfg, t.conn)
  {
    ReadSomeIsLawful(cfg, share, s, n, s1);
    ReadSomeIsSound(cfg, s, n);
    AfterReadIsLawful(cfg, share, s1, t);
    LawfulFrom(cfg, share, s.world.disk, s1.world.disk, s.conn.done, t);
  }

  /** An event of a connection changes no metadata and none but its own temporary file, unless it puts
      a packet on record whose credentials were granted, and then of the files at most the one that
      this packet names. */
  lemma EventIsLawful(cfg: Config, share: Share, s: State, cuts: seq<nat>)
    requires Sound(s.conn) && !Exits(s.conn) && Licensed(cfg, s.conn) && Drawn(share, s)
    ensures Lawful(cfg, share, s.world.disk, s.conn.done, Event(cfg, s, cuts))
    ensures Licensed(cfg, Event(cfg, s, cuts).conn)
  {
    if s.conn.open {
      var n := TakenNow(s.conn, cuts);
      OpenEventIsLawful(cfg, share, s, n, AfterReads(cfg, s, cuts), Event(cfg, s, cuts));
    }
  }

  lemma HangUpIsLawful(cfg: Config, share: Share, s: State)
    requires Licensed(cfg, s.conn) && Drawn(share, s)
    ensures SameForeign(cfg, share, s.world.disk, HangUp(cfg, s).world.disk) && Drawn(share, HangUp(cfg, s))
    ensures Licensed(cfg, HangUp(cfg, s).conn)
  {
    if s.conn.open {
      ResetKeepsFiles(cfg, share, s);
    }
  }

  // ----- steps of the server -----------------------------------------------------------------

  /** Tickets at hand have been drawn, each by one connection. */
  ghost predicate Ticketed(srv: Hub)
  {
    && (forall fd ::
          fd in srv.conns && Ticket(srv.conns[fd]).Some? ==> Ticket(srv.conns[fd]).value <= srv.world.counter)
    && (forall fd, fd' ::
          fd in srv.conns && fd' in srv.conns && Ticket(srv.conns[fd]).Some?
          && Ticket(srv.conns[fd]) == Ticket(srv.conns[fd']) ==>
            fd == fd')
  }

  ghost predicate AllLicensed(cfg: Config, srv: Hub)
  {
    forall fd :: fd in srv.conns ==> Licensed(cfg, srv.conns[fd])
  }

  /** What holds of every run without any condition on the clients. */
  ghost predicate Orderly(cfg: Config, srv: Hub)
  {
    AllSound(srv) && AllLicensed(cfg, srv) && Ticketed(srv)
  }

  function ShareOf(srv: Hub, fd: int): Share
    requires fd in srv.conns
  {
    Share(Ticket(srv.conns[fd]), srv.world.counter)
  }

  lemma AfterwardsIsLawful(cfg: Config, srv: Hub, e: ServerEvent, share: Share, t: State)
    requires Orderly(cfg, srv) && e.fd in srv.conns && !Fatal(cfg, srv, e) && !e.Accept?
    requires share == ShareOf(srv, e.fd) && t == Afterwards(cfg, srv, e)
    ensures Lawful(cfg, share, srv.world.disk, srv.conns[e.fd].done, t) && Licensed(cfg, t.conn)
  {
    var s := State(srv.conns[e.fd], srv.world);
    if e.Readable? {
      EventIsLawful(cfg, share, s, e.cuts);
    } else {
      HangUpIsLawful(cfg, share, s);
    }
  }

  lemma PutBackStaysTicketed(cfg: Config, srv: Hub, fd: int, t: State)
    requires Ticketed(srv) && AllLicensed(cfg, srv) && fd in srv.conns
    requires Drawn(ShareOf(srv, fd), t) && Licensed(cfg, t.conn)
    ensures Ticketed(PutBack(srv, fd, t)) && AllLicensed(cfg, PutBack(srv, fd, t))
  {
  }

  lemma LastDiskIsLawful(cfg: Config, srv: Hub, e: ServerEvent)
    requires Orderly(cfg, srv) && Fatal(cfg, srv, e)
    ensures e.Readable? ==> SameForeign(cfg, ShareOf(srv, e.fd), srv.world.disk, LastDisk(cfg, srv, e))
    ensures !e.Readable? ==> LastDisk(cfg, srv, e) == srv.world.disk
  {
    if e.Readable? && !Exits(srv.conns[e.fd]) {
      var s := State(srv.conns[e.fd], srv.world);
      ReadSomeIsLawful(cfg, ShareOf(srv, e.fd), s, TakenNow(s.conn, e.cuts), AfterReads(cfg, s, e.cuts));
    }
  }

  /** Every step that the process survives keeps it. */
  lemma StepStaysOrderly(cfg: Config, srv: Hub, e: ServerEvent)
    requires Orderly(cfg, srv)
    ensures ServerStep(cfg, srv, e).Up? ==> Orderly(cfg, ServerStep(cfg, srv, e).hub)
  {
    StepKeepsSound(cfg, srv, e);
    if !Fatal(cfg, srv, e) && !e.Accept? && e.fd in srv.conns {
      AfterwardsIsLawful(cfg, srv, e, ShareOf(srv, e.fd), Afterwards(cfg, srv, e));
      PutBackStaysTicketed(cfg, srv, e.fd, Afterwards(cfg, srv, e));
    }
  }

  lemma LawfulStores(cfg: Config, share: Share, d: Disk, done: seq<Exchange>, t: State)
    requires Lawful(cfg, share, d, done, t)
    ensures SameStored(cfg, d, t.world.disk) || LoginRecorded(cfg, done, t.conn)
  {
    if SameForeign(cfg, share, d, t.world.disk) {
      ForeignIsStored(cfg, share, d, t.world.disk);
    }
  }

  lemma LastDiskStores(cfg: Config, srv: Hub, e: ServerEvent)
    requires Orderly(cfg, srv) && Fatal(cfg, srv, e)
    ensures SameStored(cfg, srv.world.disk, LastDisk(cfg, srv, e))
  {
    LastDiskIsLawful(cfg, srv, e);
    if e.Readable? {
      ForeignIsStored(cfg, ShareOf(srv, e.fd), srv.world.disk, LastDisk(cfg, srv, e));
    }
  }

  /** The packet that an event puts on record was logged in. */
  predicate LogsIn(cfg: Config, srv: Hub, e: ServerEvent)
  {
    && e.Readable? && e.fd in srv.conns && !Fatal(cfg, srv, e)
    && LoginRecorded(cfg, srv.conns[e.fd].done, Afterwards(cfg, srv, e).conn)
  }

  /** A step of the server that changes something stored is an event of a connection that puts a
      packet with granted credentials on record. */
  lemma StepIsLawful(cfg: Config, srv: Hub, e: ServerEvent)
    requires Orderly(cfg, srv)
    ensures SameStored(cfg, srv.world.disk, ServerStep(cfg, srv, e).DiskOf()) || LogsIn(cfg, srv, e)
  {
    if Fatal(cfg, srv, e) {
      LastDiskStores(cfg, srv, e);
    } else if e.fd in srv.conns && !e.Accept? {
      AfterwardsIsLawful(cfg, srv, e, ShareOf(srv, e.fd), Afterwards(cfg, srv, e));
      LawfulStores(cfg, ShareOf(srv, e.fd), srv.world.disk, srv.conns[e.fd].done, Afterwards(cfg, srv, e));
      if e.HungUp? {
        NoRecordOfHangUp(cfg, srv, e);
      }
    }
  }

  lemma NoRecordOfHangUp(cfg: Config, srv: Hub, e: ServerEvent)
    requires e.fd in srv.conns && e.HungUp?
    ensures Afterwards(cfg, srv, e).conn.done == srv.conns[e.fd].done
  {
  }

  /** The last packet on record of a connection was accepted and wrote the file of some name, or, where
      that is a folder, files in it. */
  predicate LastWrites(c: Conn, path: string)
  {
    c.done != [] &&
    var e := c.done[|c.done| - 1];
    Accepted(e.acts) && WritesFile(e.request.action) && AtOrBelow(path, e.request.dest)
  }

  lemma OtherIsForeign(cfg: Config, srv: Hub, fd: int, other: int, n: nat)
    requires Distinct(cfg) && Ticketed(srv) && fd in srv.conns && other in srv.conns && other != fd
    requires Ticket(srv.conns[other]) == Some(n)
    ensures Foreign(cfg, ShareOf(srv, fd), cfg.names.temp(n))
  {
    forall m: nat | Mine(ShareOf(srv, fd), m)
      ensures !AtOrBelow(cfg.names.temp(n), cfg.names.temp(m))
    {
    }
  }

  lemma LawfulNames(cfg: Config, share: Share, d: Disk, done: seq<Exchange>, t: State, path: string)
    requires Lawful(cfg, share, d, done, t) && Foreign(cfg, share, path)
    ensures SameAt(d.files, t.world.disk.files, path) || (|t.conn.done| == |done| + 1 && LastWrites(t.conn, path))
  {
  }

  /** The packet that an event puts on record wrote the file of some name. */
  predicate PutsOnRecord(cfg: Config, srv: Hub, e: ServerEvent, path: string)
  {
    && e.Readable? && e.fd in srv.conns && !Fatal(cfg, srv, e)
    && |Afterwards(cfg, srv, e).conn.done| == |srv.conns[e.fd].done| + 1
    && LastWrites(Afterwards(cfg, srv, e).conn, path)
  }

  /** Whatever the clients name, the temporary file of another connection changes in a step only if
      the packet that the step puts on record writes to that name. */
  lemma OtherFileChangesByName(cfg: Config, srv: Hub, e: ServerEvent, other: int, n: nat)
    requires Distinct(cfg) && Orderly(cfg, srv) && other in srv.conns && other != e.fd
    requires Ticket(srv.conns[other]) == Some(n)
    ensures SameAt(srv.world.disk.files, ServerStep(cfg, srv, e).DiskOf().files, cfg.names.temp(n))
            || PutsOnRecord(cfg, srv, e, cfg.names.temp(n))
  {
    if Fatal(cfg, srv, e) {
      LastDiskKeepsOthers(cfg, srv, e, other, n);
    } else if e.fd in srv.conns && !e.Accept? {
      AfterwardsChangesByName(cfg, srv, e, other, n, Afterwards(cfg, srv, e));
    }
  }

  lemma LastDiskKeepsOthers(cfg: Config, srv: Hub, e: ServerEvent, other: int, n: nat)
    requires Distinct(cfg) && Orderly(cfg, srv) && other in srv.conns && other != e.fd && Fatal(cfg, srv, e)
    requires Ticket(srv.conns[other]) == Some(n)
    ensures SameAt(srv.world.disk.files, LastDisk(cfg, srv, e).files, cfg.names.temp(n))
  {
    LastDiskIsLawful(cfg, srv, e);
    if e.Readable? {
      OtherIsForeign(cfg, srv, e.fd, other, n);
    }
  }

  lemma AfterwardsChangesByName(cfg: Config, srv: Hub, e: ServerEvent, other: int, n: nat, t: State)
    requires Distinct(cfg) && Orderly(cfg, srv) && other in srv.conns && other != e.fd && !Fatal(cfg, srv, e)
    requires e.fd in srv.conns && !e.Accept? && t == Afterwards(cfg, srv, e) && Ticket(srv.conns[other]) == Some(n)
    ensures SameAt(srv.world.disk.files, t.world.disk.files, cfg.names.temp(n))
            || PutsOnRecord(cfg, srv, e, cfg.names.temp(n))
  {
    var share := ShareOf(srv, e.fd);
    OtherIsForeign(cfg, srv, e.fd, other, n);
    AfterwardsIsLawful(cfg, srv, e, share, t);
    LawfulNames(cfg, share, srv.world.disk, srv.conns[e.fd].done, t, cfg.names.temp(n));
    if e.HungUp? {
      NoRecordOfHangUp(cfg, srv, e);
    }
  }

  // ----- runs of the server ------------------------------------------------------------------

  lemma {:induction false} EveryRunStaysOrderly(cfg: Config, srv: Hub, events: seq<ServerEvent>)
    requires Orderly(cfg, srv)
    ensures RunServer(cfg, srv, events).Up? ==> Orderly(cfg, RunServer(cfg, srv, events).hub)
    decreases events
  {
    if events != [] {
      StepStaysOrderly(cfg, srv, events[0]);
      if ServerStep(cfg, srv, events[0]).Up? {
        EveryRunStaysOrderly(cfg, ServerStep(cfg, srv, events[0]).hub, events[1..]);
      }
    }
  }

  /** A server that knows no users stores nothing and loses nothing, whatever its clients send, in
      any order and in any pieces. */
  lemma {:induction false} NoUsersNoChange(cfg: Config, srv: Hub, events: seq<ServerEvent>)
    requires Orderly(cfg, srv) && cfg.users == {}
    ensures SameStored(cfg, srv.world.disk, RunServer(cfg, srv, events).DiskOf())
    decreases events
  {
    if events != [] {
      StepStaysOrderly(cfg, srv, events[0]);
      StepIsLawful(cfg, srv, events[0]);
      match ServerStep(cfg, srv, events[0]) {
        case Down(_) =>
        case Up(next) =>
          NoUsersNoChange(cfg, next, events[1..]);
          StoredTwice(cfg, srv.world.disk, next.world.disk, RunServer(cfg, next, events[1..]).DiskOf());
      }
    }
  }
}

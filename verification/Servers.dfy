/** Many connections over one disk: an event of one of them leaves the others alone. */
module Servers {
  import opened Exchanges
  import opened FileNames
  import opened FileStore
  import opened Headers
  import opened Hex
  import opened Network
  import opened PathAlgebra
  import opened Protocol
  import opened Responses
  import opened Wire

  // ----- names -------------------------------------------------------------------------------

  /** A path is no temporary name and lies below none. */
  ghost predicate IsReal(cfg: Config, path: string)
  {
    forall n: nat :: !AtOrBelow(path, cfg.names.temp(n))
  }

  /** Temporary names do not repeat, none lies below another one, and none is empty. */
  ghost predicate Distinct(cfg: Config)
  {
    (forall m: nat, n: nat :: AtOrBelow(cfg.names.temp(m), cfg.names.temp(n)) ==> m == n) && IsReal(cfg, "")
  }

  /** The program's own names are like that, under a normalised home directory. */
  lemma NamesAreDistinct(cfg: Config, home: string)
    requires cfg.names == NamesUnder(home) && CleanHome(home)
    ensures Distinct(cfg)
  {
    forall m: nat, n: nat | AtOrBelow(cfg.names.temp(m), cfg.names.temp(n))
      ensures m == n
    {
      TempPathsApart(m, n, home);
    }
    forall n: nat
      ensures !AtOrBelow("", cfg.names.temp(n))
    {
      TempPathIs(n, home);
    }
  }

  /** No file lies below a temporary name. */
  ghost predicate Clean(cfg: Config, files: map<string, seq<byte>>)
  {
    forall n: nat :: Bare(files, cfg.names.temp(n))
  }

  /** The file that a header list names is stored neither under a temporary name nor below one. */
  ghost predicate NamesReal(cfg: Config, list: seq<Pair>)
  {
    forall pair :: cfg.lookup(list, "filename") == Some(pair) ==> IsReal(cfg, cfg.names.stored(pair.text))
  }

  lemma StoredIsTempIff(cfg: Config, home: string, text: string, name: string, n: nat)
    requires cfg.names == NamesUnder(home) && CleanHome(home) && name == CString(text)
    ensures AtOrBelow(cfg.names.stored(text), cfg.names.temp(n))
            <==> LandsOn(name, n, home) || LandsBelow(name, n, home)
  {
    RealIsTempIff(text, n, home);
  }

  /** With the program's names, exactly the file names that lead from the files folder neither to a
      temporary file nor through one are like that. */
  lemma IsRealIff(cfg: Config, home: string, text: string, name: string, path: string)
    requires cfg.names == NamesUnder(home) && CleanHome(home)
    requires name == CString(text) && path == cfg.names.stored(text)
    ensures IsReal(cfg, path) <==> forall n: nat :: !LandsOn(name, n, home) && !LandsBelow(name, n, home)
  {
    forall n: nat
      ensures AtOrBelow(path, cfg.names.temp(n)) <==> LandsOn(name, n, home) || LandsBelow(name, n, home)
    {
      StoredIsTempIff(cfg, home, text, name, n);
    }
  }

  // ----- headers that name no temporary file -------------------------------------------------

  /** The headers have what their action requires, and pass the query for credentials. */
  predicate Admitted(cfg: Config, s: State, list: seq<Pair>)
  {
    && HasAll(cfg, list, Required(ReadAction(cfg.reading, list), cfg.strayRow))
    && AuthTransaction(cfg, s, list).1 == SUCCESS
  }

  /** If the headers of a packet are complete now, are admitted and ask to write a file, then it is
      not one that is stored at or below a temporary name. */
  ghost predicate Proper(cfg: Config, s: State)
  {
    s.conn.phase.HeadersRead? && s.conn.index == s.conn.length ==>
      var list := cfg.parse(s.conn.got);
      Admitted(cfg, s, list) && WritesFile(ReadAction(cfg.reading, list)) ==> NamesReal(cfg, list)
  }

  /** What can be said of that on a stream alone: at a position that a magic word announces, headers
      with the credentials of a user that ask to write a file do not name such a one. */
  ghost predicate TameAt(cfg: Config, input: seq<byte>, at: nat)
    requires MAGIC_LENGTH <= at <= |input|
  {
    TameBehind(cfg, input, at, ParseMagic(FromLittleEndian(input[at - MAGIC_LENGTH..at])))
  }

  ghost predicate TameBehind(cfg: Config, input: seq<byte>, at: nat, info: Header)
  {
    info.magic == MAGIC && at + info.headerLength <= |input| ==>
      TameList(cfg, cfg.parse(input[at..at + info.headerLength]))
  }

  ghost predicate TameList(cfg: Config, list: seq<Pair>)
  {
    Granted(cfg, list) && WritesFile(ReadAction(cfg.reading, list)) ==> NamesReal(cfg, list)
  }

  ghost predicate TameStream(cfg: Config, input: seq<byte>)
  {
    forall at :: MAGIC_LENGTH <= at <= |input| ==> TameAt(cfg, input, at)
  }

  lemma WritersAreGranted(cfg: Config, s: State, list: seq<Pair>)
    requires Admitted(cfg, s, list) && WritesFile(ReadAction(cfg.reading, list))
    ensures Granted(cfg, list)
  {
    RequiredDemandsLogin(cfg, list, ReadAction(cfg.reading, list));
  }

  /** The headers of a connection with a tame stream are proper, since a magic word announced them. */
  lemma TameIsProper(cfg: Config, s: State)
    requires TameStream(cfg, s.conn.input) && Sound(s.conn)
    ensures Proper(cfg, s)
  {
    if s.conn.phase.HeadersRead? && s.conn.index == s.conn.length {
      TameHeaders(cfg, s, s.conn.consumed - s.conn.index, cfg.parse(s.conn.got));
    }
  }

  lemma TameHeaders(cfg: Config, s: State, at: nat, list: seq<Pair>)
    requires TameStream(cfg, s.conn.input) && s.conn.request.Some? && list == cfg.parse(s.conn.got)
    requires Announced(s.conn.request.value.info, s.conn.input, at)
    requires at + s.conn.request.value.info.headerLength == s.conn.consumed <= |s.conn.input|
    requires s.conn.got == s.conn.input[at..s.conn.consumed]
    ensures Admitted(cfg, s, list) && WritesFile(ReadAction(cfg.reading, list)) ==> NamesReal(cfg, list)
  {
    HeadersTameAt(cfg, s.conn.input, at, s.conn.consumed, s.conn.request.value.info, s.conn.got, list);
    if Admitted(cfg, s, list) && WritesFile(ReadAction(cfg.reading, list)) {
      WritersAreGranted(cfg, s, list);
    }
  }

  lemma HeadersTameAt(cfg: Config, input: seq<byte>, at: nat, end: nat, info: Header, got: seq<byte>, list: seq<Pair>)
    requires TameStream(cfg, input) && Announced(info, input, at) && end == at + info.headerLength <= |input|
    requires got == input[at..end] && list == cfg.parse(got)
    ensures TameList(cfg, list)
  {
    assert TameAt(cfg, input, at);
    assert TameBehind(cfg, input, at, info);
  }

  // ----- what one connection owns ------------------------------------------------------------

  /** The number of the temporary file of the request at hand. */
  function Ticket(c: Conn): Option<nat>
  {
    if c.request.Some? then c.request.value.ticket else None
  }

  /** The bytes of the current phase, as they came off the stream. */
  function SoFar(c: Conn): seq<byte>
    requires c.index <= c.consumed <= |c.input|
  {
    c.input[c.consumed - c.index..c.consumed]
  }

  /** Its ticket has been drawn, a file that it will write is not a temporary one, and no file lies
      below a temporary name. */
  ghost predicate Named(cfg: Config, c: Conn, w: World)
  {
    && Clean(cfg, w.disk.files)
    && (Ticket(c).Some? ==> Ticket(c).value <= w.counter)
    && (c.request.Some? && WritesFile(c.request.value.action) ==> IsReal(cfg, c.request.value.dest))
  }

  /** An open temporary file holds, of the body read so far, exactly the bytes that landed; the hash
      context has been fed all of it and is closed with the last byte. */
  ghost predicate KeepsBody(cfg: Config, c: Conn, w: World)
  {
    && c.index <= c.consumed <= |c.input|
    && (c.fileOpen ==>
          && c.request.Some? && c.request.value.ticket.Some?
          && Keeps(cfg, w.disk.files, c.request.value.ticket.value, SoFar(c))
          && (c.index > 0 ==> c.hashed == SoFar(c))
          && (c.index > 0 && c.index == c.length ==> c.hash == Hexify(cfg.sha256(SoFar(c)))))
  }

  /** The temporary file of a ticket holds what has landed of some bytes. */
  predicate Keeps(cfg: Config, files: map<string, seq<byte>>, ticket: nat, bs: seq<byte>)
  {
    cfg.names.temp(ticket) in files && files[cfg.names.temp(ticket)] == Landed(cfg.lands(ticket), 0, bs)
  }

  /** What a connection owns. */
  ghost predicate Owns(cfg: Config, c: Conn, w: World)
  {
    Named(cfg, c, w) && KeepsBody(cfg, c, w)
  }

  /** What happens to the world between two states of one connection: temporary files of other
      tickets are as they were, nothing comes to lie below a temporary name, and tickets are drawn in
      order. */
  ghost predicate Frame(cfg: Config, s: State, t: State)
  {
    && s.world.counter <= t.world.counter
    && (forall n: nat :: n <= s.world.counter && Ticket(s.conn) != Some(n) ==>
          SameAt(s.world.disk.files, t.world.disk.files, cfg.names.temp(n)))
    && (Clean(cfg, s.world.disk.files) ==> Clean(cfg, t.world.disk.files))
    && (Ticket(t.conn).Some? && Ticket(t.conn).value <= s.world.counter ==> Ticket(t.conn) == Ticket(s.conn))
  }

  lemma FrameTrans(cfg: Config, s: State, t: State, u: State)
    requires Frame(cfg, s, t) && Frame(cfg, t, u)
    ensures Frame(cfg, s, u)
  {
  }

  /** A path is one that a request may touch: its temporary file, or a file that it writes. */
  predicate Touchable(cfg: Config, r: Request, files: map<string, seq<byte>>, path: string)
  {
    TempOf(cfg, r) == Some(path) || (WritesFile(r.action) && path == r.dest && path in files)
  }

  lemma StaysClean(cfg: Config, a: map<string, seq<byte>>, b: map<string, seq<byte>>, r: Request)
    requires Distinct(cfg) && (WritesFile(r.action) ==> IsReal(cfg, r.dest)) && Clean(cfg, a)
    requires forall path :: SameAt(a, b, path) || Touchable(cfg, r, b, path)
    ensures Clean(cfg, b)
  {
    forall n: nat, path | path in b
      ensures !Below(path, cfg.names.temp(n))
    {
      if SameAt(a, b, path) {
        assert Bare(a, cfg.names.temp(n));
      } else if TempOf(cfg, r) == Some(path) {
        assert AtOrBelow(cfg.names.temp(r.ticket.value), cfg.names.temp(n)) ==> r.ticket.value == n;
      } else {
        assert !AtOrBelow(path, cfg.names.temp(n));
      }
    }
  }

  lemma OthersStay(cfg: Config, a: map<string, seq<byte>>, b: map<string, seq<byte>>, r: Request, n: nat)
    requires Distinct(cfg) && (WritesFile(r.action) ==> IsReal(cfg, r.dest)) && r.ticket != Some(n)
    requires forall path :: SameAt(a, b, path) || Touchable(cfg, r, b, path)
    ensures SameAt(a, b, cfg.names.temp(n))
  {
    var path := cfg.names.temp(n);
    if TempOf(cfg, r) == Some(path) {
      assert AtOrBelow(path, cfg.names.temp(r.ticket.value));
    } else if WritesFile(r.action) {
      assert !AtOrBelow(r.dest, path);
    }
  }

  /** Only the connection's own temporary file and its destination are touched. */
  lemma OwnFilesOnly(cfg: Config, s: State, t: State)
    requires Distinct(cfg) && s.conn.request.Some?
    requires var r := s.conn.request.value;
             && (WritesFile(r.action) ==> IsReal(cfg, r.dest))
             && forall path :: SameAt(s.world.disk.files, t.world.disk.files, path)
                               || Touchable(cfg, r, t.world.disk.files, path)
    requires t.conn.request == s.conn.request || t.conn.request.None?
    requires s.world.counter == t.world.counter
    ensures Frame(cfg, s, t)
  {
    var r, a, b := s.conn.request.value, s.world.disk.files, t.world.disk.files;
    if Clean(cfg, a) {
      StaysClean(cfg, a, b, r);
    }
    forall n: nat | n <= s.world.counter && Ticket(s.conn) != Some(n)
      ensures SameAt(a, b, cfg.names.temp(n))
    {
      OthersStay(cfg, a, b, r, n);
    }
  }

  // ----- the callbacks -----------------------------------------------------------------------

  lemma FinishFrame(cfg: Config, s: State)
    requires Distinct(cfg) && s.conn.request.Some? && Named(cfg, s.conn, s.world) && s.conn.consumed <= |s.conn.input|
    ensures Frame(cfg, s, Finish(cfg, s)) && Owns(cfg, Finish(cfg, s).conn, Finish(cfg, s).world)
  {
    OwnFilesOnly(cfg, s, Finish(cfg, s));
  }

  lemma SayFrame(cfg: Config, s: State, code: int, source: Source)
    requires Named(cfg, s.conn, s.world)
    ensures Frame(cfg, s, Say(cfg, s, code, source)) && Say(cfg, s, code, source).world == s.world
    ensures Named(cfg, Say(cfg, s, code, source).conn, s.world)
  {
  }

  lemma FailFrame(cfg: Config, s: State, code: int)
    requires Distinct(cfg) && s.conn.request.Some? && Named(cfg, s.conn, s.world) && s.conn.consumed <= |s.conn.input|
    ensures var t := Fail(cfg, s, code).0;
            Frame(cfg, s, t) && Owns(cfg, t.conn, t.world)
  {
    var s1 := Say(cfg, s, code, MessageSource(code));
    SayFrame(cfg, s, code, MessageSource(code));
    FinishFrame(cfg, s1);
    FrameTrans(cfg, s, s1, Finish(cfg, s1));
  }

  lemma AfterPostprocessFrame(cfg: Config, s: State, error: int)
    requires Distinct(cfg) && s.conn.request.Some? && Named(cfg, s.conn, s.world) && s.conn.consumed <= |s.conn.input|
    ensures var t := AfterPostprocess(cfg, s, error).0;
            Frame(cfg, s, t) && Owns(cfg, t.conn, t.world)
  {
    if error != SUCCESS {
      FailFrame(cfg, s, error);
    } else if s.conn.code != DATA_READY {
      var s1 := Say(cfg, s, PACKET_OK, MessageSource(PACKET_OK));
      SayFrame(cfg, s, PACKET_OK, MessageSource(PACKET_OK));
      FinishFrame(cfg, s1);
      FrameTrans(cfg, s, s1, Finish(cfg, s1));
    } else {
      FinishFrame(cfg, s);
    }
  }

  /** What the work of a request touches. */
  lemma WorkReaches(cfg: Config, s: State, r: Request, temp: string, t: State, path: string)
    requires s.conn.request == Some(r) && r.ticket.Some? && temp == cfg.names.temp(r.ticket.value)
    requires t == ActionPostprocess(cfg, SendData(cfg, s)).0
    ensures SameAt(s.world.disk.files, t.world.disk.files, path)
            || (WritesFile(r.action) && Reached(s.world.disk.files, t.world.disk.files, r.dest, temp, path))
    ensures t.world.counter == s.world.counter && t.conn.request == s.conn.request && SameStream(s.conn, t.conn)
  {
    var disk, calls := s.world.disk, EnvOf(cfg, s).end;
    if r.action.Create? {
      CreateReaches(disk, if r.key.Some? then r.key.value else "", r.dest, temp, r.append, r.info.dataLength,
                    StoredHash(s.conn.hash), calls, path);
    } else if r.action.Update? {
      UpdateReaches(disk, r.dest, temp, r.at, r.trim, r.info.dataLength, calls, path);
    }
  }

  lemma ActionFrame(cfg: Config, s: State)
    requires Distinct(cfg) && s.conn.request.Some? && Named(cfg, s.conn, s.world) && s.conn.request.value.ticket.Some?
    ensures var t := ActionPostprocess(cfg, SendData(cfg, s)).0;
            && Frame(cfg, s, t) && Named(cfg, t.conn, t.world)
            && t.conn.request == s.conn.request && SameStream(s.conn, t.conn)
  {
    var r, t := s.conn.request.value, ActionPostprocess(cfg, SendData(cfg, s)).0;
    var temp := cfg.names.temp(r.ticket.value);
    WorkReaches(cfg, s, r, temp, t, temp);
    assert Bare(s.world.disk.files, temp);
    forall path
      ensures SameAt(s.world.disk.files, t.world.disk.files, path) || Touchable(cfg, r, t.world.disk.files, path)
    {
      WorkReaches(cfg, s, r, temp, t, path);
    }
    OwnFilesOnly(cfg, s, t);
  }

  lemma UploadDoneFrame(cfg: Config, s: State)
    requires Distinct(cfg) && s.conn.request.Some? && Named(cfg, s.conn, s.world) && s.conn.request.value.ticket.Some?
    requires s.conn.consumed <= |s.conn.input|
    ensures var t := UploadDone(cfg, s).0;
            Frame(cfg, s, t) && Owns(cfg, t.conn, t.world)
  {
    if s.conn.request.value.confirm && s.conn.got != ACCEPT {
      FailFrame(cfg, s, NETWORK_ERROR_WRITE);
    } else {
      var (s1, error) := ActionPostprocess(cfg, SendData(cfg, s));
      ActionFrame(cfg, s);
      AfterPostprocessFrame(cfg, s1, error);
      FrameTrans(cfg, s, s1, AfterPostprocess(cfg, s1, error).0);
    }
  }

  /** A prepared request: its file is new and empty. */
  ghost predicate Primed(cfg: Config, c: Conn, w: World)
  {
    && c.request.Some? && c.request.value.ticket.Some? && Named(cfg, c, w) && c.consumed <= |c.input|
    && (c.fileOpen ==> Keeps(cfg, w.disk.files, c.request.value.ticket.value, []))
  }

  lemma AwaitFrame(cfg: Config, s: State, code: int, phase: Phase, length: nat)
    requires Primed(cfg, s.conn, s.world)
    ensures var t := Await(Say(cfg, s, code, MessageSource(code)), phase, length);
            Frame(cfg, s, t) && Owns(cfg, t.conn, t.world)
  {
  }

  lemma AfterPreprocessFrame(cfg: Config, s: State, error: int)
    requires Distinct(cfg) && Primed(cfg, s.conn, s.world)
    ensures var t := AfterPreprocess(cfg, s, error).0;
            Frame(cfg, s, t) && Owns(cfg, t.conn, t.world)
  {
    if error != SUCCESS {
      FailFrame(cfg, s, error);
    } else if s.conn.request.value.info.dataLength > 0 {
      AwaitFrame(cfg, s, DATA_SEND, ConfirmUpload, s.conn.request.value.info.dataLength);
    } else if s.conn.request.value.confirm {
      AwaitFrame(cfg, s, DATA_MORE, Phase.Upload, ACCEPT_LENGTH);
    } else {
      UploadDoneFrame(cfg, s);
    }
  }

  lemma OpenTempFrame(cfg: Config, s: State, r: Request)
    requires Distinct(cfg) && s.conn.request == Some(r) && Named(cfg, s.conn, s.world) && r.ticket.Some?
    ensures var t := OpenTemp(cfg, s, r);
            && Frame(cfg, s, t) && Named(cfg, t.conn, t.world) && SameStream(s.conn, t.conn)
            && t.conn.request == s.conn.request
            && (t.conn.fileOpen ==> Keeps(cfg, t.world.disk.files, r.ticket.value, []))
  {
    OwnFilesOnly(cfg, s, OpenTemp(cfg, s, r));
  }

  lemma PreprocessFrame(cfg: Config, s: State, r: Request, list: seq<Pair>)
    ensures var (t, r1, error) := Preprocess(cfg, s, r, list);
            && t.conn == s.conn && t.world == s.world.(disk := s.world.disk.(rows := t.world.disk.rows))
            && r1.ticket == r.ticket && r1.dest == r.dest && r1.action == r.action
  {
  }

  lemma AfterSetupFrame(cfg: Config, s: State, r: Request, list: seq<Pair>, error: int)
    requires Distinct(cfg) && s.conn.request == Some(r)
    requires Named(cfg, s.conn, s.world) && s.conn.consumed <= |s.conn.input|
    requires error == SUCCESS ==> r.ticket.Some?
    ensures var t := AfterSetup(cfg, s, r, list, error).0;
            Frame(cfg, s, t) && Owns(cfg, t.conn, t.world)
  {
    if error != SUCCESS {
      FailFrame(cfg, s, error);
    } else {
      var s1 := OpenTemp(cfg, s, r);
      OpenTempFrame(cfg, s, r);
      var (s2, r1, error1) := Preprocess(cfg, s1, r, list);
      PreprocessFrame(cfg, s1, r, list);
      var act := Prepared(r1.action, error1 == SUCCESS);
      var s3 := s2.(conn := s2.conn.(request := Some(r1), acts := s2.conn.acts + [act]));
      assert Frame(cfg, s1, s3);
      FrameTrans(cfg, s, s1, s3);
      AfterPreprocessFrame(cfg, s3, error1);
      FrameTrans(cfg, s, s3, AfterPreprocess(cfg, s3, error1).0);
    }
  }

  /** What setting up gives: a ticket, and the names for the client's file. */
  lemma SetupGives(cfg: Config, s: State, r: Request, list: seq<Pair>, s1: State, r1: Request)
    requires s1 == SetupEnvironment(cfg, s, r, list).0 && r1 == SetupEnvironment(cfg, s, r, list).1
    ensures r1.action == r.action && s1.conn == s.conn && s1.world == s.world.(counter := s1.world.counter)
    ensures (s1 == s && r1 == r) || (s1.world.counter == s.world.counter + 1 && r1.ticket == Some(s1.world.counter))
    ensures r1.dest == r.dest || exists pair :: cfg.lookup(list, "filename") == Some(pair)
                                                && r1.dest == cfg.names.stored(pair.text)
  {
  }

  lemma SetupFrame(cfg: Config, s: State, r: Request, list: seq<Pair>)
    requires Named(cfg, s.conn, s.world) && s.conn.request == Some(r) && r.ticket.None? && r.dest == ""
    requires IsReal(cfg, "") && (WritesFile(r.action) ==> NamesReal(cfg, list))
    ensures var (s1, r1, error) := SetupEnvironment(cfg, s, r, list);
            var t := s1.(conn := s1.conn.(request := Some(r1)));
            Frame(cfg, s, t) && Named(cfg, t.conn, t.world) && SameStream(s.conn, t.conn)
  {
    var (s1, r1, error) := SetupEnvironment(cfg, s, r, list);
    SetupGives(cfg, s, r, list, s1, r1);
  }

  lemma AfterAuthFrame(cfg: Config, s: State, r: Request, list: seq<Pair>, error: int)
    requires Distinct(cfg) && s.conn.request == Some(r)
    requires Named(cfg, s.conn, s.world) && s.conn.consumed <= |s.conn.input|
    requires r.ticket.None? && r.dest == ""
    requires error == SUCCESS && WritesFile(r.action) ==> NamesReal(cfg, list)
    ensures var t := AfterAuth(cfg, s, r, list, error).0;
            Frame(cfg, s, t) && Owns(cfg, t.conn, t.world)
  {
    if error != SUCCESS {
      FailFrame(cfg, s, error);
    } else {
      var (s1, r1, error1) := SetupEnvironment(cfg, s, r, list);
      SetupKeeps(cfg, s, r, list);
      SetupFrame(cfg, s, r, list);
      var s2 := s1.(conn := s1.conn.(request := Some(r1)));
      AfterSetupFrame(cfg, s2, r1, list, error1);
      FrameTrans(cfg, s, s2, AfterSetup(cfg, s2, r1, list, error1).0);
    }
  }

  lemma HeadersFrame(cfg: Config, s: State, r: Request, list: seq<Pair>)
    requires Distinct(cfg) && s.conn.request == Some(r)
    requires Named(cfg, s.conn, s.world) && s.conn.consumed <= |s.conn.input|
    requires r.ticket.None? && r.dest == ""
    ensures var t := Fail(cfg, s, MISSING_ATTRIBS).0;
            Frame(cfg, s, t) && Owns(cfg, t.conn, t.world)
    ensures var (s1, error) := AuthTransaction(cfg, s, list);
            var t := AfterAuth(cfg, s1, r, list, error).0;
            (error == SUCCESS && WritesFile(r.action) ==> NamesReal(cfg, list)) ==>
              Frame(cfg, s, t) && Owns(cfg, t.conn, t.world)
  {
    FailFrame(cfg, s, MISSING_ATTRIBS);
    var (s1, error) := AuthTransaction(cfg, s, list);
    assert Frame(cfg, s, s1) && Named(cfg, s1.conn, s1.world);
    if error == SUCCESS && WritesFile(r.action) ==> NamesReal(cfg, list) {
      AfterAuthFrame(cfg, s1, r, list, error);
      FrameTrans(cfg, s, s1, AfterAuth(cfg, s1, r, list, error).0);
    }
  }

  lemma HeadersDoneFrame(cfg: Config, s: State)
    requires Distinct(cfg) && s.conn.request.Some? && Named(cfg, s.conn, s.world) && s.conn.consumed <= |s.conn.input|
    requires s.conn.request.value == NewRequest(s.conn.request.value.info)
    requires s.conn.phase.HeadersRead? && s.conn.index == s.conn.length && Proper(cfg, s)
    ensures var t := HeadersDone(cfg, s).0;
            Frame(cfg, s, t) && Owns(cfg, t.conn, t.world)
  {
    var list := cfg.parse(s.conn.got);
    var r := s.conn.request.value.(action := ReadAction(cfg.reading, list));
    var s1 := s.(conn := s.conn.(request := Some(r)));
    NamedBefore(cfg, s.conn, s.world, r);
    HeadersFrame(cfg, s1, r, list);
    FrameTrans(cfg, s, s1, HeadersDone(cfg, s).0);
  }

  lemma NamedBefore(cfg: Config, c: Conn, w: World, r: Request)
    requires IsReal(cfg, "") && c.request.Some? && Named(cfg, c, w) && r.dest == "" && r.ticket.None?
    ensures Named(cfg, c.(request := Some(r)), w)
  {
  }

  lemma CallbackFrame(cfg: Config, s: State)
    requires Distinct(cfg) && Sound(s.conn) && s.conn.open && s.conn.index == s.conn.length
    requires Owns(cfg, s.conn, s.world)
    requires Proper(cfg, s)
    ensures var t := Callback(cfg, s).0;
            Frame(cfg, s, t) && Owns(cfg, t.conn, t.world)
  {
    match s.conn.phase {
      case MagicRead => MagicFrame(cfg, s);
      case HeadersRead => HeadersDoneFrame(cfg, s);
      case ConfirmUpload => UploadDoneFrame(cfg, s);
      case Upload => UploadDoneFrame(cfg, s);
    }
  }

  lemma MagicFrame(cfg: Config, s: State)
    requires Distinct(cfg) && Sound(s.conn) && s.conn.phase.MagicRead? && Owns(cfg, s.conn, s.world)
    ensures Frame(cfg, s, MagicDone(s).0) && Owns(cfg, MagicDone(s).0.conn, s.world) && MagicDone(s).0.world == s.world
  {
  }

  lemma CloseFrame(cfg: Config, s: State)
    requires Distinct(cfg) && Owns(cfg, s.conn, s.world)
    ensures Frame(cfg, s, Close(cfg, s)) && Owns(cfg, Close(cfg, s).conn, Close(cfg, s).world)
  {
    if s.conn.request.Some? {
      OwnFilesOnly(cfg, s, Close(cfg, s));
    }
  }

  lemma AfterCallbackFrame(cfg: Config, s: State, ok: bool)
    requires Distinct(cfg) && Owns(cfg, s.conn, s.world)
    ensures var t := AfterCallback(cfg, s, ok);
            Frame(cfg, s, t) && Owns(cfg, t.conn, t.world)
  {
    CloseFrame(cfg, s);
  }

  lemma DispatchFrame(cfg: Config, s: State)
    requires Distinct(cfg) && Sound(s.conn) && s.conn.open && s.conn.index == s.conn.length
    requires Owns(cfg, s.conn, s.world)
    requires Proper(cfg, s)
    ensures Frame(cfg, s, Dispatch(cfg, s)) && Owns(cfg, Dispatch(cfg, s).conn, Dispatch(cfg, s).world)
  {
    var (s1, ok) := Callback(cfg, s);
    CallbackFrame(cfg, s);
    AfterCallbackFrame(cfg, s1, ok);
    FrameTrans(cfg, s, s1, AfterCallback(cfg, s1, ok));
  }

  // ----- reading -----------------------------------------------------------------------------

  /** What a connection with an open file holds after it has read more of its body. */
  lemma BodyGrows(cfg: Config, c: Conn, w: World, bs: seq<byte>, both: seq<byte>, c': Conn, disk: Disk)
    requires KeepsBody(cfg, c, w) && c.fileOpen && bs != [] && both == SoFar(c) + bs
    requires c' == WithBytes(cfg, c, bs) && disk == DiskWith(cfg, c, w.disk, bs)
    ensures c'.hashed == both && (c'.index == c'.length ==> c'.hash == Hexify(cfg.sha256(both)))
    ensures Keeps(cfg, disk.files, c.request.value.ticket.value, both)
  {
    assert c.index == 0 ==> [] + bs == SoFar(c) + bs;
    KeepsMore(cfg, w.disk, c.request.value.ticket.value, SoFar(c), c.index, bs, both);
  }

  lemma ReadSomeKeepsBody(cfg: Config, s: State, n: nat)
    requires KeepsBody(cfg, s.conn, s.world) && s.conn.consumed + n <= |s.conn.input|
    ensures KeepsBody(cfg, ReadSome(cfg, s, n).conn, ReadSome(cfg, s, n).world)
  {
    if s.conn.fileOpen && n > 0 {
      FileKeepsBody(cfg, s, n, s.conn.input[s.conn.consumed..s.conn.consumed + n], ReadSome(cfg, s, n));
    }
  }

  lemma FileKeepsBody(cfg: Config, s: State, n: nat, bs: seq<byte>, t: State)
    requires KeepsBody(cfg, s.conn, s.world) && s.conn.fileOpen && n > 0 && s.conn.consumed + n <= |s.conn.input|
    requires bs == s.conn.input[s.conn.consumed..s.conn.consumed + n] && t == AddBytes(cfg, s, bs)
    ensures KeepsBody(cfg, t.conn, t.world)
  {
    var start, end := s.conn.consumed - s.conn.index, s.conn.consumed + n;
    SliceTwice(s.conn.input, start, s.conn.consumed, end, end, SoFar(s.conn), bs, s.conn.input[start..end]);
    BodyGrows(cfg, s.conn, s.world, bs, s.conn.input[start..end], t.conn, t.world.disk);
    SameSlice(s.conn.input, start, end, t.conn.consumed - t.conn.index, t.conn.consumed);
  }

  lemma KeepsMore(cfg: Config, disk: Disk, ticket: nat, bs: seq<byte>, at: nat, more: seq<byte>, both: seq<byte>)
    requires Keeps(cfg, disk.files, ticket, bs) && at == |bs| && both == bs + more
    ensures Keeps(cfg, FileWith(disk, cfg.names.temp(ticket), cfg.lands(ticket), at, more).files, ticket, both)
  {
    LandedAppend(cfg.lands(ticket), 0, bs, at, more, both);
  }

  lemma ReadSomeOwns(cfg: Config, s: State, n: nat)
    requires Distinct(cfg) && Owns(cfg, s.conn, s.world) && s.conn.consumed + n <= |s.conn.input|
    ensures Owns(cfg, ReadSome(cfg, s, n).conn, ReadSome(cfg, s, n).world)
  {
    ReadSomeKeepsBody(cfg, s, n);
    ReadSomeFrame(cfg, s, n);
  }

  lemma ReadSomeFrame(cfg: Config, s: State, n: nat)
    requires Distinct(cfg) && Owns(cfg, s.conn, s.world) && s.conn.consumed + n <= |s.conn.input|
    ensures Frame(cfg, s, ReadSome(cfg, s, n))
  {
    if s.conn.fileOpen {
      OwnFilesOnly(cfg, s, ReadSome(cfg, s, n));
    }
  }

  lemma AfterReadFrame(cfg: Config, s: State)
    requires Distinct(cfg) && Sound(s.conn) && s.conn.open && Owns(cfg, s.conn, s.world)
    requires Proper(cfg, s)
    ensures Frame(cfg, s, AfterRead(cfg, s)) && Owns(cfg, AfterRead(cfg, s).conn, AfterRead(cfg, s).world)
  {
    if s.conn.index == s.conn.length {
      DispatchFrame(cfg, s);
    }
  }

  lemma EventFrame(cfg: Config, s: State, cuts: seq<nat>)
    requires Distinct(cfg) && Sound(s.conn) && Owns(cfg, s.conn, s.world)
    requires !Exits(s.conn) && Running(s.conn) && (s.conn.open ==> Proper(cfg, AfterReads(cfg, s, cuts)))
    ensures Frame(cfg, s, Event(cfg, s, cuts)) && Owns(cfg, Event(cfg, s, cuts).conn, Event(cfg, s, cuts).world)
  {
    if s.conn.open {
      var n := TakenNow(s.conn, cuts);
      var s1 := AfterReads(cfg, s, cuts);
      ReadSomeFrame(cfg, s, n);
      ReadSomeOwns(cfg, s, n);
      ReadSomeIsSound(cfg, s, n);
      AfterReadFrame(cfg, s1);
      FrameTrans(cfg, s, s1, AfterRead(cfg, s1));
    }
  }

  // ----- the server --------------------------------------------------------------------------

  /** The connections, by descriptor, and the world they share. */
  datatype Hub = Hub(conns: map<int, Conn>, world: World)

  /** A client connects under a descriptor, which is negative if that failed; a descriptor becomes
      readable; a client hangs up. */
  datatype ServerEvent = Accept(fd: int, input: seq<byte>) | Readable(fd: int, cuts: seq<nat>) | HungUp(fd: int)

  /** A closed connection leaves the table. */
  function PutBack(srv: Hub, fd: int, s: State): Hub
  {
    Hub(if s.conn.open then srv.conns[fd := s.conn] else srv.conns - {fd}, s.world)
  }

  /** What a turn of the accept loop comes to: the loop goes on, or the process has ended. */
  datatype Outcome = Up(hub: Hub) | Down(disk: Disk)
  {
    function DiskOf(): Disk
    {
      match this
      case Up(hub) => hub.world.disk
      case Down(disk) => disk
    }
  }

  /** The event ends the process: no descriptor could be had for a client, which is logged as fatal,
      or a readable event ends it. */
  predicate Fatal(cfg: Config, srv: Hub, e: ServerEvent)
  {
    || (e.Accept? && e.fd < 0)
    || (e.Readable? && e.fd in srv.conns && Ends(cfg, State(srv.conns[e.fd], srv.world), e.cuts))
  }

  /** What the disk holds when an event has ended the process. */
  function LastDisk(cfg: Config, srv: Hub, e: ServerEvent): Disk
    requires Fatal(cfg, srv, e)
  {
    if e.Readable? && !Exits(srv.conns[e.fd]) then
      AfterReads(cfg, State(srv.conns[e.fd], srv.world), e.cuts).world.disk
    else srv.world.disk
  }

  /** The connection of an event afterwards, for an event of a registered descriptor. */
  function Afterwards(cfg: Config, srv: Hub, e: ServerEvent): State
    requires e.fd in srv.conns && !Fatal(cfg, srv, e) && !e.Accept?
  {
    var s := State(srv.conns[e.fd], srv.world);
    if e.Readable? then Event(cfg, s, e.cuts) else HangUp(cfg, s)
  }

  /** One turn of the accept loop. A descriptor in use is not handed out again, and events come
      for registered descriptors only. */
  function ServerStep(cfg: Config, srv: Hub, e: ServerEvent): Outcome
  {
    if Fatal(cfg, srv, e) then Down(LastDisk(cfg, srv, e))
    else if e.Accept? then
      Up(if e.fd in srv.conns then srv else srv.(conns := srv.conns[e.fd := NewConn(e.input)]))
    else
      Up(if e.fd in srv.conns then PutBack(srv, e.fd, Afterwards(cfg, srv, e)) else srv)
  }

  /** A client that hangs up leaves the table at once, and its temporary file goes with it; nothing else
      changes. */
  lemma HangUpRemoves(cfg: Config, srv: Hub, fd: int, next: Outcome)
    requires fd in srv.conns && srv.conns[fd].open && next == ServerStep(cfg, srv, HungUp(fd))
    ensures next.Up? && next.hub.conns == srv.conns - {fd} && next.hub.world.disk.rows == srv.world.disk.rows
    ensures var request := srv.conns[fd].request;
            next.hub.world.disk.files ==
            if request.Some? && request.value.ticket.Some?
            then srv.world.disk.files - {cfg.names.temp(request.value.ticket.value)} else srv.world.disk.files
  {
  }

  /** A client that connects under a new descriptor waits for eight bytes; nothing else changes. */
  lemma AcceptAdds(cfg: Config, srv: Hub, fd: int, input: seq<byte>, next: Outcome)
    requires fd >= 0 && fd !in srv.conns && next == ServerStep(cfg, srv, Accept(fd, input))
    ensures next.Up? && fd in next.hub.conns && next.hub.conns - {fd} == srv.conns && next.hub.world == srv.world
    ensures var c := next.hub.conns[fd];
            && c.open && c.phase.MagicRead? && c.index == 0 && c.length == 8 && c.input == input && c.consumed == 0
            && c.request.None? && c.done == [] && c.out == []
  {
  }

  /** Every connection keeps its promises; nothing more is needed for that than that it began. */
  ghost predicate AllSound(srv: Hub)
  {
    forall fd :: fd in srv.conns ==> Sound(srv.conns[fd]) && srv.conns[fd].open
  }

  ghost predicate ServerInv(cfg: Config, srv: Hub)
  {
    && AllSound(srv)
    && Clean(cfg, srv.world.disk.files)
    && (forall fd :: fd in srv.conns ==> Owns(cfg, srv.conns[fd], srv.world))
    && (forall fd, fd' ::
          fd in srv.conns && fd' in srv.conns && Ticket(srv.conns[fd]).Some?
          && Ticket(srv.conns[fd]) == Ticket(srv.conns[fd']) ==>
            fd == fd')
  }

  /** A step that completes the headers of a packet completes proper ones. */
  ghost predicate TameStep(cfg: Config, srv: Hub, e: ServerEvent)
  {
    e.Readable? && e.fd in srv.conns && Running(srv.conns[e.fd]) && !Fatal(cfg, srv, e) ==>
      Proper(cfg, AfterReads(cfg, State(srv.conns[e.fd], srv.world), e.cuts))
  }

  /** What one connection owns survives the events of another one. */
  lemma OtherStillOwns(cfg: Config, c: Conn, s: State, t: State)
    requires Owns(cfg, c, s.world) && Frame(cfg, s, t)
    requires Ticket(c).Some? ==> Ticket(s.conn) != Ticket(c)
    ensures Owns(cfg, c, t.world)
    ensures Ticket(c).Some? ==> Ticket(t.conn) != Ticket(c)
  {
  }

  lemma PutBackKeepsInv(cfg: Config, srv: Hub, fd: int, t: State)
    requires ServerInv(cfg, srv) && fd in srv.conns
    requires Sound(t.conn) && Owns(cfg, t.conn, t.world) && Frame(cfg, State(srv.conns[fd], srv.world), t)
    ensures ServerInv(cfg, PutBack(srv, fd, t))
  {
    forall other | other in srv.conns && other != fd
      ensures Owns(cfg, srv.conns[other], t.world)
      ensures Ticket(srv.conns[other]).Some? ==> Ticket(t.conn) != Ticket(srv.conns[other])
    {
      OtherStillOwns(cfg, srv.conns[other], State(srv.conns[fd], srv.world), t);
    }
  }

  lemma HangUpFrame(cfg: Config, s: State)
    requires Distinct(cfg) && Sound(s.conn) && Owns(cfg, s.conn, s.world)
    ensures Frame(cfg, s, HangUp(cfg, s)) && Owns(cfg, HangUp(cfg, s).conn, HangUp(cfg, s).world)
  {
    CloseFrame(cfg, s);
  }

  lemma NewConnOwns(cfg: Config, input: seq<byte>, w: World)
    requires Clean(cfg, w.disk.files)
    ensures Owns(cfg, NewConn(input), w) && NewConn(input).open && Ticket(NewConn(input)) == None
  {
  }

  lemma AcceptKeepsInv(cfg: Config, srv: Hub, fd: int, input: seq<byte>)
    requires ServerInv(cfg, srv)
    ensures ServerInv(cfg, srv.(conns := srv.conns[fd := NewConn(input)]))
  {
    NewConnIsSound(input);
    NewConnOwns(cfg, input, srv.world);
    JoinKeepsInv(cfg, srv, fd, NewConn(input));
  }

  lemma JoinKeepsInv(cfg: Config, srv: Hub, fd: int, c: Conn)
    requires ServerInv(cfg, srv)
    requires Sound(c) && c.open && Owns(cfg, c, srv.world) && Ticket(c) == None
    ensures ServerInv(cfg, srv.(conns := srv.conns[fd := c]))
  {
  }

  lemma AfterReadKeepsStream(cfg: Config, s: State, t: State)
    requires Sound(s.conn) && t == AfterRead(cfg, s)
    ensures SameStream(s.conn, t.conn)
  {
    if s.conn.index == s.conn.length {
      OneRecordPerPacket(cfg, s);
    }
  }

  lemma EventKeepsInput(cfg: Config, s: State, cuts: seq<nat>)
    requires Sound(s.conn) && !Exits(s.conn)
    ensures Event(cfg, s, cuts).conn.input == s.conn.input
  {
    if s.conn.open {
      var n := TakenNow(s.conn, cuts);
      ReadSomeIsSound(cfg, s, n);
      AfterReadKeepsStream(cfg, ReadSome(cfg, s, n), Event(cfg, s, cuts));
    }
  }

  /** An event touches its own connection, and of the temporary files at most that one's. */
  lemma AfterwardsFrame(cfg: Config, srv: Hub, e: ServerEvent)
    requires Distinct(cfg) && ServerInv(cfg, srv) && e.fd in srv.conns && !Fatal(cfg, srv, e) && !e.Accept?
    requires TameStep(cfg, srv, e)
    ensures var s, t := State(srv.conns[e.fd], srv.world), Afterwards(cfg, srv, e);
            Sound(t.conn) && Frame(cfg, s, t) && Owns(cfg, t.conn, t.world)
  {
    var s := State(srv.conns[e.fd], srv.world);
    if e.Readable? {
      EventIsSound(cfg, s, e.cuts);
      EventFrame(cfg, s, e.cuts);
    } else {
      HangUpIsSound(cfg, s);
      HangUpFrame(cfg, s);
    }
  }

  /** Every step that the process survives keeps it: live requests never share a temporary name,
      and every temporary file holds exactly what has landed of the body its own connection has
      read. */
  lemma StepKeepsInv(cfg: Config, srv: Hub, e: ServerEvent)
    requires Distinct(cfg) && ServerInv(cfg, srv) && TameStep(cfg, srv, e)
    ensures ServerStep(cfg, srv, e).Up? ==> ServerInv(cfg, ServerStep(cfg, srv, e).hub)
  {
    if !Fatal(cfg, srv, e) {
      if e.Accept? {
        if e.fd !in srv.conns {
          AcceptKeepsInv(cfg, srv, e.fd, e.input);
        }
      } else if e.fd in srv.conns {
        AfterwardsFrame(cfg, srv, e);
        PutBackKeepsInv(cfg, srv, e.fd, Afterwards(cfg, srv, e));
      }
    }
  }

  lemma AfterwardsIsSound(cfg: Config, srv: Hub, e: ServerEvent, t: State)
    requires AllSound(srv) && e.fd in srv.conns && !Fatal(cfg, srv, e) && !e.Accept? && t == Afterwards(cfg, srv, e)
    ensures Sound(t.conn)
  {
    var s := State(srv.conns[e.fd], srv.world);
    if e.Readable? {
      EventIsSound(cfg, s, e.cuts);
    } else {
      HangUpIsSound(cfg, s);
    }
  }

  lemma PutBackKeepsSound(srv: Hub, fd: int, t: State)
    requires AllSound(srv) && Sound(t.conn)
    ensures AllSound(PutBack(srv, fd, t))
  {
  }

  lemma JoinKeepsSound(srv: Hub, fd: int, c: Conn)
    requires AllSound(srv) && Sound(c) && c.open
    ensures AllSound(srv.(conns := srv.conns[fd := c]))
  {
  }

  /** The promises about packets need no such condition on clients. */
  lemma StepKeepsSound(cfg: Config, srv: Hub, e: ServerEvent)
    requires AllSound(srv)
    ensures ServerStep(cfg, srv, e).Up? ==> AllSound(ServerStep(cfg, srv, e).hub)
  {
    if e.Accept? {
      NewConnIsSound(e.input);
      JoinKeepsSound(srv, e.fd, NewConn(e.input));
    } else if e.fd in srv.conns && !Fatal(cfg, srv, e) {
      AfterwardsIsSound(cfg, srv, e, Afterwards(cfg, srv, e));
      PutBackKeepsSound(srv, e.fd, Afterwards(cfg, srv, e));
    }
  }

  /** A step ends the process if and only if a client could not be accepted, or if it is a readable
      event of a connection that awaits a body larger than the read buffer without a temporary file,
      or one that completes a phase whose callback comes to a listing that does not fit, a
      notification whose file cannot be opened, or an accepted file that cannot be opened. */
  lemma StepEndsIff(cfg: Config, srv: Hub, e: ServerEvent)
    requires AllSound(srv)
    ensures e.fd in srv.conns ==> Running(srv.conns[e.fd])
    ensures ServerStep(cfg, srv, e).Down? <==>
            || (e.Accept? && e.fd < 0)
            || (e.Readable? && e.fd in srv.conns && LargeInMemory(srv.conns[e.fd]))
            || (e.Readable? && e.fd in srv.conns
                && NullMet(cfg, AfterReads(cfg, State(srv.conns[e.fd], srv.world), e.cuts)))
  {
    if e.Readable? && e.fd in srv.conns {
      ReadableEndsIff(cfg, State(srv.conns[e.fd], srv.world), e.cuts);
    }
  }

  /** A body that does not fit in memory is awaited, and no temporary file is open for it. */
  predicate LargeInMemory(c: Conn)
  {
    c.phase.ConfirmUpload? && c.request.Some? && c.request.value.info.dataLength > READ_BUFFER && !c.fileOpen
  }

  /** A phase is complete whose callback comes to a null pointer. */
  predicate NullMet(cfg: Config, s: State)
  {
    s.conn.index == s.conn.length && s.conn.request.Some? &&
    match s.conn.phase
    case MagicRead => false
    case HeadersRead => ListsTooMuch(cfg, s)
    case ConfirmUpload =>
      && s.conn.request.value.action.Notification? && s.conn.request.value.ticket.Some?
      && Unseen(cfg, s, cfg.names.temp(s.conn.request.value.ticket.value))
    case Upload => s.conn.got == Bytes("ACCEPT\0\0") && Unseen(cfg, s, s.conn.request.value.dest)
  }

  lemma ReadableEndsIff(cfg: Config, s: State, cuts: seq<nat>)
    requires Sound(s.conn) && s.conn.open
    ensures Running(s.conn)
    ensures Ends(cfg, s, cuts) <==> LargeInMemory(s.conn) || NullMet(cfg, AfterReads(cfg, s, cuts))
  {
    var s1 := AfterReads(cfg, s, cuts);
    ExitsIff(s.conn);
    ReadSomeIsSound(cfg, s, TakenNow(s.conn, cuts));
    if s1.conn.index == s1.conn.length {
      CallbackDiesIff(cfg, s1);
    }
  }

  /** Turns of the loop, up to the end of the process. */
  function RunServer(cfg: Config, srv: Hub, events: seq<ServerEvent>): Outcome
    decreases events
  {
    if events == [] then Up(srv)
    else match ServerStep(cfg, srv, events[0])
         case Down(disk) => Down(disk)
         case Up(next) => RunServer(cfg, next, events[1..])
  }

  /** All steps of a run that complete headers complete proper ones. */
  ghost predicate TameRun(cfg: Config, srv: Hub, events: seq<ServerEvent>)
    decreases events
  {
    events == [] ||
    (TameStep(cfg, srv, events[0])
     && match ServerStep(cfg, srv, events[0])
        case Down(_) => true
        case Up(next) => TameRun(cfg, next, events[1..]))
  }

  /** For any order of events over any set of connections, starting with none. */
  lemma {:induction false} EveryRunKeepsInv(cfg: Config, srv: Hub, events: seq<ServerEvent>)
    requires Distinct(cfg) && ServerInv(cfg, srv) && TameRun(cfg, srv, events)
    ensures RunServer(cfg, srv, events).Up? ==> ServerInv(cfg, RunServer(cfg, srv, events).hub)
    decreases events
  {
    if events != [] {
      StepKeepsInv(cfg, srv, events[0]);
      if ServerStep(cfg, srv, events[0]).Up? {
        EveryRunKeepsInv(cfg, ServerStep(cfg, srv, events[0]).hub, events[1..]);
      }
    }
  }

  /** A server without connections, where no file lies below a temporary name. */
  lemma NoConnections(cfg: Config, world: World)
    requires Clean(cfg, world.disk.files)
    ensures ServerInv(cfg, Hub(map[], world))
  {
  }

  // ----- tame streams ------------------------------------------------------------------------

  ghost predicate TameStreams(cfg: Config, srv: Hub)
  {
    forall fd :: fd in srv.conns ==> TameStream(cfg, srv.conns[fd].input)
  }

  ghost predicate TameEvents(cfg: Config, events: seq<ServerEvent>)
  {
    forall i :: 0 <= i < |events| && events[i].Accept? ==> TameStream(cfg, events[i].input)
  }

  lemma ReadableStaysTame(cfg: Config, s: State, cuts: seq<nat>)
    requires Sound(s.conn) && s.conn.open && !Exits(s.conn) && TameStream(cfg, s.conn.input)
    ensures Running(s.conn) && Proper(cfg, AfterReads(cfg, s, cuts))
    ensures TameStream(cfg, Event(cfg, s, cuts).conn.input)
  {
    ReadSomeIsSound(cfg, s, TakenNow(s.conn, cuts));
    TameIsProper(cfg, AfterReads(cfg, s, cuts));
    EventKeepsInput(cfg, s, cuts);
  }

  lemma StreamsStayTame(cfg: Config, srv: Hub, e: ServerEvent)
    requires AllSound(srv) && TameStreams(cfg, srv) && (e.Accept? ==> TameStream(cfg, e.input))
    ensures TameStep(cfg, srv, e)
    ensures ServerStep(cfg, srv, e).Up? ==> TameStreams(cfg, ServerStep(cfg, srv, e).hub)
  {
    if e.Readable? && e.fd in srv.conns && !Fatal(cfg, srv, e) {
      ReadableStaysTame(cfg, State(srv.conns[e.fd], srv.world), e.cuts);
    }
    if e.fd in srv.conns && !e.Accept? && !Fatal(cfg, srv, e) {
      PutBackStaysTame(cfg, srv, e.fd, Afterwards(cfg, srv, e));
    }
  }

  lemma PutBackStaysTame(cfg: Config, srv: Hub, fd: int, t: State)
    requires TameStreams(cfg, srv) && TameStream(cfg, t.conn.input)
    ensures TameStreams(cfg, PutBack(srv, fd, t))
  {
  }

  /** A run is tame if the streams of all its clients are. */
  lemma {:induction false} TameStreamsSuffice(cfg: Config, srv: Hub, events: seq<ServerEvent>)
    requires AllSound(srv) && TameStreams(cfg, srv) && TameEvents(cfg, events)
    ensures TameRun(cfg, srv, events)
    decreases events
  {
    if events != [] {
      StreamsStayTame(cfg, srv, events[0]);
      StepKeepsSound(cfg, srv, events[0]);
      if ServerStep(cfg, srv, events[0]).Up? {
        TameStreamsSuffice(cfg, ServerStep(cfg, srv, events[0]).hub, events[1..]);
      }
    }
  }

  /** A run of two parts is a run of the first part and, if the process survives it, the second. */
  lemma {:induction false} RunInParts(cfg: Config, srv: Hub, a: seq<ServerEvent>, b: seq<ServerEvent>)
    ensures RunServer(cfg, srv, a + b) ==
            match RunServer(cfg, srv, a)
            case Down(disk) => Down(disk)
            case Up(next) => RunServer(cfg, next, b)
    decreases a
  {
    if a == [] {
      assert a + b == b;
    } else {
      assert (a + b)[0] == a[0] && (a + b)[1..] == a[1..] + b;
      match ServerStep(cfg, srv, a[0]) {
        case Down(_) =>
        case Up(next) => RunInParts(cfg, next, a[1..], b);
      }
    }
  }

  /** Another connection and its temporary file, from one state of the server to the next. */
  ghost predicate Untouched(cfg: Config, srv: Hub, after: Hub, other: int)
  {
    && other in srv.conns && other in after.conns && after.conns[other] == srv.conns[other]
    && (Ticket(srv.conns[other]).Some? ==>
          SameAt(srv.world.disk.files, after.world.disk.files, cfg.names.temp(Ticket(srv.conns[other]).value)))
  }

  lemma OthersUntouched(cfg: Config, srv: Hub, fd: int, t: State, other: int, after: Hub)
    requires ServerInv(cfg, srv) && fd in srv.conns && other in srv.conns && other != fd
    requires Frame(cfg, State(srv.conns[fd], srv.world), t) && after == PutBack(srv, fd, t)
    ensures Untouched(cfg, srv, after, other)
  {
    assert Owns(cfg, srv.conns[other], srv.world);
  }

  /** An event that the process survives touches the connection registered under its descriptor
      and no other, and of the temporary files at most that connection's own. */
  lemma EventsDoNotMix(cfg: Config, srv: Hub, e: ServerEvent, other: int)
    requires Distinct(cfg) && ServerInv(cfg, srv) && TameStep(cfg, srv, e)
    requires other in srv.conns && other != e.fd
    ensures ServerStep(cfg, srv, e).Up? ==> Untouched(cfg, srv, ServerStep(cfg, srv, e).hub, other)
  {
    if e.fd in srv.conns && !e.Accept? && !Fatal(cfg, srv, e) {
      AfterwardsFrame(cfg, srv, e);
      OthersUntouched(cfg, srv, e.fd, Afterwards(cfg, srv, e), other, ServerStep(cfg, srv, e).hub);
    }
  }
}

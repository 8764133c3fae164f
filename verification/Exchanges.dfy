/** What every packet of every run does: how many bytes it takes off the stream, which responses
    it gets and in which order, and that nothing is prepared before the credentials are checked. */
module Exchanges {
  import opened Headers
  import opened Network
  import opened Protocol
  import opened Responses
  import opened Wire

  // ----- the promises, on a finished packet --------------------------------------------------

  function Replies(acts: seq<Act>): seq<int>
  {
    if acts == [] then []
    else Replies(acts[..|acts| - 1]) + if acts[|acts| - 1].Said? then [acts[|acts| - 1].code] else []
  }

  predicate IsFinal(code: int)
  {
    code == PACKET_OK || code == DATA_READY || code > WARNINGS
  }

  predicate Accepted(acts: seq<Act>)
  {
    exists i :: 0 <= i < |acts| && acts[i].Prepared? && acts[i].ok
  }

  predicate Confirmed(acts: seq<Act>)
  {
    exists i :: 0 <= i < |acts| && acts[i] == Prepared(RequestFile, true)
  }

  predicate NeedsLogin(action: Action)
  {
    !action.Notification? && !action.Server? && !action.Invalid?
  }

  /** An action that needs a login is prepared only after the credentials were granted. */
  predicate LoginFirst(acts: seq<Act>)
  {
    forall i :: 0 <= i < |acts| && acts[i].Prepared? && NeedsLogin(acts[i].action) ==> Asked(true) in acts[..i]
  }

  /** The response before the final one: the body is asked for exactly when a non-empty body is
      accepted, a confirmation exactly when a file is about to be served. */
  function Interim(dataLength: nat, acts: seq<Act>): seq<int>
  {
    if Accepted(acts) && dataLength > 0 then [DATA_SEND]
    else if Confirmed(acts) then [DATA_MORE]
    else []
  }

  /** The bytes that belong to a packet on the stream. */
  function Extent(info: Header, acts: seq<Act>): nat
  {
    MAGIC_LENGTH + info.headerLength
    + (if Accepted(acts) && info.dataLength > 0 then info.dataLength else 0)
    + (if Confirmed(acts) then ACCEPT_LENGTH else 0)
  }

  /** Exactly one final response, at most the one interim response, and exactly the bytes of the
      packet used. */
  ghost predicate Answered(e: Exchange)
  {
    && (exists code :: IsFinal(code) && Replies(e.acts) == Interim(e.request.info.dataLength, e.acts) + [code])
    && e.used == Extent(e.request.info, e.acts)
    && LoginFirst(e.acts)
  }

  function UsedBy(done: seq<Exchange>): nat
  {
    if done == [] then 0 else UsedBy(done[..|done| - 1]) + done[|done| - 1].used
  }

  // ----- the invariant -----------------------------------------------------------------------

  ghost predicate Books(c: Conn)
  {
    && (c.open ==> c.consumed == UsedBy(c.done) + c.read)
    && (forall i :: 0 <= i < |c.done| ==> Answered(c.done[i]))
  }

  /** Everything said so far is interim and the bytes so far are those of the packet. */
  ghost predicate Current(c: Conn)
  {
    && c.request.Some?
    && c.code != DATA_READY
    && LoginFirst(c.acts)
    && Replies(c.acts) == Interim(c.request.value.info.dataLength, c.acts)
    && c.read == Extent(c.request.value.info, c.acts)
  }

  /** The magic word in front of a position of a stream. */
  predicate Announced(info: Header, input: seq<byte>, at: nat)
  {
    && MAGIC_LENGTH <= at <= |input| && info.magic == MAGIC
    && info == ParseMagic(FromLittleEndian(input[at - MAGIC_LENGTH..at]))
  }

  /** The actions that do not refuse a body. */
  predicate TakesBody(action: Action)
  {
    TempFileRequired(action) || action.Login?
  }

  ghost predicate InPhase(c: Conn)
  {
    match c.phase
    case MagicRead =>
      && c.request.None? && !c.fileOpen && c.length == MAGIC_LENGTH && c.acts == [] && c.read == c.index
    case HeadersRead =>
      && c.request.Some? && !c.fileOpen && c.acts == [] && c.code == SUCCESS
      && c.request.value == NewRequest(c.request.value.info)
      && c.length == c.request.value.info.headerLength && c.read == MAGIC_LENGTH + c.index
      && c.index <= c.consumed && Announced(c.request.value.info, c.input, c.consumed - c.index)
    case ConfirmUpload =>
      && c.request.Some? && c.length == c.request.value.info.dataLength > 0 && !c.request.value.confirm
      && c.code == DATA_SEND && (c.fileOpen ==> TempFileRequired(c.request.value.action))
      && TakesBody(c.request.value.action) && Accepted(c.acts) && !Confirmed(c.acts)
      && c.request.value.ticket.Some?
      && c.index <= c.read && Current(c.(read := c.read - c.index + c.length))
    case Upload =>
      && c.request.Some? && c.length == ACCEPT_LENGTH && c.request.value.confirm && !c.fileOpen
      && c.request.value.action.RequestFile? && c.request.value.info.dataLength == 0
      && c.code == DATA_MORE && c.request.value.ticket.Some? && Confirmed(c.acts)
      && c.index <= c.read && Current(c.(read := c.read - c.index + c.length))
  }

  ghost predicate Sound(c: Conn)
  {
    && c.index <= c.length && c.consumed <= |c.input| && c.index <= c.read <= c.consumed
    && c.got == (if c.fileOpen then [] else c.input[c.consumed - c.index..c.consumed])
    && Books(c)
    && InPhase(c)
  }

  // ----- sequences of acts -------------------------------------------------------------------

  lemma Snoc(acts: seq<Act>, act: Act)
    ensures Replies(acts + [act]) == Replies(acts) + if act.Said? then [act.code] else []
    ensures Accepted(acts + [act]) <==> Accepted(acts) || (act.Prepared? && act.ok)
    ensures Confirmed(acts + [act]) <==> Confirmed(acts) || act == Prepared(RequestFile, true)
    ensures LoginFirst(acts + [act]) <==>
            LoginFirst(acts) && (act.Prepared? && NeedsLogin(act.action) ==> Asked(true) in acts)
  {
    var more := acts + [act];
    assert more[..|acts|] == acts;
    assert forall i :: 0 <= i < |acts| ==> more[i] == acts[i] && more[..i] == acts[..i];
    assert more[|acts|] == act;
  }

  lemma UsedBySnoc(done: seq<Exchange>, e: Exchange)
    ensures UsedBy(done + [e]) == UsedBy(done) + e.used
  {
    assert (done + [e])[..|done|] == done;
  }

  // ----- finishing ---------------------------------------------------------------------------

  /** A packet that has been answered goes on record, and the connection waits for a magic word. */
  lemma FinishIsSound(cfg: Config, s: State)
    requires s.conn.request.Some? && s.conn.open && s.conn.consumed <= |s.conn.input|
    requires Books(s.conn)
    requires Answered(Exchange(s.conn.request.value, s.conn.read, s.conn.acts, s.conn.fileOpen))
    ensures Sound(Finish(cfg, s).conn)
  {
    UsedBySnoc(s.conn.done, Exchange(s.conn.request.value, s.conn.read, s.conn.acts, s.conn.fileOpen));
    assert s.conn.input[s.conn.consumed - 0..s.conn.consumed] == [];
  }

  lemma FailIsSound(cfg: Config, s: State, code: int)
    requires Current(s.conn) && Books(s.conn) && s.conn.open && s.conn.consumed <= |s.conn.input|
    requires IsFinal(code)
    ensures Sound(Fail(cfg, s, code).0.conn)
  {
    var s1 := Say(cfg, s, code, MessageSource(code));
    Snoc(s.conn.acts, Said(code));
    FinishIsSound(cfg, s1);
  }

  lemma FinishSaid(cfg: Config, s: State, code: int, source: Source)
    requires Current(s.conn) && Books(s.conn) && s.conn.open && s.conn.consumed <= |s.conn.input|
    requires IsFinal(code)
    ensures Sound(Finish(cfg, Say(cfg, s, code, source)).conn)
  {
    Snoc(s.conn.acts, Said(code));
    FinishIsSound(cfg, Say(cfg, s, code, source));
  }

  lemma AfterPostprocessIsSound(cfg: Config, s: State, error: int)
    requires Current(s.conn) && Books(s.conn) && s.conn.open && s.conn.consumed <= |s.conn.input|
    requires error == SUCCESS || error > WARNINGS
    ensures Sound(AfterPostprocess(cfg, s, error).0.conn)
  {
    if error != SUCCESS {
      FailIsSound(cfg, s, error);
    } else {
      FinishSaid(cfg, s, PACKET_OK, MessageSource(PACKET_OK));
    }
  }

  /** The three actions that answer with data, and the others. */
  lemma DataOrNot(cfg: Config, s: State)
    requires s.conn.request.Some?
    ensures var action := s.conn.request.value.action;
            var (s1, error) := ActionPostprocess(cfg, SendData(cfg, s));
            if action.RequestFile? || action.Dir? || action.Server?
            then error == SUCCESS && exists source :: s1 == Say(cfg, s, DATA_READY, source)
            else s1.conn == s.conn && (error == SUCCESS || error > WARNINGS)
  {
  }

  /** Whatever the action does at the end, one final response goes out. */
  lemma PostProcessIsSound(cfg: Config, s: State)
    requires Current(s.conn) && Books(s.conn) && s.conn.open && s.conn.consumed <= |s.conn.input|
    ensures Sound(PostProcess(cfg, SendData(cfg, s)).0.conn)
  {
    var action := s.conn.request.value.action;
    var (s1, error) := ActionPostprocess(cfg, SendData(cfg, s));
    DataOrNot(cfg, s);
    if action.RequestFile? || action.Dir? || action.Server? {
      var source :| s1 == Say(cfg, s, DATA_READY, source);
      FinishSaid(cfg, s, DATA_READY, source);
      assert AfterPostprocess(cfg, s1, error).0 == Finish(cfg, s1);
    } else {
      AfterPostprocessIsSound(cfg, s1, error);
    }
  }

  lemma UploadDoneIsSound(cfg: Config, s: State)
    requires Current(s.conn) && Books(s.conn) && s.conn.open && s.conn.consumed <= |s.conn.input|
    ensures Sound(UploadDone(cfg, s).0.conn)
  {
    if s.conn.request.value.confirm && s.conn.got != ACCEPT {
      FailIsSound(cfg, s, NETWORK_ERROR_WRITE);
    } else {
      PostProcessIsSound(cfg, s);
    }
  }

  // ----- the headers phase -------------------------------------------------------------------

  /** The table demands both credentials for every action that needs a login. */
  lemma RequiredDemandsLogin(cfg: Config, list: seq<Pair>, action: Action)
    requires NeedsLogin(action) && HasAll(cfg, list, Required(action, cfg.strayRow))
    ensures Has(cfg, list, "username") && Has(cfg, list, "secret")
  {
    var keys := Required(action, cfg.strayRow);
    var i := |keys| - 2;
    assert keys[i] == "username" && keys[i + 1] == "secret";
    assert Has(cfg, list, keys[i]) && Has(cfg, list, keys[i + 1]);
  }

  /** A request before its preparation: nothing said yet. */
  ghost predicate Cleared(c: Conn)
  {
    && Current(c) && Books(c) && c.open && c.read <= c.consumed <= |c.input|
    && !Accepted(c.acts) && !Confirmed(c.acts)
  }

  lemma HeadersAreCleared(c: Conn, r: Request)
    requires Sound(c) && c.open && c.phase.HeadersRead? && c.index == c.length && r.info == c.request.value.info
    ensures Cleared(c.(request := Some(r)))
  {
  }

  lemma CredentialsAreSound(cfg: Config, s: State, r: Request, list: seq<Pair>)
    requires Cleared(s.conn) && s.conn.request == Some(r) && !r.confirm
    requires HasAll(cfg, list, Required(r.action, cfg.strayRow))
    ensures var (s1, error) := AuthTransaction(cfg, s, list);
            && s1.conn.request == Some(r) && Cleared(s1.conn) && (error == SUCCESS || error > WARNINGS)
            && (error == SUCCESS && NeedsLogin(r.action) ==> Asked(true) in s1.conn.acts)
  {
    Snoc(s.conn.acts, Asked(Granted(cfg, list) && EnvOf(cfg, s).login));
    if NeedsLogin(r.action) {
      RequiredDemandsLogin(cfg, list, r.action);
    }
  }

  lemma HeadersDoneIsSound(cfg: Config, s: State)
    requires Sound(s.conn) && s.conn.open && s.conn.phase.HeadersRead? && s.conn.index == s.conn.length
    ensures Sound(HeadersDone(cfg, s).0.conn)
  {
    var list := cfg.parse(s.conn.got);
    var r := s.conn.request.value.(action := ReadAction(cfg.reading, list));
    var s1 := s.(conn := s.conn.(request := Some(r)));
    HeadersAreCleared(s.conn, r);
    HeadersAreSound(cfg, s1, r, list);
  }

  lemma HeadersAreSound(cfg: Config, s: State, r: Request, list: seq<Pair>)
    requires Cleared(s.conn) && s.conn.request == Some(r) && !r.confirm
    ensures !HasAll(cfg, list, Required(r.action, cfg.strayRow)) ==> Sound(Fail(cfg, s, MISSING_ATTRIBS).0.conn)
    ensures HasAll(cfg, list, Required(r.action, cfg.strayRow)) ==>
              var (s1, error) := AuthTransaction(cfg, s, list);
              Sound(AfterAuth(cfg, s1, r, list, error).0.conn)
  {
    if HasAll(cfg, list, Required(r.action, cfg.strayRow)) {
      CredentialsAreSound(cfg, s, r, list);
      var (s1, error) := AuthTransaction(cfg, s, list);
      AfterAuthIsSound(cfg, s1, r, list, error);
    } else {
      FailIsSound(cfg, s, MISSING_ATTRIBS);
    }
  }

  lemma SetupKeeps(cfg: Config, s: State, r: Request, list: seq<Pair>)
    ensures var (s1, r1, error) := SetupEnvironment(cfg, s, r, list);
            && s1.conn == s.conn && r1.info == r.info && r1.action == r.action && r1.confirm == r.confirm
            && (error == SUCCESS ==> r1.ticket.Some?) && (error == SUCCESS || error > WARNINGS)
  {
  }

  lemma AfterAuthIsSound(cfg: Config, s: State, r: Request, list: seq<Pair>, error: int)
    requires s.conn.request == Some(r) && !r.confirm && (error == SUCCESS || error > WARNINGS)
    requires Cleared(s.conn) && (error == SUCCESS && NeedsLogin(r.action) ==> Asked(true) in s.conn.acts)
    ensures Sound(AfterAuth(cfg, s, r, list, error).0.conn)
  {
    if error != SUCCESS {
      FailIsSound(cfg, s, error);
    } else {
      var (s1, r1, error1) := SetupEnvironment(cfg, s, r, list);
      SetupKeeps(cfg, s, r, list);
      AfterSetupIsSound(cfg, s1.(conn := s1.conn.(request := Some(r1))), r1, list, error1);
    }
  }

  lemma PreprocessKeeps(cfg: Config, s: State, r: Request, list: seq<Pair>)
    requires !r.confirm
    ensures var (s1, r1, error) := Preprocess(cfg, s, r, list);
            && s1.conn == s.conn && r1.info == r.info && r1.action == r.action && r1.ticket == r.ticket
            && (error == SUCCESS || error > WARNINGS)
            && (r1.confirm <==> error == SUCCESS && r.action.RequestFile?)
            && (r1.confirm ==> r.info.dataLength == 0)
            && (error == SUCCESS && r.info.dataLength > 0 ==> TakesBody(r.action))
  {
  }

  lemma AfterSetupIsSound(cfg: Config, s: State, r: Request, list: seq<Pair>, error: int)
    requires s.conn.request == Some(r) && !r.confirm && (error == SUCCESS || error > WARNINGS)
    requires error == SUCCESS ==> r.ticket.Some?
    requires Cleared(s.conn) && (NeedsLogin(r.action) ==> Asked(true) in s.conn.acts)
    ensures Sound(AfterSetup(cfg, s, r, list, error).0.conn)
  {
    if error != SUCCESS {
      FailIsSound(cfg, s, error);
    } else {
      var s1 := OpenTemp(cfg, s, r);
      assert s1.conn == s.conn.(fileOpen := s1.conn.fileOpen);
      var (s2, r1, error1) := Preprocess(cfg, s1, r, list);
      PreprocessKeeps(cfg, s1, r, list);
      AfterPreprocessIsSound(cfg, s2, r1, error1);
    }
  }

  lemma AfterPreprocessIsSound(cfg: Config, s: State, r: Request, error: int)
    requires r.ticket.Some? && (error == SUCCESS || error > WARNINGS)
    requires Cleared(s.conn.(request := Some(r))) && (NeedsLogin(r.action) ==> Asked(true) in s.conn.acts)
    requires (r.confirm <==> error == SUCCESS && r.action.RequestFile?) && (r.confirm ==> r.info.dataLength == 0)
    requires s.conn.fileOpen ==> TempFileRequired(r.action)
    requires error == SUCCESS && r.info.dataLength > 0 ==> TakesBody(r.action)
    ensures var act := Prepared(r.action, error == SUCCESS);
            var s1 := s.(conn := s.conn.(request := Some(r), acts := s.conn.acts + [act]));
            Sound(AfterPreprocess(cfg, s1, error).0.conn)
  {
    var act := Prepared(r.action, error == SUCCESS);
    var s1 := s.(conn := s.conn.(request := Some(r), acts := s.conn.acts + [act]));
    Snoc(s.conn.acts, act);
    if error != SUCCESS {
      FailIsSound(cfg, s1, error);
    } else if r.info.dataLength > 0 {
      AskBodyIsSound(cfg, s1);
    } else if r.confirm {
      AskAcceptIsSound(cfg, s1);
    } else {
      UploadDoneIsSound(cfg, s1);
    }
  }

  /** An accepted request that waits for its body, or for the client's confirmation. */
  ghost predicate Waiting(c: Conn)
  {
    && c.request.Some? && c.request.value.ticket.Some? && Books(c) && c.open && c.consumed <= |c.input|
    && LoginFirst(c.acts) && Replies(c.acts) == [] && Accepted(c.acts)
    && c.read == MAGIC_LENGTH + c.request.value.info.headerLength <= c.consumed
    && (c.fileOpen ==> TempFileRequired(c.request.value.action))
  }

  lemma AskBodyIsSound(cfg: Config, s: State)
    requires Waiting(s.conn) && !Confirmed(s.conn.acts)
    requires s.conn.request.value.info.dataLength > 0 && !s.conn.request.value.confirm
    requires TakesBody(s.conn.request.value.action)
    ensures Sound(Await(Say(cfg, s, DATA_SEND, MessageSource(DATA_SEND)), ConfirmUpload,
                        s.conn.request.value.info.dataLength).conn)
  {
    Snoc(s.conn.acts, Said(DATA_SEND));
    assert s.conn.input[s.conn.consumed - 0..s.conn.consumed] == [];
  }

  lemma AskAcceptIsSound(cfg: Config, s: State)
    requires Waiting(s.conn) && Confirmed(s.conn.acts)
    requires s.conn.request.value.action.RequestFile? && s.conn.request.value.confirm
    requires s.conn.request.value.info.dataLength == 0
    ensures Sound(Await(Say(cfg, s, DATA_MORE, MessageSource(DATA_MORE)), Upload, ACCEPT_LENGTH).conn)
  {
    Snoc(s.conn.acts, Said(DATA_MORE));
    assert s.conn.input[s.conn.consumed - 0..s.conn.consumed] == [];
  }

  // ----- events ------------------------------------------------------------------------------

  lemma ReadSomeChanges(cfg: Config, s: State, n: nat, t: State, kept: seq<byte>, bs: seq<byte>)
    requires s.conn.consumed + n <= |s.conn.input| && bs == s.conn.input[s.conn.consumed..s.conn.consumed + n]
    requires s.conn.got == (if s.conn.fileOpen then [] else kept) && t == ReadSome(cfg, s, n)
    ensures Later(s.conn, t.conn, n) && t.conn.got == if s.conn.fileOpen then [] else kept + bs
  {
    if n == 0 {
      assert kept + bs == kept;
    }
  }

  lemma ReadSomeIsSound(cfg: Config, s: State, n: nat)
    requires Sound(s.conn) && s.conn.open
    requires s.conn.index + n <= s.conn.length && s.conn.consumed + n <= |s.conn.input|
    ensures Sound(ReadSome(cfg, s, n).conn)
  {
    var c := s.conn;
    var start, end := c.consumed - c.index, c.consumed + n;
    var kept, bs, got := c.input[start..c.consumed], c.input[c.consumed..end], c.input[start..end];
    SliceTwice(c.input, start, c.consumed, end, end, kept, bs, got);
    ReadIsLater(cfg, s, n, ReadSome(cfg, s, n), kept, bs, got, start, end);
    ReadOnIsSound(c, ReadSome(cfg, s, n).conn, n, got, start, end);
  }

  lemma ReadIsLater(cfg: Config, s: State, n: nat, t: State, kept: seq<byte>, bs: seq<byte>, got: seq<byte>,
                    start: nat, end: nat)
    requires Sound(s.conn) && s.conn.open
    requires s.conn.index + n <= s.conn.length && end == s.conn.consumed + n <= |s.conn.input|
    requires t == ReadSome(cfg, s, n) && start == s.conn.consumed - s.conn.index
    requires kept == s.conn.input[start..s.conn.consumed] && bs == s.conn.input[s.conn.consumed..end]
    requires got == kept + bs
    ensures Later(s.conn, t.conn, n) && t.conn.got == if s.conn.fileOpen then [] else got
  {
    ReadSomeChanges(cfg, s, n, t, kept, bs);
  }

  /** `c'` is `c` with some bytes read. */
  predicate Later(c: Conn, c': Conn, n: nat)
  {
    c' == c.(index := c.index + n, consumed := c.consumed + n, read := c.read + n,
             got := c'.got, hashed := c'.hashed, hash := c'.hash)
  }

  lemma SameSlice(input: seq<byte>, i: nat, j: nat, i': int, j': int)
    requires i == i' <= j == j' <= |input|
    ensures input[i..j] == input[i'..j']
  {
  }

  lemma ReadOnIsSound(c: Conn, c': Conn, n: nat, got: seq<byte>, start: nat, end: nat)
    requires Sound(c) && c.open && c.index + n <= c.length && c.consumed + n <= |c.input|
    requires Later(c, c', n) && start == c.consumed - c.index && end == c.consumed + n && got == c.input[start..end]
    requires c'.got == if c.fileOpen then [] else got
    ensures Sound(c')
  {
    SameSlice(c.input, start, end, c'.consumed - c'.index, c'.consumed);
    StaysInPhase(c, c', n, c.consumed - c.index, c'.consumed - c'.index);
  }

  lemma StaysInPhase(c: Conn, c': Conn, n: nat, at: int, at': int)
    requires InPhase(c) && Later(c, c', n) && at == c.consumed - c.index && at' == c'.consumed - c'.index
    ensures InPhase(c')
  {
    assert at' == at;
    if c.phase.ConfirmUpload? || c.phase.Upload? {
      StaysCurrent(c, c', n);
    }
  }

  lemma StaysCurrent(c: Conn, c': Conn, n: nat)
    requires InPhase(c) && Later(c, c', n) && (c.phase.ConfirmUpload? || c.phase.Upload?)
    ensures InPhase(c')
  {
    SameCurrent(c.(read := c.read - c.index + c.length), c'.(read := c'.read - c'.index + c'.length));
  }

  lemma SameCurrent(c: Conn, c': Conn)
    requires Current(c)
    requires c'.acts == c.acts && c'.request == c.request && c'.code == c.code && c'.read == c.read
    ensures Current(c')
  {
  }

  /** The word that a connection has in memory is in its stream. */
  lemma WordIsAnnounced(c: Conn, info: Header)
    requires Sound(c) && c.phase.MagicRead? && c.index == c.length
    requires info == ParseMagic(FromLittleEndian(c.got)) && info.magic == MAGIC
    ensures Announced(info, c.input, c.consumed)
  {
  }

  lemma HeadersBegin(c: Conn, info: Header, c': Conn)
    requires Sound(c) && c.open && c.phase.MagicRead? && c.index == c.length && Announced(info, c.input, c.consumed)
    requires c' == c.(request := Some(NewRequest(info)), code := SUCCESS, phase := HeadersRead, index := 0,
                      length := info.headerLength, got := [])
    ensures Sound(c')
  {
    assert c.input[c.consumed - 0..c.consumed] == [];
  }

  lemma MagicDoneIsSound(s: State)
    requires Sound(s.conn) && s.conn.open && s.conn.phase.MagicRead? && s.conn.index == s.conn.length
    ensures Sound(MagicDone(s).0.conn)
  {
    var info := ParseMagic(FromLittleEndian(s.conn.got));
    if info.magic == MAGIC {
      WordIsAnnounced(s.conn, info);
      HeadersBegin(s.conn, info, MagicDone(s).0.conn);
    }
  }

  lemma PhaseDoneIsCurrent(c: Conn)
    requires Sound(c) && c.index == c.length && (c.phase.ConfirmUpload? || c.phase.Upload?)
    ensures Current(c)
  {
    assert c.(read := c.read - c.index + c.length) == c;
  }

  lemma CallbackIsSound(cfg: Config, s: State)
    requires Sound(s.conn) && s.conn.open && s.conn.index == s.conn.length
    ensures Sound(Callback(cfg, s).0.conn)
  {
    match s.conn.phase {
      case MagicRead => MagicDoneIsSound(s);
      case HeadersRead => HeadersDoneIsSound(cfg, s);
      case ConfirmUpload =>
        PhaseDoneIsCurrent(s.conn);
        UploadDoneIsSound(cfg, s);
      case Upload =>
        PhaseDoneIsCurrent(s.conn);
        UploadDoneIsSound(cfg, s);
    }
  }

  lemma CloseIsSound(cfg: Config, s: State)
    requires Sound(s.conn)
    ensures Sound(Close(cfg, s).conn)
  {
    assert s.conn.input[s.conn.consumed - 0..s.conn.consumed] == [];
  }

  lemma DispatchIsSound(cfg: Config, s: State)
    requires Sound(s.conn) && s.conn.open && s.conn.index == s.conn.length
    ensures Sound(Dispatch(cfg, s).conn)
  {
    CallbackIsSound(cfg, s);
    CloseIsSound(cfg, Callback(cfg, s).0);
  }

  lemma AfterReadIsSound(cfg: Config, s: State)
    requires Sound(s.conn) && s.conn.open
    ensures Sound(AfterRead(cfg, s).conn)
  {
    if s.conn.index == s.conn.length {
      DispatchIsSound(cfg, s);
    }
  }

  /** Every event that does not end the process, in whatever world it happens, keeps the promises. */
  lemma EventIsSound(cfg: Config, s: State, cuts: seq<nat>)
    requires Sound(s.conn) && !Exits(s.conn)
    ensures Running(s.conn) && Sound(Event(cfg, s, cuts).conn)
  {
    if s.conn.open {
      var n := TakenNow(s.conn, cuts);
      ReadSomeIsSound(cfg, s, n);
      AfterReadIsSound(cfg, ReadSome(cfg, s, n));
    }
  }

  /** A readable event ends the process before it reads if and only if a body that is larger than
      the read buffer is awaited and no temporary file is open for it. */
  lemma ExitsIff(c: Conn)
    requires Sound(c) && c.open
    ensures Exits(c) <==> c.phase.ConfirmUpload? && c.request.value.info.dataLength > READ_BUFFER && !c.fileOpen
  {
    if c.phase.HeadersRead? {
      AnnouncedFits(c.request.value.info, c.input, c.consumed - c.index);
    }
    LengthFits(c);
  }

  lemma LengthFits(c: Conn)
    requires InPhase(c) && (c.phase.HeadersRead? ==> c.request.value.info.headerLength <= 4080)
    ensures c.length > READ_BUFFER ==> c.phase.ConfirmUpload?
  {
  }

  /** So it is right after the headers of a packet if and only if its body is that large and it has
      no temporary file: a login, which never has one, or an action whose file could not be opened. */
  lemma AwaitedBodyEndsIff(cfg: Config, s: State, r: Request)
    requires s.conn.request == Some(r) && s.conn.open && s.conn.length <= READ_BUFFER
    requires r.info.dataLength > 0 && r.ticket.Some?
    ensures var t := AfterPreprocess(cfg, OpenTemp(cfg, s, r), SUCCESS).0;
            Exits(t.conn) <==> r.info.dataLength > READ_BUFFER
                               && !(TempFileRequired(r.action) && TempOpens(cfg, s, r.ticket.value))
  {
  }

  lemma LargeBodyAwaited(cfg: Config, s: State, r: Request, list: seq<Pair>)
    requires s.conn.request == Some(r) && s.conn.open && r.info.dataLength > READ_BUFFER && r.ticket.Some?
    requires r.action.Login? || (r.action.Notification? && r.info.dataLength < NOTIFICATION_LIMIT
                                 && !TempOpens(cfg, s, r.ticket.value))
    ensures AfterSetup(cfg, s, r, list, SUCCESS).1 && Exits(AfterSetup(cfg, s, r, list, SUCCESS).0.conn)
  {
  }

  lemma LargeBodyEnds(cfg: Config, s: State, r: Request, list: seq<Pair>)
    requires s.conn.request == Some(r) && s.conn.open && r.info.dataLength > READ_BUFFER
    requires r.action.Login? || (r.action.Notification? && r.info.dataLength < NOTIFICATION_LIMIT
                                 && !TempOpens(cfg, s, s.world.counter + 1))
    requires EnvOf(cfg, s).tempFolder && !Has(cfg, list, "filename")
    ensures AfterAuth(cfg, s, r, list, SUCCESS).1 && Exits(AfterAuth(cfg, s, r, list, SUCCESS).0.conn)
  {
    var (s1, r1, _) := SetupEnvironment(cfg, s, r, list);
    LargeBodyAwaited(cfg, s1.(conn := s1.conn.(request := Some(r1))), r1, list);
  }

  /** A login with such a body: its headers are taken, its body is asked for, and what comes then ends
      the process. */
  lemma LargeLoginEnds(cfg: Config, s: State, r: Request, list: seq<Pair>)
    requires s.conn.request == Some(r) && s.conn.open && r.info.dataLength > READ_BUFFER
    requires list == cfg.parse(s.conn.got)
    requires ReadAction(cfg.reading, list) == Login && Granted(cfg, list) && !Has(cfg, list, "filename")
    requires EnvOf(cfg, s).tempFolder && EnvOf(cfg, s).login
    ensures HeadersDone(cfg, s).1 && Exits(HeadersDone(cfg, s).0.conn)
  {
    assert HasAll(cfg, list, Required(Login, cfg.strayRow));
    var r1 := r.(action := Login);
    var s1 := s.(conn := s.conn.(request := Some(r1)));
    LargeBodyEnds(cfg, AuthTransaction(cfg, s1, list).0, r1, list);
  }

  /** A notification without a login does the same where its temporary file cannot be opened. */
  lemma UnopenedNotificationEnds(cfg: Config, s: State, r: Request, list: seq<Pair>)
    requires s.conn.request == Some(r) && s.conn.open && READ_BUFFER < r.info.dataLength < NOTIFICATION_LIMIT
    requires list == cfg.parse(s.conn.got) && ReadAction(cfg.reading, list) == Notification && Has(cfg, list, "action")
    requires !Has(cfg, list, "username") && !Has(cfg, list, "secret") && !Has(cfg, list, "filename")
    requires EnvOf(cfg, s).tempFolder && !TempOpens(cfg, s, s.world.counter + 1)
    ensures HeadersDone(cfg, s).1 && Exits(HeadersDone(cfg, s).0.conn)
  {
    assert HasAll(cfg, list, Required(Notification, cfg.strayRow));
    var r1 := r.(action := Notification);
    LargeBodyEnds(cfg, s.(conn := s.conn.(request := Some(r1))), r1, list);
  }

  /** The environment of a request is set up without an error. */
  predicate SetsUp(cfg: Config, env: Env, action: Action, list: seq<Pair>)
  {
    env.tempFolder &&
    match cfg.lookup(list, "filename")
    case None => true
    case Some(pair) => pair.text != "" && env.filesFolder && (WritesFile(action) ==> env.makeFolders)
  }

  /** A listing fits if and only if all that the writer sends for it fits into one buffer. */
  lemma ListingFitsIff(cfg: Config, env: Env)
    ensures ListingFits(cfg, env) <==>
            env.listing.Some? && |Sent(cfg.serialize(DATA_READY), Message(env.listing.value)).0| <= 4096
  {
    AlignedFitsIff(|cfg.serialize(DATA_READY)|);
  }

  /** The headers of a listing are accepted, and it cannot be made or does not fit. */
  predicate ListsTooMuch(cfg: Config, s: State)
    requires s.conn.request.Some?
  {
    var list, env := cfg.parse(s.conn.got), EnvOf(cfg, s);
    && ReadAction(cfg.reading, list) == Dir && HasAll(cfg, list, Required(Dir, cfg.strayRow))
    && AuthTransaction(cfg, s, list).1 == SUCCESS && SetsUp(cfg, env, Dir, list)
    && env.folderFound && s.conn.request.value.info.dataLength == 0 && !ListingFits(cfg, env)
  }

  lemma SetsUpIff(cfg: Config, s: State, r: Request, list: seq<Pair>)
    ensures SetupEnvironment(cfg, s, r, list).2 == SUCCESS <==> SetsUp(cfg, EnvOf(cfg, s), r.action, list)
    ensures SetupEnvironment(cfg, s, r, list).0.world.ticks == s.world.ticks
  {
  }

  lemma AfterSetupDiesIff(cfg: Config, s: State, r: Request, list: seq<Pair>, error: int)
    requires !r.confirm
    ensures AfterSetupDies(cfg, s, r, list, error) <==>
            && error == SUCCESS && r.action.Dir? && EnvOf(cfg, s).folderFound && r.info.dataLength == 0
            && !ListingFits(cfg, EnvOf(cfg, s))
  {
  }

  lemma AfterAuthDiesIff(cfg: Config, s: State, r: Request, list: seq<Pair>, error: int)
    requires !r.confirm
    ensures AfterAuthDies(cfg, s, r, list, error) <==>
            && error == SUCCESS && SetsUp(cfg, EnvOf(cfg, s), r.action, list) && r.action.Dir?
            && EnvOf(cfg, s).folderFound && r.info.dataLength == 0 && !ListingFits(cfg, EnvOf(cfg, s))
  {
    var (s1, r1, error1) := SetupEnvironment(cfg, s, r, list);
    SetsUpIff(cfg, s, r, list);
    SetupKeeps(cfg, s, r, list);
    AfterSetupDiesIff(cfg, s1.(conn := s1.conn.(request := Some(r1))), r1, list, error1);
  }

  /** Of the packets whose work is done in the callback of their headers, a listing is the only one
      that can end the process. */
  lemma HeadersDieIff(cfg: Config, s: State)
    requires s.conn.request.Some? && !s.conn.request.value.confirm
    ensures HeadersDie(cfg, s) <==> ListsTooMuch(cfg, s)
  {
    var list := cfg.parse(s.conn.got);
    var r := s.conn.request.value.(action := ReadAction(cfg.reading, list));
    var (s1, error) := AuthTransaction(cfg, s.(conn := s.conn.(request := Some(r))), list);
    AfterAuthDiesIff(cfg, s1, r, list, error);
  }

  /** Nothing can be opened for reading under a name. */
  predicate Unseen(cfg: Config, s: State, path: string)
  {
    var look := EnvOf(cfg, s).end.look;
    !look.works || (path !in s.world.disk.files && look.folder.None?)
  }

  lemma BodyDiesIff(cfg: Config, s: State, r: Request)
    requires s.conn.request == Some(r) && !r.confirm && TakesBody(r.action) && r.ticket.Some?
    ensures ConfirmDies(cfg, s) <==> r.action.Notification? && Unseen(cfg, s, cfg.names.temp(r.ticket.value))
  {
  }

  lemma AcceptDiesIff(cfg: Config, s: State, r: Request)
    requires s.conn.request == Some(r) && r.confirm && r.action.RequestFile?
    ensures UploadDies(cfg, s) <==> s.conn.got == Bytes("ACCEPT\0\0") && Unseen(cfg, s, r.dest)
  {
  }

  /** The callback of a complete phase ends the process if and only if it is to send a listing that
      does not fit, to show a notification whose file cannot be opened, or to serve a file that cannot
      be opened to a client that accepts it. */
  lemma CallbackDiesIff(cfg: Config, s: State)
    requires Sound(s.conn) && s.conn.index == s.conn.length
    ensures Running(s.conn)
    ensures CallbackDies(cfg, s) <==>
            match s.conn.phase
            case MagicRead => false
            case HeadersRead => ListsTooMuch(cfg, s)
            case ConfirmUpload =>
              && s.conn.request.value.action.Notification? && s.conn.request.value.ticket.Some?
              && Unseen(cfg, s, cfg.names.temp(s.conn.request.value.ticket.value))
            case Upload => s.conn.got == Bytes("ACCEPT\0\0") && Unseen(cfg, s, s.conn.request.value.dest)
  {
    match s.conn.phase {
      case MagicRead =>
      case HeadersRead => HeadersDieIff(cfg, s);
      case ConfirmUpload => BodyDiesIff(cfg, s, s.conn.request.value);
      case Upload => AcceptDiesIff(cfg, s, s.conn.request.value);
    }
  }

  lemma AnnouncedFits(info: Header, input: seq<byte>, at: nat)
    requires Announced(info, input, at)
    ensures info.headerLength <= 4080
  {
    HeaderLengthFits(FromLittleEndian(input[at - MAGIC_LENGTH..at]));
  }

  lemma HangUpIsSound(cfg: Config, s: State)
    requires Sound(s.conn)
    ensures Sound(HangUp(cfg, s).conn)
  {
    if s.conn.open {
      CloseIsSound(cfg, s);
    }
  }

  lemma NewConnIsSound(input: seq<byte>)
    ensures Sound(NewConn(input))
  {
  }

  /** Framing never drifts: an open connection at the start of a packet has consumed exactly the
      extents of the packets it has answered. */
  lemma PacketBoundary(c: Conn)
    requires Sound(c) && c.open && c.phase.MagicRead? && c.index == 0
    ensures c.consumed == UsedBy(c.done)
    ensures forall i :: 0 <= i < |c.done| ==> c.done[i].used == Extent(c.done[i].request.info, c.done[i].acts)
  {
    forall i | 0 <= i < |c.done|
      ensures c.done[i].used == Extent(c.done[i].request.info, c.done[i].acts)
    {
      assert Answered(c.done[i]);
    }
  }

  // ----- one record for every packet ---------------------------------------------------------

  /** Callbacks take nothing off the stream. */
  predicate SameStream(a: Conn, b: Conn)
  {
    a.consumed == b.consumed && a.input == b.input
  }

  /** The request goes on, or it has been put on record, is freed, and a new packet may start. */
  ghost predicate GoesOnOrEnds(c: Conn, c': Conn)
    requires c.request.Some?
  {
    SameStream(c, c') &&
    if c'.request.Some? then
      && c'.done == c.done && c'.request.value.info == c.request.value.info && c'.open == c.open
      && c'.index == 0 && (c'.phase.ConfirmUpload? || c'.phase.Upload?)
    else
      && c'.phase.MagicRead? && c'.index == 0 && c'.length == MAGIC_LENGTH && !c'.fileOpen
      && |c'.done| == |c.done| + 1 && c'.done[..|c.done|] == c.done
      && c'.done[|c.done|].request.info == c.request.value.info
  }

  /** Two states of one request. */
  ghost predicate SamePacket(a: Conn, b: Conn)
  {
    && a.request.Some? && b.request.Some? && a.request.value.info == b.request.value.info
    && a.done == b.done && a.open == b.open && SameStream(a, b)
  }

  lemma EndsFor(a: Conn, b: Conn, c: Conn)
    requires SamePacket(a, b) && GoesOnOrEnds(b, c)
    ensures GoesOnOrEnds(a, c)
  {
  }

  lemma PostprocessKeepsPacket(cfg: Config, s: State)
    requires s.conn.request.Some?
    ensures SamePacket(s.conn, ActionPostprocess(cfg, SendData(cfg, s)).0.conn)
  {
  }

  lemma FailEnds(cfg: Config, s: State, code: int)
    requires s.conn.request.Some?
    ensures GoesOnOrEnds(s.conn, Fail(cfg, s, code).0.conn)
  {
  }

  lemma AfterPostprocessEnds(cfg: Config, s: State, error: int)
    requires s.conn.request.Some?
    ensures GoesOnOrEnds(s.conn, AfterPostprocess(cfg, s, error).0.conn)
  {
  }

  lemma UploadDoneEnds(cfg: Config, s: State)
    requires s.conn.request.Some?
    ensures GoesOnOrEnds(s.conn, UploadDone(cfg, s).0.conn)
  {
    if s.conn.request.value.confirm && s.conn.got != ACCEPT {
      FailEnds(cfg, s, NETWORK_ERROR_WRITE);
    } else {
      var (s1, error) := ActionPostprocess(cfg, SendData(cfg, s));
      PostprocessKeepsPacket(cfg, s);
      AfterPostprocessEnds(cfg, s1, error);
      EndsFor(s.conn, s1.conn, AfterPostprocess(cfg, s1, error).0.conn);
    }
  }

  lemma AfterPreprocessEnds(cfg: Config, s: State, error: int)
    requires s.conn.request.Some?
    ensures GoesOnOrEnds(s.conn, AfterPreprocess(cfg, s, error).0.conn)
  {
    if error != SUCCESS {
      FailEnds(cfg, s, error);
    } else if s.conn.request.value.info.dataLength == 0 && !s.conn.request.value.confirm {
      UploadDoneEnds(cfg, s);
    }
  }

  lemma PreprocessKeepsPacket(cfg: Config, s: State, r: Request, list: seq<Pair>)
    ensures var (s1, r1, error) := Preprocess(cfg, OpenTemp(cfg, s, r), r, list);
            && s1.conn.done == s.conn.done && r1.info == r.info && SameStream(s.conn, s1.conn)
            && s1.conn.open == s.conn.open
  {
  }

  lemma AfterSetupEnds(cfg: Config, s: State, r: Request, list: seq<Pair>, error: int)
    requires s.conn.request == Some(r)
    ensures GoesOnOrEnds(s.conn, AfterSetup(cfg, s, r, list, error).0.conn)
  {
    if error != SUCCESS {
      FailEnds(cfg, s, error);
    } else {
      var (s1, r1, error1) := Preprocess(cfg, OpenTemp(cfg, s, r), r, list);
      PreprocessKeepsPacket(cfg, s, r, list);
      var act := Prepared(r1.action, error1 == SUCCESS);
      var s2 := s1.(conn := s1.conn.(request := Some(r1), acts := s1.conn.acts + [act]));
      AfterPreprocessEnds(cfg, s2, error1);
      EndsFor(s.conn, s2.conn, AfterPreprocess(cfg, s2, error1).0.conn);
    }
  }

  lemma AfterAuthEnds(cfg: Config, s: State, r: Request, list: seq<Pair>, error: int)
    requires s.conn.request == Some(r)
    ensures GoesOnOrEnds(s.conn, AfterAuth(cfg, s, r, list, error).0.conn)
  {
    if error != SUCCESS {
      FailEnds(cfg, s, error);
    } else {
      var (s1, r1, error1) := SetupEnvironment(cfg, s, r, list);
      SetupKeeps(cfg, s, r, list);
      var s2 := s1.(conn := s1.conn.(request := Some(r1)));
      AfterSetupEnds(cfg, s2, r1, list, error1);
      EndsFor(s.conn, s2.conn, AfterSetup(cfg, s2, r1, list, error1).0.conn);
    }
  }

  lemma HeadersEnd(cfg: Config, s: State, r: Request, list: seq<Pair>)
    requires s.conn.request == Some(r)
    ensures GoesOnOrEnds(s.conn, Fail(cfg, s, MISSING_ATTRIBS).0.conn)
    ensures var (s1, error) := AuthTransaction(cfg, s, list);
            GoesOnOrEnds(s.conn, AfterAuth(cfg, s1, r, list, error).0.conn)
  {
    FailEnds(cfg, s, MISSING_ATTRIBS);
    var (s1, error) := AuthTransaction(cfg, s, list);
    AfterAuthEnds(cfg, s1, r, list, error);
    EndsFor(s.conn, s1.conn, AfterAuth(cfg, s1, r, list, error).0.conn);
  }

  lemma HeadersDoneEnds(cfg: Config, s: State)
    requires s.conn.request.Some?
    ensures GoesOnOrEnds(s.conn, HeadersDone(cfg, s).0.conn)
  {
    var list := cfg.parse(s.conn.got);
    var r := s.conn.request.value.(action := ReadAction(cfg.reading, list));
    var s1 := s.(conn := s.conn.(request := Some(r)));
    HeadersEnd(cfg, s1, r, list);
    EndsFor(s.conn, s1.conn, HeadersDone(cfg, s).0.conn);
  }

  lemma CallbackEnds(cfg: Config, s: State)
    requires s.conn.request.Some? && !s.conn.phase.MagicRead?
    ensures GoesOnOrEnds(s.conn, Callback(cfg, s).0.conn)
  {
    match s.conn.phase {
      case HeadersRead => HeadersDoneEnds(cfg, s);
      case ConfirmUpload =>
        if !s.conn.request.value.confirm {
          UploadDoneEnds(cfg, s);
        }
      case Upload => UploadDoneEnds(cfg, s);
    }
  }

  lemma FailingCallbackEnds(cfg: Config, s: State)
    requires s.conn.request.Some? && !s.conn.phase.MagicRead?
    ensures !Callback(cfg, s).1 ==> Callback(cfg, s).0.conn.request.None?
  {
    match s.conn.phase {
      case HeadersRead =>
      case ConfirmUpload =>
      case Upload =>
    }
  }

  lemma AfterCallbackEnds(cfg: Config, a: Conn, s: State, ok: bool)
    requires a.request.Some? && GoesOnOrEnds(a, s.conn) && (!ok ==> s.conn.request.None?)
    ensures GoesOnOrEnds(a, AfterCallback(cfg, s, ok).conn)
  {
  }

  /** Every packet with a valid magic word ends in exactly one record, after which the request is
      freed and the connection is at the start of a packet; no record comes from elsewhere. */
  lemma OneRecordPerPacket(cfg: Config, s: State)
    requires HasRequest(s.conn) && (s.conn.phase.MagicRead? ==> s.conn.request.None?)
    ensures s.conn.request.Some? ==> GoesOnOrEnds(s.conn, Dispatch(cfg, s).conn)
    ensures s.conn.request.None? ==>
              Dispatch(cfg, s).conn.done == s.conn.done && SameStream(s.conn, Dispatch(cfg, s).conn)
  {
    if s.conn.request.Some? {
      CallbackEnds(cfg, s);
      FailingCallbackEnds(cfg, s);
      AfterCallbackEnds(cfg, s.conn, Callback(cfg, s).0, Callback(cfg, s).1);
    }
  }
}

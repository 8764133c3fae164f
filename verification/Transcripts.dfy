/** What a client gets: one packet for every response, in the order of the responses, each with the text
    of its code, or with the file, the listing or the server information. */
module Transcripts {
  import opened Exchanges
  import opened FileStore
  import opened Headers
  import opened Protocol
  import opened Responses
  import opened Servers
  import opened Verdicts
  import opened Wire

  // ----- responses as bytes ------------------------------------------------------------------

  /** The payload that goes with a code: its text, or the data that it announces. */
  function PayloadOf(code: int, data: seq<byte>): seq<byte>
  {
    if code == DATA_READY then data else Bytes(ResponseMessage(code))
  }

  /** The packets for some codes, one behind the other. */
  function Packets(cfg: Config, codes: seq<int>, data: seq<byte>): seq<byte>
  {
    if codes == [] then []
    else
      var last := |codes| - 1;
      Packets(cfg, codes[..last], data) + Responses.Frame(cfg.serialize(codes[last]), PayloadOf(codes[last], data))
  }

  lemma PacketsSnoc(cfg: Config, codes: seq<int>, code: int, data: seq<byte>)
    ensures Packets(cfg, codes + [code], data) ==
            Packets(cfg, codes, data) + Responses.Frame(cfg.serialize(code), PayloadOf(code, data))
  {
    assert (codes + [code])[..|codes|] == codes;
  }

  /** Data plays no part as long as none is announced. */
  lemma {:induction false} PacketsWithoutData(cfg: Config, codes: seq<int>, a: seq<byte>, b: seq<byte>)
    requires DATA_READY !in codes
    ensures Packets(cfg, codes, a) == Packets(cfg, codes, b)
  {
    if codes != [] {
      var last := |codes| - 1;
      assert codes[last] in codes && forall code :: code in codes[..last] ==> code in codes;
      PacketsWithoutData(cfg, codes[..last], a, b);
    }
  }

  /** The data that a request is answered with. */
  function DataFor(cfg: Config, env: Env, files: map<string, seq<byte>>, r: Request): seq<byte>
  {
    match r.action
    case RequestFile => ValueOr(Seen(files, env.end.look, r.dest))
    case Dir => ValueOr(env.listing)
    case Server => cfg.serverInfo
    case _ => []
  }

  // ----- the packet at hand ------------------------------------------------------------------

  /** Behind what was sent before, a connection has sent the packets for the responses to the packet at
      hand. */
  predicate HasSent(cfg: Config, c: Conn, before: seq<byte>, data: seq<byte>)
  {
    c.out == before + Packets(cfg, Replies(c.acts), data)
  }

  /** The same for the packet that `t` has on record on top of some others. */
  predicate SentAll(cfg: Config, done: seq<Exchange>, t: Conn, before: seq<byte>, data: seq<byte>)
  {
    |t.done| > |done| && t.out == before + Packets(cfg, Replies(t.done[|done|].acts), data)
  }

  lemma Regroup<T>(a: seq<T>, b: seq<T>, c: seq<T>)
    ensures (a + b) + c == a + (b + c)
  {
  }

  lemma SaySends(cfg: Config, u: State, code: int, source: Source, before: seq<byte>, data: seq<byte>)
    requires Fits(cfg) && HasSent(cfg, u.conn, before, data) && source.Payload() == PayloadOf(code, data)
    ensures HasSent(cfg, Say(cfg, u, code, source).conn, before, data)
  {
    var frame := Responses.Frame(cfg.serialize(code), PayloadOf(code, data));
    FrameIsSentIff(cfg.serialize(code), source);
    Snoc(u.conn.acts, Said(code));
    PacketsSnoc(cfg, Replies(u.conn.acts), code, data);
    Regroup(before, Packets(cfg, Replies(u.conn.acts), data), frame);
  }

  lemma MessageIsPayload(code: int, data: seq<byte>)
    requires code != DATA_READY
    ensures MessageSource(code).Payload() == PayloadOf(code, data)
  {
  }

  lemma FinishSends(cfg: Config, u: State, before: seq<byte>, data: seq<byte>)
    requires u.conn.request.Some? && HasSent(cfg, u.conn, before, data)
    ensures SentAll(cfg, u.conn.done, Finish(cfg, u).conn, before, data)
  {
  }

  lemma FailSends(cfg: Config, u: State, code: int, before: seq<byte>, data: seq<byte>)
    requires Fits(cfg) && u.conn.request.Some? && HasSent(cfg, u.conn, before, data) && code != DATA_READY
    ensures SentAll(cfg, u.conn.done, Fail(cfg, u, code).0.conn, before, data)
  {
    MessageIsPayload(code, data);
    SaySends(cfg, u, code, MessageSource(code), before, data);
    FinishSends(cfg, Say(cfg, u, code, MessageSource(code)), before, data);
  }

  lemma AfterPostprocessSends(cfg: Config, u: State, error: int, before: seq<byte>, data: seq<byte>)
    requires Fits(cfg) && u.conn.request.Some? && HasSent(cfg, u.conn, before, data) && error != DATA_READY
    ensures SentAll(cfg, u.conn.done, AfterPostprocess(cfg, u, error).0.conn, before, data)
  {
    if error != SUCCESS {
      FailSends(cfg, u, error, before, data);
    } else if u.conn.code != DATA_READY {
      MessageIsPayload(PACKET_OK, data);
      SaySends(cfg, u, PACKET_OK, MessageSource(PACKET_OK), before, data);
      FinishSends(cfg, Say(cfg, u, PACKET_OK, MessageSource(PACKET_OK)), before, data);
    } else {
      FinishSends(cfg, u, before, data);
    }
  }

  /** The work of an action sends nothing, or its data as one packet. */
  lemma WorkSays(cfg: Config, u: State, r: Request, v: State, error: int, data: seq<byte>)
    requires u.conn.request == Some(r) && (v, error) == ActionPostprocess(cfg, SendData(cfg, u))
    requires data == DataFor(cfg, EnvOf(cfg, u), u.world.disk.files, r)
    ensures error != DATA_READY && v.conn.done == u.conn.done && v.conn.request == u.conn.request
    ensures if r.action.RequestFile? then v.conn == Say(cfg, u, DATA_READY, File(data)).conn
            else if r.action.Dir? || r.action.Server? then v.conn == Say(cfg, u, DATA_READY, Message(data)).conn
            else v.conn == u.conn
  {
  }

  lemma WorkSends(cfg: Config, u: State, r: Request, before: seq<byte>, data: seq<byte>)
    requires Fits(cfg) && u.conn.request == Some(r) && HasSent(cfg, u.conn, before, data)
    requires data == DataFor(cfg, EnvOf(cfg, u), u.world.disk.files, r)
    ensures HasSent(cfg, ActionPostprocess(cfg, SendData(cfg, u)).0.conn, before, data)
  {
    var (v, error) := ActionPostprocess(cfg, SendData(cfg, u));
    WorkSays(cfg, u, r, v, error, data);
    if r.action.RequestFile? {
      SaySends(cfg, u, DATA_READY, File(data), before, data);
    } else if r.action.Dir? || r.action.Server? {
      SaySends(cfg, u, DATA_READY, Message(data), before, data);
    }
  }

  lemma UploadDoneSends(cfg: Config, u: State, r: Request, before: seq<byte>, data: seq<byte>)
    requires Fits(cfg) && u.conn.request == Some(r) && HasSent(cfg, u.conn, before, data)
    requires data == DataFor(cfg, EnvOf(cfg, u), u.world.disk.files, r)
    ensures SentAll(cfg, u.conn.done, UploadDone(cfg, u).0.conn, before, data)
  {
    if r.confirm && u.conn.got != ACCEPT {
      FailSends(cfg, u, NETWORK_ERROR_WRITE, before, data);
    } else {
      var (v, error) := ActionPostprocess(cfg, SendData(cfg, u));
      WorkSays(cfg, u, r, v, error, data);
      WorkSends(cfg, u, r, before, data);
      AfterPostprocessSends(cfg, v, error, before, data);
    }
  }

  // ----- callbacks ---------------------------------------------------------------------------

  /** What a connection `c` has sent when it has become `t`: the packets for the responses to the packet
      at hand, or for all responses to the packet on record. */
  predicate Sends(cfg: Config, env: Env, files: map<string, seq<byte>>, c: Conn, t: Conn, before: seq<byte>)
  {
    if |t.done| > |c.done| then SentAll(cfg, c.done, t, before, DataFor(cfg, env, files, t.done[|c.done|].request))
    else HasSent(cfg, t, before, [])
  }

  lemma RefusalSends(cfg: Config, env: Env, files: map<string, seq<byte>>, c: Conn, u: State, code: int,
                     before: seq<byte>)
    requires Fits(cfg) && u.conn.request.Some? && u.conn.done == c.done && Replies(u.conn.acts) == []
    requires HasSent(cfg, u.conn, before, []) && code != DATA_READY
    ensures Sends(cfg, env, files, c, Fail(cfg, u, code).0.conn, before)
  {
    var t := Fail(cfg, u, code).0.conn;
    var data := DataFor(cfg, env, files, t.done[|c.done|].request);
    FailSends(cfg, u, code, before, data);
  }

  lemma AwaitSends(cfg: Config, u: State, code: int, phase: Phase, length: nat, before: seq<byte>)
    requires Fits(cfg) && HasSent(cfg, u.conn, before, []) && code != DATA_READY
    ensures HasSent(cfg, Await(Say(cfg, u, code, MessageSource(code)), phase, length).conn, before, [])
  {
    MessageIsPayload(code, []);
    SaySends(cfg, u, code, MessageSource(code), before, []);
  }

  /** The request at hand has been prepared: a request for a file awaits confirmation. */
  predicate Confirms(r: Request)
  {
    r.confirm <==> r.action.RequestFile?
  }

  lemma AfterPostprocessKeepsRequest(cfg: Config, v: State, error: int, r: Request)
    requires v.conn.request == Some(r)
    ensures var t := AfterPostprocess(cfg, v, error).0.conn;
            |t.done| == |v.conn.done| + 1 && t.done[|v.conn.done|].request == r
  {
  }

  lemma UploadDoneKeepsRequest(cfg: Config, u: State, r: Request)
    requires u.conn.request == Some(r)
    ensures var t := UploadDone(cfg, u).0.conn;
            |t.done| == |u.conn.done| + 1 && t.done[|u.conn.done|].request == r
  {
    if !(r.confirm && u.conn.got != ACCEPT) {
      var (v, error) := ActionPostprocess(cfg, SendData(cfg, u));
      WorkSaysData(cfg, u);
      AfterPostprocessKeepsRequest(cfg, v, error, r);
    }
  }

  lemma AfterPreprocessSends(cfg: Config, env: Env, files: map<string, seq<byte>>, c: Conn, u: State, r: Request,
                             error: int, before: seq<byte>)
    requires Fits(cfg) && u.conn.request == Some(r) && u.conn.done == c.done && Replies(u.conn.acts) == []
    requires HasSent(cfg, u.conn, before, []) && error != DATA_READY && env == EnvOf(cfg, u)
    requires error == SUCCESS ==> Confirms(r)
    ensures Sends(cfg, env, files, c, AfterPreprocess(cfg, u, error).0.conn, before)
  {
    if error != SUCCESS {
      RefusalSends(cfg, env, files, c, u, error, before);
    } else if r.info.dataLength > 0 {
      AwaitSends(cfg, u, DATA_SEND, ConfirmUpload, r.info.dataLength, before);
    } else if r.confirm {
      AwaitSends(cfg, u, DATA_MORE, Phase.Upload, ACCEPT_LENGTH, before);
    } else {
      UploadDoneKeepsRequest(cfg, u, r);
      UploadDoneSends(cfg, u, r, before, DataFor(cfg, env, files, r));
    }
  }

  lemma AfterSetupSends(cfg: Config, env: Env, files: map<string, seq<byte>>, c: Conn, u: State, r: Request,
                        list: seq<Pair>, error: int, before: seq<byte>)
    requires Fits(cfg) && u.conn.request == Some(r) && u.conn.done == c.done && Replies(u.conn.acts) == [] && !r.confirm
    requires HasSent(cfg, u.conn, before, []) && error != DATA_READY && env == EnvOf(cfg, u)
    ensures Sends(cfg, env, files, c, AfterSetup(cfg, u, r, list, error).0.conn, before)
  {
    if error != SUCCESS {
      RefusalSends(cfg, env, files, c, u, error, before);
    } else {
      var v := OpenTemp(cfg, u, r);
      var (w, r1, error1) := Preprocess(cfg, v, r, list);
      PreparedSends(cfg, u, r, list, v, w, r1, error1);
      var act := Prepared(r1.action, error1 == SUCCESS);
      Snoc(u.conn.acts, act);
      AfterPreprocessSends(cfg, env, files, c, w.(conn := w.conn.(request := Some(r1), acts := w.conn.acts + [act])),
                           r1, error1, before);
    }
  }

  lemma PreparedSends(cfg: Config, u: State, r: Request, list: seq<Pair>, v: State, w: State, r1: Request, error: int)
    requires v == OpenTemp(cfg, u, r) && (w, r1, error) == Preprocess(cfg, v, r, list) && !r.confirm
    ensures w.conn == u.conn.(fileOpen := w.conn.fileOpen) && w.world.ticks == u.world.ticks && error != DATA_READY
    ensures error == SUCCESS ==> Confirms(r1)
  {
    PreprocessKeeps(cfg, v, r, list);
    TicksStay(cfg, u, r, list);
  }

  lemma TicksStay(cfg: Config, u: State, r: Request, list: seq<Pair>)
    ensures Preprocess(cfg, OpenTemp(cfg, u, r), r, list).0.world.ticks == u.world.ticks
    ensures OpenTemp(cfg, u, r).conn == u.conn.(fileOpen := OpenTemp(cfg, u, r).conn.fileOpen)
  {
  }

  lemma AfterAuthSends(cfg: Config, env: Env, files: map<string, seq<byte>>, c: Conn, u: State, r: Request,
                       list: seq<Pair>, error: int, before: seq<byte>)
    requires Fits(cfg) && u.conn.request == Some(r) && u.conn.done == c.done && Replies(u.conn.acts) == [] && !r.confirm
    requires HasSent(cfg, u.conn, before, []) && error != DATA_READY && env == EnvOf(cfg, u)
    ensures Sends(cfg, env, files, c, AfterAuth(cfg, u, r, list, error).0.conn, before)
  {
    if error != SUCCESS {
      RefusalSends(cfg, env, files, c, u, error, before);
    } else {
      var (v, r1, error1) := SetupEnvironment(cfg, u, r, list);
      SetupKeeps(cfg, u, r, list);
      SetupKeepsTicks(cfg, u, r, list);
      AfterSetupSends(cfg, env, files, c, v.(conn := v.conn.(request := Some(r1))), r1, list, error1, before);
    }
  }

  lemma SetupKeepsTicks(cfg: Config, u: State, r: Request, list: seq<Pair>)
    ensures SetupEnvironment(cfg, u, r, list).0.world.ticks == u.world.ticks
  {
  }

  lemma CredentialsSend(cfg: Config, u: State, list: seq<Pair>, v: State, error: int, before: seq<byte>)
    requires u.conn.acts == [] && HasSent(cfg, u.conn, before, []) && (v, error) == AuthTransaction(cfg, u, list)
    ensures Replies(v.conn.acts) == [] && HasSent(cfg, v.conn, before, []) && v.conn.request == u.conn.request
    ensures v.world == u.world && v.conn.done == u.conn.done && error != DATA_READY
  {
    CredentialsAre(cfg, u, list);
    Snoc([], Asked(Known(cfg, list) && EnvOf(cfg, u).login));
    assert Replies([]) == [];
  }

  lemma HeadersDoneSends(cfg: Config, s: State, before: seq<byte>)
    requires Fits(cfg) && s.conn.request.Some? && s.conn.acts == [] && !s.conn.request.value.confirm
    requires HasSent(cfg, s.conn, before, [])
    ensures Sends(cfg, EnvOf(cfg, s), s.world.disk.files, s.conn, HeadersDone(cfg, s).0.conn, before)
  {
    var env, files, list := EnvOf(cfg, s), s.world.disk.files, cfg.parse(s.conn.got);
    var r := s.conn.request.value.(action := ReadAction(cfg.reading, list));
    var u := s.(conn := s.conn.(request := Some(r)));
    if HasAll(cfg, list, Required(r.action, cfg.strayRow)) {
      var (v, error) := AuthTransaction(cfg, u, list);
      CredentialsSend(cfg, u, list, v, error, before);
      AfterAuthSends(cfg, env, files, s.conn, v, r, list, error, before);
    } else {
      RefusalSends(cfg, env, files, s.conn, u, MISSING_ATTRIBS, before);
    }
  }

  lemma WaitingSends(cfg: Config, s: State, r: Request, before: seq<byte>)
    requires Fits(cfg) && s.conn.request == Some(r) && HasSent(cfg, s.conn, before, [])
    requires DATA_READY !in Replies(s.conn.acts)
    ensures Sends(cfg, EnvOf(cfg, s), s.world.disk.files, s.conn, UploadDone(cfg, s).0.conn, before)
  {
    var data := DataFor(cfg, EnvOf(cfg, s), s.world.disk.files, r);
    PacketsWithoutData(cfg, Replies(s.conn.acts), [], data);
    UploadDoneSends(cfg, s, r, before, data);
    UploadDoneKeepsRequest(cfg, s, r);
  }

  lemma CallbackSends(cfg: Config, s: State, before: seq<byte>)
    requires Fits(cfg) && Sound(s.conn) && s.conn.open && s.conn.index == s.conn.length
    requires HasSent(cfg, s.conn, before, [])
    ensures Sends(cfg, EnvOf(cfg, s), s.world.disk.files, s.conn, Callback(cfg, s).0.conn, before)
  {
    match s.conn.phase {
      case MagicRead =>
      case HeadersRead => HeadersDoneSends(cfg, s, before);
      case ConfirmUpload =>
        PhaseDoneIsCurrent(s.conn);
        WaitingSends(cfg, s, s.conn.request.value, before);
      case Upload =>
        PhaseDoneIsCurrent(s.conn);
        WaitingSends(cfg, s, s.conn.request.value, before);
    }
  }

  lemma AfterCallbackSends(cfg: Config, env: Env, files: map<string, seq<byte>>, c: Conn, u: State, ok: bool,
                           before: seq<byte>)
    requires Sends(cfg, env, files, c, u.conn, before) && (ok || |u.conn.done| > |c.done| || u.conn.acts == [])
    ensures Sends(cfg, env, files, c, AfterCallback(cfg, u, ok).conn, before)
  {
  }

  lemma MagicSaysNothing(cfg: Config, s: State)
    requires Sound(s.conn) && s.conn.phase.MagicRead?
    ensures Callback(cfg, s).0.conn.acts == []
  {
  }

  lemma DispatchSends(cfg: Config, s: State, t: State, before: seq<byte>)
    requires Fits(cfg) && Sound(s.conn) && s.conn.open && s.conn.index == s.conn.length && t == Dispatch(cfg, s)
    requires HasSent(cfg, s.conn, before, [])
    ensures Sends(cfg, EnvOf(cfg, s), s.world.disk.files, s.conn, t.conn, before)
  {
    CallbackSends(cfg, s, before);
    if s.conn.phase.MagicRead? {
      MagicSaysNothing(cfg, s);
    } else {
      FailingCallbackEnds(cfg, s);
      CallbackEnds(cfg, s);
    }
    AfterCallbackSends(cfg, EnvOf(cfg, s), s.world.disk.files, s.conn, Callback(cfg, s).0, Callback(cfg, s).1, before);
  }

  // ----- events ------------------------------------------------------------------------------

  lemma ReadKeepsSent(cfg: Config, s: State, n: nat, u: State, before: seq<byte>)
    requires s.conn.consumed + n <= |s.conn.input| && u == ReadSome(cfg, s, n) && HasSent(cfg, s.conn, before, [])
    ensures HasSent(cfg, u.conn, before, []) && u.conn.done == s.conn.done && u.world.ticks == s.world.ticks
    ensures u.conn.request == s.conn.request && (s.conn.fileOpen || u.world == s.world)
    ensures u.conn.fileOpen == s.conn.fileOpen
  {
  }

  /** The data that the packet on record was answered with does not depend on its temporary file. */
  lemma DataStays(cfg: Config, s: State, u: State, t: Conn)
    requires Sound(u.conn) && u.conn.open && u.conn.index == u.conn.length && t == Dispatch(cfg, u).conn
    requires u.conn.done == s.conn.done && u.world.ticks == s.world.ticks && (u.conn.fileOpen || u.world == s.world)
    requires |t.done| > |s.conn.done|
    ensures DataFor(cfg, EnvOf(cfg, u), u.world.disk.files, t.done[|s.conn.done|].request)
            == DataFor(cfg, EnvOf(cfg, s), s.world.disk.files, t.done[|s.conn.done|].request)
  {
    if u.conn.fileOpen {
      UploadDoneKeepsRequest(cfg, u, u.conn.request.value);
    }
  }

  /** An event sends, behind what was sent for earlier packets, one packet for every response to the
      packet at hand, in their order. */
  lemma EventSends(cfg: Config, s: State, cuts: seq<nat>, t: State, before: seq<byte>)
    requires Fits(cfg) && Sound(s.conn) && s.conn.open && !Exits(s.conn) && t == Event(cfg, s, cuts)
    requires HasSent(cfg, s.conn, before, [])
    ensures Sends(cfg, EnvOf(cfg, s), s.world.disk.files, s.conn, t.conn, before)
  {
    var n, u := TakenNow(s.conn, cuts), AfterReads(cfg, s, cuts);
    ReadKeepsSent(cfg, s, n, u, before);
    ReadSomeIsSound(cfg, s, n);
    if u.conn.index == u.conn.length {
      DispatchSends(cfg, u, t, before);
      if |t.conn.done| > |s.conn.done| {
        DataStays(cfg, s, u, t.conn);
      }
    }
  }

  // ----- the receiving side ------------------------------------------------------------------

  /** All packets that can be taken off a stream, with their headers and payloads. */
  function ReadFrames(stream: seq<byte>): seq<(seq<byte>, seq<byte>)>
    decreases |stream|
  {
    match ReadFrame(stream)
    case Packet(header, payload, rest) => [(header, payload)] + ReadFrames(rest)
    case _ => []
  }

  /** What is to be heard for some codes. */
  function Heard(cfg: Config, codes: seq<int>, data: seq<byte>): seq<(seq<byte>, seq<byte>)>
  {
    if codes == [] then []
    else
      var last := |codes| - 1;
      Heard(cfg, codes[..last], data) + [(Padded(cfg.serialize(codes[last])), PayloadOf(codes[last], data))]
  }

  lemma TextsAreShort(code: int)
    ensures |ResponseMessage(code)| < 100
  {
  }

  lemma FrameIsHeard(header: seq<byte>, payload: seq<byte>, rest: seq<byte>)
    requires |header| <= 4080 && |payload| < 0x100_0000_0000
    ensures ReadFrames(Responses.Frame(header, payload) + rest) == [(Padded(header), payload)] + ReadFrames(rest)
  {
    FrameRoundTripIff(header, payload, rest);
  }

  /** The packets for some codes are read back as exactly those. */
  lemma {:induction false} PacketsAreHeard(cfg: Config, codes: seq<int>, data: seq<byte>, rest: seq<byte>)
    requires Fits(cfg) && |data| < 0x100_0000_0000
    ensures ReadFrames(Packets(cfg, codes, data) + rest) == Heard(cfg, codes, data) + ReadFrames(rest)
  {
    if codes == [] {
      assert Packets(cfg, codes, data) + rest == rest;
    } else {
      var last := |codes| - 1;
      var header, payload := cfg.serialize(codes[last]), PayloadOf(codes[last], data);
      TextsAreShort(codes[last]);
      FrameIsHeard(header, payload, rest);
      Regroup(Packets(cfg, codes[..last], data), Responses.Frame(header, payload), rest);
      PacketsAreHeard(cfg, codes[..last], data, Responses.Frame(header, payload) + rest);
      Regroup(Heard(cfg, codes[..last], data), [(Padded(header), payload)], ReadFrames(rest));
    }
  }

  /** What a client reads that gets the packets for some codes. */
  lemma ReadBack(cfg: Config, out: seq<byte>, before: seq<byte>, codes: seq<int>, data: seq<byte>)
    requires Fits(cfg) && |data| < 0x100_0000_0000 && out == before + Packets(cfg, codes, data)
    ensures before <= out && ReadFrames(out[|before|..]) == Heard(cfg, codes, data)
  {
    assert out[|before|..] == Packets(cfg, codes, data) + [];
    PacketsAreHeard(cfg, codes, data, []);
    assert ReadFrames([]) == [];
  }

  /** The texts that go out with the codes. */
  lemma TextsOfAnswers()
    ensures ResponseMessage(DATA_SEND) == "Send data" && ResponseMessage(PACKET_OK) == "OK"
    ensures ResponseMessage(DATA_MORE) == "" && ResponseMessage(FAILED_AUTHENTICATION) == "Failed authentication."
  {
  }

  lemma TextsOfRefusals()
    ensures ResponseMessage(MISSING_ATTRIBS) == "Required attributes not present."
    ensures ResponseMessage(ATTRIB_VALUE_INVALID) == "Invalid values."
    ensures ResponseMessage(FILE_EXISTS_ALREADY) == "File already exists."
    ensures ResponseMessage(FILE_NOT_FOUND) == "File does not exists"
  {
  }

  lemma TextsOfOtherRefusals()
    ensures ResponseMessage(FILE_UPDATE_OUTOFBOUNDS) == "Update index out of bounds."
    ensures ResponseMessage(UNEXPECTED_DATA_FROM_CLIENT)
            == "Unexpected data from client for the requested action type."
    ensures ResponseMessage(SERVER_INTERNAL_ERROR) == "Internal server error."
  {
  }

  /** The numbers of the codes that go out without a text. */
  lemma SilentCodes()
    ensures [DATA_MORE, DATA_READY, FOLDER_NOT_FOUND, NOTIFY_TOOBIG] == [3, 4, 41, 42]
    ensures [MIX_AUTH_ERROR, SERVER_FILE_ERROR, NETWORK_ERROR_WRITE, CANNOT_CREATE_TEMP_FILE] == [45, 135, 138, 140]
  {
  }

  // ----- whole connections -------------------------------------------------------------------

  /** The packets for all responses to some packets on record, each with its data. */
  function Transcript(cfg: Config, done: seq<Exchange>, datas: seq<seq<byte>>): seq<byte>
    requires |datas| == |done|
  {
    if done == [] then []
    else
      var last := |done| - 1;
      Transcript(cfg, done[..last], datas[..last]) + Packets(cfg, Replies(done[last].acts), datas[last])
  }

  /** All that a connection has sent are the packets for its responses, packet by packet. */
  ghost predicate Speaks(cfg: Config, c: Conn)
  {
    exists datas: seq<seq<byte>> :: |datas| == |c.done| && HasSent(cfg, c, Transcript(cfg, c.done, datas), [])
  }

  lemma TranscriptGrows(cfg: Config, done: seq<Exchange>, datas: seq<seq<byte>>, e: Exchange, data: seq<byte>)
    requires |datas| == |done|
    ensures |datas + [data]| == |done + [e]|
    ensures Transcript(cfg, done + [e], datas + [data]) ==
            Transcript(cfg, done, datas) + Packets(cfg, Replies(e.acts), data)
  {
    assert (done + [e])[..|done|] == done && (datas + [data])[..|done|] == datas;
  }

  lemma RecordSpeaks(cfg: Config, c: Conn, t: Conn, datas: seq<seq<byte>>, e: Exchange, data: seq<byte>)
    requires |datas| == |c.done| && t.done == c.done + [e] && t.acts == []
    requires t.out == Transcript(cfg, c.done, datas) + Packets(cfg, Replies(e.acts), data)
    ensures Speaks(cfg, t)
  {
    TranscriptGrows(cfg, c.done, datas, e, data);
    assert t.out == t.out + Packets(cfg, Replies([]), []);
    assert HasSent(cfg, t, Transcript(cfg, t.done, datas + [data]), []);
  }

  lemma SpeaksStill(cfg: Config, done: seq<Exchange>, t: Conn, datas: seq<seq<byte>>)
    requires |datas| == |done| && t.done == done && HasSent(cfg, t, Transcript(cfg, done, datas), [])
    ensures Speaks(cfg, t)
  {
  }

  lemma OneMore(done: seq<Exchange>, more: seq<Exchange>)
    requires |more| == |done| + 1 && more[..|done|] == done
    ensures more == done + [more[|done|]]
  {
  }

  lemma SpeaksOn(cfg: Config, env: Env, files: map<string, seq<byte>>, c: Conn, t: Conn, datas: seq<seq<byte>>,
                 before: seq<byte>)
    requires |datas| == |c.done| && before == Transcript(cfg, c.done, datas) && Sends(cfg, env, files, c, t, before)
    requires t.done == c.done || (|t.done| == |c.done| + 1 && t.done[..|c.done|] == c.done && t.acts == [])
    ensures Speaks(cfg, t)
  {
    if |t.done| == |c.done| {
      SpeaksStill(cfg, c.done, t, datas);
    } else {
      var e := t.done[|c.done|];
      OneMore(c.done, t.done);
      RecordSpeaks(cfg, c, t, datas, e, DataFor(cfg, env, files, e.request));
    }
  }

  lemma NewConnSpeaks(cfg: Config, input: seq<byte>)
    ensures Speaks(cfg, NewConn(input))
  {
    var datas: seq<seq<byte>> := [];
    assert HasSent(cfg, NewConn(input), Transcript(cfg, [], datas), []);
  }

  lemma DispatchRecordsOne(cfg: Config, s: State, t: State)
    requires Sound(s.conn) && s.conn.open && s.conn.index == s.conn.length && t == Dispatch(cfg, s)
    ensures t.conn.done == s.conn.done
            || (|t.conn.done| == |s.conn.done| + 1 && t.conn.done[..|s.conn.done|] == s.conn.done && t.conn.acts == [])
  {
    DispatchIsSound(cfg, s);
    OneRecordPerPacket(cfg, s);
  }

  lemma EventSpeaks(cfg: Config, s: State, cuts: seq<nat>, t: State)
    requires Fits(cfg) && Sound(s.conn) && s.conn.open && !Exits(s.conn) && t == Event(cfg, s, cuts)
    requires Speaks(cfg, s.conn)
    ensures Speaks(cfg, t.conn)
  {
    var datas: seq<seq<byte>> :|
      |datas| == |s.conn.done| && HasSent(cfg, s.conn, Transcript(cfg, s.conn.done, datas), []);
    var before := Transcript(cfg, s.conn.done, datas);
    EventSends(cfg, s, cuts, t, before);
    EventRecordsOne(cfg, s, cuts, t);
    SpeaksOn(cfg, EnvOf(cfg, s), s.world.disk.files, s.conn, t.conn, datas, before);
  }

  lemma EventRecordsOne(cfg: Config, s: State, cuts: seq<nat>, t: State)
    requires Sound(s.conn) && s.conn.open && !Exits(s.conn) && t == Event(cfg, s, cuts)
    ensures t.conn.done == s.conn.done
            || (|t.conn.done| == |s.conn.done| + 1 && t.conn.done[..|s.conn.done|] == s.conn.done && t.conn.acts == [])
  {
    var n, u := TakenNow(s.conn, cuts), AfterReads(cfg, s, cuts);
    ReadSomeIsSound(cfg, s, n);
    ReadKeepsDone(cfg, s, n, u);
    if u.conn.index == u.conn.length {
      DispatchRecordsOne(cfg, u, t);
    }
  }

  lemma ReadKeepsDone(cfg: Config, s: State, n: nat, u: State)
    requires s.conn.consumed + n <= |s.conn.input| && u == ReadSome(cfg, s, n)
    ensures u.conn.done == s.conn.done
  {
  }

  // ----- the server --------------------------------------------------------------------------

  ghost predicate AllSpeak(cfg: Config, srv: Hub)
  {
    forall fd :: fd in srv.conns ==> Speaks(cfg, srv.conns[fd])
  }

  lemma PutBackSpeaks(cfg: Config, srv: Hub, fd: int, t: State)
    requires AllSpeak(cfg, srv) && (t.conn.open ==> Speaks(cfg, t.conn))
    ensures AllSpeak(cfg, PutBack(srv, fd, t))
  {
  }

  lemma StepSpeaks(cfg: Config, srv: Hub, e: ServerEvent)
    requires Fits(cfg) && AllSound(srv) && AllSpeak(cfg, srv)
    ensures ServerStep(cfg, srv, e).Up? ==> AllSpeak(cfg, ServerStep(cfg, srv, e).hub)
  {
    if e.Accept? {
      NewConnSpeaks(cfg, e.input);
    } else if e.fd in srv.conns && !Fatal(cfg, srv, e) {
      var t := Afterwards(cfg, srv, e);
      if e.Readable? {
        EventSpeaks(cfg, State(srv.conns[e.fd], srv.world), e.cuts, t);
      } else {
        HangUpCloses(cfg, State(srv.conns[e.fd], srv.world));
      }
      PutBackSpeaks(cfg, srv, e.fd, t);
    }
  }

  lemma HangUpCloses(cfg: Config, s: State)
    ensures !HangUp(cfg, s).conn.open
  {
  }

  /** In every run, whatever the clients send, each of them has got nothing but the packets for the
      responses on record, in their order, and those to the packet at hand. */
  lemma {:induction false} EveryRunSpeaks(cfg: Config, srv: Hub, events: seq<ServerEvent>)
    requires Fits(cfg) && AllSound(srv) && AllSpeak(cfg, srv)
    ensures RunServer(cfg, srv, events).Up? ==> AllSpeak(cfg, RunServer(cfg, srv, events).hub)
    decreases events
  {
    if events != [] {
      StepSpeaks(cfg, srv, events[0]);
      StepKeepsSound(cfg, srv, events[0]);
      if ServerStep(cfg, srv, events[0]).Up? {
        EveryRunSpeaks(cfg, ServerStep(cfg, srv, events[0]).hub, events[1..]);
      }
    }
  }

  /** A step puts a packet on record: what its client gets for it, read back, is the body asked for, or
      the confirmation, if it was, and then the one final response, with the text of its code or with the
      file, the listing or the server information. */
  lemma FinishedPacketIsHeard(cfg: Config, s: State, cuts: seq<nat>, t: State, before: seq<byte>, e: Exchange,
                              data: seq<byte>)
    requires Fits(cfg) && Sound(s.conn) && s.conn.open && !Exits(s.conn) && t == Event(cfg, s, cuts)
    requires HasSent(cfg, s.conn, before, []) && |t.conn.done| > |s.conn.done| && e == t.conn.done[|s.conn.done|]
    requires data == DataFor(cfg, EnvOf(cfg, s), s.world.disk.files, e.request) && |data| < 0x100_0000_0000
    ensures before <= t.conn.out
    ensures exists code :: IsFinal(code)
              && ReadFrames(t.conn.out[|before|..])
                 == Heard(cfg, Interim(e.request.info.dataLength, e.acts) + [code], data)
              && Replies(e.acts) == Interim(e.request.info.dataLength, e.acts) + [code]
  {
    EventSends(cfg, s, cuts, t, before);
    EventIsSound(cfg, s, cuts);
    assert Answered(e);
    ReadBack(cfg, t.conn.out, before, Replies(e.acts), data);
  }
}

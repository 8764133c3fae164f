/** What the headers of a packet come to: which are refused, with which code, and what an accepted
    request goes on with, told by the entries of the headers, the users, the metadata and the files. */
module Verdicts {
  import opened Exchanges
  import opened FileStore
  import opened Headers
  import opened Hex
  import opened PathAlgebra
  import opened Protocol
  import opened Responses
  import opened Wire

  // ----- what headers are judged by ----------------------------------------------------------

  predicate Carries(cfg: Config, list: seq<Pair>, keys: set<string>)
  {
    forall key :: key in keys ==> cfg.lookup(list, key).Some?
  }

  /** The entries that an action cannot do without. */
  function Needed(cfg: Config, action: Action): set<string>
  {
    match action
    case Create => {"action", "filename", "username", "secret"}
    case Delete => {"action", "filename", "username", "secret"}
    case Dir => {"action", "dirname", "username", "secret"}
    case Login => {"username", "secret"}
    case Notification => {"action"}
    case RequestFile => {"action", "username", "secret"}
    case Server => {"action"}
    case Update => {"action", "filename", "updateat", "trim", "username", "secret"}
    case Invalid => set key | key in cfg.strayRow
  }

  /** The text of the user name, with the digest of the text of the secret, is that of a user. */
  predicate Known(cfg: Config, list: seq<Pair>)
  {
    match (cfg.lookup(list, "username"), cfg.lookup(list, "secret"))
    case (Some(name), Some(secret)) => (name.text, Hexify(cfg.sha256(Bytes(secret.text)))) in cfg.users
    case _ => false
  }

  /** The code for credentials: exactly one of the two entries, or both and no such user. */
  function OfCredentials(cfg: Config, env: Env, list: seq<Pair>): int
  {
    var user, secret := cfg.lookup(list, "username").Some?, cfg.lookup(list, "secret").Some?;
    if user != secret then MIX_AUTH_ERROR
    else if user && !(Known(cfg, list) && env.login) then FAILED_AUTHENTICATION
    else SUCCESS
  }

  /** The code for names and folders. */
  function OfNames(cfg: Config, env: Env, list: seq<Pair>, action: Action): int
  {
    var file := cfg.lookup(list, "filename");
    if !env.tempFolder then CANNOT_CREATE_TEMP_FILE
    else if file.Some? && file.value.text == "" then ATTRIB_VALUE_INVALID
    else if file.Some? && !env.filesFolder then SETUP_ENVIRONMENT_FAILED
    else if file.Some? && (action == Create || action == Update) && !env.makeFolders then SETUP_ENVIRONMENT_FAILED
    else SUCCESS
  }

  /** A temporary file is opened for the request. */
  predicate Opens(cfg: Config, s: State, action: Action)
  {
    && (action == Create || action == Update || action == Notification) && EnvOf(cfg, s).tempOpens
    && forall path :: path in s.world.disk.files ==> !Below(path, cfg.names.temp(s.world.counter + 1))
  }

  /** The files once it has been. */
  function FilesThen(cfg: Config, s: State, action: Action): map<string, seq<byte>>
  {
    if Opens(cfg, s, action) then s.world.disk.files[cfg.names.temp(s.world.counter + 1) := []] else s.world.disk.files
  }

  /** The file of a name has a row and can be opened; its length. */
  function StoredLength(cfg: Config, s: State, list: seq<Pair>, action: Action): Option<nat>
  {
    var files, look := FilesThen(cfg, s, action), EnvOf(cfg, s).look;
    match cfg.lookup(list, "filename")
    case None => None
    case Some(name) =>
      var path := cfg.names.stored(name.text);
      if !look.works || !(exists row :: row in s.world.disk.rows && row.name == cfg.names.key(name.text)) then None
      else if path in files then Some(|files[path]|)
      else if look.folder.Some? then Some(|look.folder.value|)
      else None
  }

  /** The code for what the action itself demands. */
  function OfAction(cfg: Config, s: State, list: seq<Pair>, action: Action, size: nat): int
  {
    var env, stored := EnvOf(cfg, s), StoredLength(cfg, s, list, action);
    match action
    case Create => if stored.Some? && cfg.lookup(list, "append").None? then FILE_EXISTS_ALREADY else SUCCESS
    case Update =>
      if stored.None? then FILE_NOT_FOUND
      else if cfg.lookup(list, "updateat").None? || cfg.lookup(list, "trim").None? then ATTRIB_VALUE_INVALID
      else if 0 <= cfg.lookup(list, "updateat").value.length <= stored.value then SUCCESS
      else FILE_UPDATE_OUTOFBOUNDS
    case Notification => if size == 0 || size >= 16384 then NOTIFY_TOOBIG else SUCCESS
    case Delete =>
      if size > 0 then UNEXPECTED_DATA_FROM_CLIENT else if env.database then SUCCESS else SERVER_INTERNAL_ERROR
    case RequestFile =>
      if stored.None? then FILE_NOT_FOUND else if size > 0 then UNEXPECTED_DATA_FROM_CLIENT else SUCCESS
    case Dir =>
      if !env.folderFound then FOLDER_NOT_FOUND else if size > 0 then UNEXPECTED_DATA_FROM_CLIENT else SUCCESS
    case Server => if size > 0 then UNEXPECTED_DATA_FROM_CLIENT else SUCCESS
    case Login => SUCCESS
    case Invalid => SERVER_INTERNAL_ERROR
  }

  /** The first objection there is, or none. */
  function Verdict(cfg: Config, s: State, list: seq<Pair>, action: Action, size: nat): int
  {
    var env := EnvOf(cfg, s);
    if !Carries(cfg, list, Needed(cfg, action)) then MISSING_ATTRIBS
    else if OfCredentials(cfg, env, list) != SUCCESS then OfCredentials(cfg, env, list)
    else if OfNames(cfg, env, list, action) != SUCCESS then OfNames(cfg, env, list, action)
    else OfAction(cfg, s, list, action, size)
  }

  // ----- what becomes of a packet ------------------------------------------------------------

  /** What the packet at hand in `c` has caused when it has become `t`. */
  function Caused(c: Conn, t: Conn): seq<Act>
  {
    if |t.done| > |c.done| then t.done[|c.done|].acts else t.acts
  }

  /** Nothing stored has changed. */
  ghost predicate NothingStored(cfg: Config, s: State, t: State)
  {
    && t.world.disk.rows == s.world.disk.rows
    && forall path ::
         path == cfg.names.temp(s.world.counter + 1) || SameAt(s.world.disk.files, t.world.disk.files, path)
  }

  /** The packet has been answered with one code, and nothing is stored; the connection is closed if
      and only if the code is an error. */
  ghost predicate Refused(cfg: Config, s: State, t: State, code: int)
    requires s.conn.request.Some?
  {
    && |t.conn.done| == |s.conn.done| + 1 && t.conn.done[..|s.conn.done|] == s.conn.done
    && t.conn.done[|s.conn.done|].request.info == s.conn.request.value.info
    && Replies(t.conn.done[|s.conn.done|].acts) == [code] && !Accepted(t.conn.done[|s.conn.done|].acts)
    && t.conn.request.None? && t.conn.open == (code <= 128)
    && NothingStored(cfg, s, t)
  }

  /** The request that accepted headers make. */
  function RequestFor(cfg: Config, s: State, list: seq<Pair>, action: Action): Request
    requires s.conn.request.Some?
  {
    var file, at, trim := cfg.lookup(list, "filename"), cfg.lookup(list, "updateat"), cfg.lookup(list, "trim");
    Request(s.conn.request.value.info, action,
            if file.Some? then Some(cfg.names.key(file.value.text)) else None,
            if file.Some? then cfg.names.stored(file.value.text) else "",
            Some(s.world.counter + 1),
            action == RequestFile,
            action == Create && cfg.lookup(list, "append").Some?,
            if action == Update && at.Some? && at.value.length >= 0 then at.value.length else 0,
            action == Update && trim.Some? && trim.value.length != 0)
  }

  /** The request is accepted: it waits for its body, or for the client's confirmation, or it has gone
      on record. */
  ghost predicate TakenUp(s: State, t: State, r: Request, inFile: bool)
  {
    && Accepted(Caused(s.conn, t.conn)) && t.world.counter == s.world.counter + 1
    && if r.info.dataLength > 0 then
         && t.conn == s.conn.(phase := ConfirmUpload, length := r.info.dataLength, index := 0, got := [],
                              request := Some(r), fileOpen := inFile, code := DATA_SEND, out := t.conn.out,
                              acts := t.conn.acts)
         && Replies(t.conn.acts) == [DATA_SEND]
       else if r.confirm then
         && t.conn == s.conn.(phase := Phase.Upload, length := 8, index := 0, got := [], request := Some(r),
                              fileOpen := inFile, code := DATA_MORE, out := t.conn.out, acts := t.conn.acts)
         && Replies(t.conn.acts) == [DATA_MORE]
       else
         && |t.conn.done| == |s.conn.done| + 1 && t.conn.done[..|s.conn.done|] == s.conn.done
         && t.conn.done[|s.conn.done|].request == r && t.conn.done[|s.conn.done|].inFile == inFile
  }

  // ----- refusing ----------------------------------------------------------------------------

  /** A state in the middle of the headers callback, before the request is accepted. */
  ghost predicate Midway(cfg: Config, s: State, u: State)
  {
    && s.conn.request.Some? && u.conn.request.Some? && s.conn.open
    && u.conn.request.value.info == s.conn.request.value.info
    && u.conn == s.conn.(request := u.conn.request, acts := u.conn.acts, fileOpen := u.conn.fileOpen)
    && (u.conn.request.value.ticket.None? || u.conn.request.value.ticket == Some(s.world.counter + 1))
    && Replies(u.conn.acts) == [] && !Accepted(u.conn.acts)
    && NothingStored(cfg, s, u) && u.world.ticks == s.world.ticks
  }

  /** The state and the answer of a callback lead to a state. */
  ghost predicate LeadsTo(cfg: Config, result: (State, bool), t: State)
  {
    t == AfterCallback(cfg, result.0, result.1)
  }

  lemma ResetStoresNothing(cfg: Config, s: State, u: State)
    requires NothingStored(cfg, s, u)
    requires u.conn.request.Some? ==>
               var ticket := u.conn.request.value.ticket; ticket.None? || ticket == Some(s.world.counter + 1)
    ensures NothingStored(cfg, s, ResetNewPacket(cfg, u))
  {
    forall path | path != cfg.names.temp(s.world.counter + 1)
      ensures SameAt(s.world.disk.files, ResetNewPacket(cfg, u).world.disk.files, path)
    {
      assert SameAt(s.world.disk.files, u.world.disk.files, path);
    }
  }

  /** The record of a refusal, and what it leaves of the connection. */
  lemma FailRecords(cfg: Config, u: State, code: int, v: State)
    requires u.conn.request.Some? && v == Fail(cfg, u, code).0 && Replies(u.conn.acts) == [] && !Accepted(u.conn.acts)
    ensures |v.conn.done| == |u.conn.done| + 1 && v.conn.done[..|u.conn.done|] == u.conn.done
    ensures v.conn.request.None? && v.conn.open == u.conn.open
    ensures var e := v.conn.done[|u.conn.done|];
            e.request == u.conn.request.value && Replies(e.acts) == [code] && !Accepted(e.acts)
  {
    Snoc(u.conn.acts, Said(code));
  }

  lemma FailStoresNothing(cfg: Config, s: State, u: State, code: int, v: State)
    requires Midway(cfg, s, u) && v == Fail(cfg, u, code).0
    ensures NothingStored(cfg, s, v)
  {
    var said := Say(cfg, u, code, MessageSource(code));
    var e := Exchange(said.conn.request.value, said.conn.read, said.conn.acts, said.conn.fileOpen);
    ResetStoresNothing(cfg, s, said.(conn := said.conn.(done := said.conn.done + [e])));
  }

  lemma AfterFailure(cfg: Config, s: State, v: State, ok: bool, t: State)
    requires v.conn.request.None? && NothingStored(cfg, s, v) && t == AfterCallback(cfg, v, ok)
    ensures NothingStored(cfg, s, t) && t.conn.done == v.conn.done && t.conn.request.None?
    ensures t.conn.open == (v.conn.open && ok)
  {
  }

  lemma FailRefuses(cfg: Config, s: State, u: State, code: int, t: State)
    requires Midway(cfg, s, u) && LeadsTo(cfg, Fail(cfg, u, code), t)
    ensures Refused(cfg, s, t, code)
  {
    var (v, ok) := Fail(cfg, u, code);
    FailRecords(cfg, u, code, v);
    FailStoresNothing(cfg, s, u, code, v);
    AfterFailure(cfg, s, v, ok, t);
  }

  // ----- accepting ---------------------------------------------------------------------------

  /** The work of an action says at most that there is data. */
  ghost predicate SaysData(u: State, v: State)
  {
    && (v.conn.acts == u.conn.acts || v.conn.acts == u.conn.acts + [Said(DATA_READY)])
    && v.conn.request == u.conn.request && v.conn.done == u.conn.done && v.conn.fileOpen == u.conn.fileOpen
    && v.world.counter == u.world.counter
  }

  lemma WorkSaysData(cfg: Config, u: State)
    requires u.conn.request.Some?
    ensures SaysData(u, ActionPostprocess(cfg, SendData(cfg, u)).0)
  {
  }

  lemma PostprocessKeepsActs(cfg: Config, u: State)
    requires u.conn.request.Some? && Accepted(u.conn.acts)
    ensures Accepted(ActionPostprocess(cfg, SendData(cfg, u)).0.conn.acts)
    ensures SaysData(u, ActionPostprocess(cfg, SendData(cfg, u)).0)
  {
    WorkSaysData(cfg, u);
    Snoc(u.conn.acts, Said(DATA_READY));
  }

  /** The record of a packet that was accepted. */
  ghost predicate RecordsAccepted(u: State, t: State)
    requires u.conn.request.Some?
  {
    && |t.conn.done| == |u.conn.done| + 1 && t.conn.done[..|u.conn.done|] == u.conn.done
    && t.conn.done[|u.conn.done|].request == u.conn.request.value
    && t.conn.done[|u.conn.done|].inFile == u.conn.fileOpen
    && Accepted(t.conn.done[|u.conn.done|].acts) && t.world.counter == u.world.counter
  }

  lemma FinishRecords(cfg: Config, u: State)
    requires u.conn.request.Some? && Accepted(u.conn.acts)
    ensures RecordsAccepted(u, Finish(cfg, u))
  {
  }

  lemma SayThenFinishRecords(cfg: Config, u: State, code: int, source: Source)
    requires u.conn.request.Some? && Accepted(u.conn.acts)
    ensures RecordsAccepted(u, Finish(cfg, Say(cfg, u, code, source)))
  {
    Snoc(u.conn.acts, Said(code));
    FinishRecords(cfg, Say(cfg, u, code, source));
  }

  lemma AfterPostprocessRecordsActs(cfg: Config, u: State, error: int)
    requires u.conn.request.Some? && Accepted(u.conn.acts)
    ensures RecordsAccepted(u, AfterPostprocess(cfg, u, error).0)
  {
    if error != SUCCESS {
      SayThenFinishRecords(cfg, u, error, MessageSource(error));
    } else if u.conn.code != DATA_READY {
      SayThenFinishRecords(cfg, u, PACKET_OK, MessageSource(PACKET_OK));
    } else {
      FinishRecords(cfg, u);
    }
  }

  lemma AfterCallbackKeepsRecords(cfg: Config, u: State, v: State, ok: bool)
    requires u.conn.request.Some? && RecordsAccepted(u, v)
    ensures RecordsAccepted(u, AfterCallback(cfg, v, ok))
  {
  }

  lemma UploadDoneIsRecorded(cfg: Config, u: State, t: State)
    requires u.conn.request.Some? && Accepted(u.conn.acts) && !u.conn.request.value.confirm
    requires LeadsTo(cfg, UploadDone(cfg, u), t)
    ensures RecordsAccepted(u, t)
  {
    var (v, error) := ActionPostprocess(cfg, SendData(cfg, u));
    PostprocessKeepsActs(cfg, u);
    AfterPostprocessRecordsActs(cfg, v, error);
    AfterCallbackKeepsRecords(cfg, u, UploadDone(cfg, u).0, UploadDone(cfg, u).1);
  }

  /** A state in which the request has just been accepted. */
  ghost predicate Prepped(s: State, u: State, r: Request)
  {
    && u.conn == s.conn.(request := Some(r), acts := u.conn.acts, fileOpen := u.conn.fileOpen)
    && Accepted(u.conn.acts) && Replies(u.conn.acts) == [] && u.world.counter == s.world.counter + 1
  }

  lemma AcceptedIsTakenUp(cfg: Config, s: State, u: State, r: Request, t: State)
    requires Prepped(s, u, r) && LeadsTo(cfg, AfterPreprocess(cfg, u, SUCCESS), t)
    ensures TakenUp(s, t, r, u.conn.fileOpen)
  {
    if r.info.dataLength > 0 {
      Snoc(u.conn.acts, Said(DATA_SEND));
    } else if r.confirm {
      Snoc(u.conn.acts, Said(DATA_MORE));
    } else {
      UploadDoneIsRecorded(cfg, u, t);
    }
  }

  // ----- the steps of the callback -----------------------------------------------------------

  lemma CarriesIff(cfg: Config, list: seq<Pair>, action: Action)
    ensures HasAll(cfg, list, Required(action, cfg.strayRow)) <==> Carries(cfg, list, Needed(cfg, action))
  {
    var keys := Required(action, cfg.strayRow);
    assert forall key :: key in Needed(cfg, action) <==> key in keys;
    forall i | 0 <= i < |keys|
      ensures keys[i] in Needed(cfg, action)
    {
    }
  }

  lemma CredentialsAre(cfg: Config, s: State, list: seq<Pair>)
    ensures AuthTransaction(cfg, s, list).1 == OfCredentials(cfg, EnvOf(cfg, s), list)
    ensures var acts := AuthTransaction(cfg, s, list).0.conn.acts;
            acts == s.conn.acts + if cfg.lookup(list, "username").Some? && cfg.lookup(list, "secret").Some?
                                  then [Asked(Known(cfg, list) && EnvOf(cfg, s).login)] else []
    ensures AuthTransaction(cfg, s, list).0
            == s.(conn := s.conn.(acts := AuthTransaction(cfg, s, list).0.conn.acts))
  {
  }

  lemma NamesAre(cfg: Config, s: State, r: Request, list: seq<Pair>)
    requires r.key.None? && r.dest == ""
    ensures var (s1, r1, error) := SetupEnvironment(cfg, s, r, list);
            && error == OfNames(cfg, EnvOf(cfg, s), list, r.action)
            && s1 == s.(world := s.world.(counter := s1.world.counter))
            && (r1.ticket == r.ticket || r1.ticket == Some(s.world.counter + 1))
            && r1.info == r.info
            && (error == SUCCESS ==>
                  && s1.world.counter == s.world.counter + 1
                  && r1 == r.(ticket := Some(s.world.counter + 1),
                              key := if cfg.lookup(list, "filename").Some?
                                     then Some(cfg.names.key(cfg.lookup(list, "filename").value.text)) else None,
                              dest := if cfg.lookup(list, "filename").Some?
                                      then cfg.names.stored(cfg.lookup(list, "filename").value.text) else ""))
  {
  }

  lemma OpenTempIs(cfg: Config, s: State, u: State, r: Request, v: State)
    requires r.ticket == Some(s.world.counter + 1) && u.world.disk == s.world.disk && u.world.ticks == s.world.ticks
    requires v == OpenTemp(cfg, u, r)
    ensures v == State(u.conn.(fileOpen := Opens(cfg, s, r.action)),
                       u.world.(disk := u.world.disk.(files := FilesThen(cfg, s, r.action))))
  {
  }

  /** The request has the names that its headers give it. */
  ghost predicate Carried(cfg: Config, s: State, r: Request, list: seq<Pair>)
  {
    && r.ticket == Some(s.world.counter + 1)
    && match cfg.lookup(list, "filename")
       case None => r.key.None? && r.dest == ""
       case Some(name) => r.key == Some(cfg.names.key(name.text)) && r.dest == cfg.names.stored(name.text)
  }

  lemma FoundLength(cfg: Config, s: State, v: State, r: Request, list: seq<Pair>, found: Option<seq<byte>>)
    requires Carried(cfg, s, r, list) && v.world.disk == Disk(FilesThen(cfg, s, r.action), s.world.disk.rows)
    requires found == FoundFor(v.world.disk, EnvOf(cfg, s).look, r)
    ensures StoredLength(cfg, s, list, r.action) == if found.Some? then Some(|found.value|) else None
  {
  }

  lemma ActionDemands(cfg: Config, s: State, v: State, r: Request, list: seq<Pair>, t: State, r1: Request, error: int)
    requires Carried(cfg, s, r, list) && v.world.disk == Disk(FilesThen(cfg, s, r.action), s.world.disk.rows)
    requires v.world.ticks == s.world.ticks && (t, r1, error) == Preprocess(cfg, v, r, list)
    ensures error == OfAction(cfg, s, list, r.action, r.info.dataLength)
    ensures t.conn == v.conn && t.world.counter == v.world.counter && t.world.ticks == v.world.ticks
    ensures t.world.disk.files == v.world.disk.files && (error != SUCCESS ==> t == v && r1 == r)
  {
    FoundLength(cfg, s, v, r, list, FoundFor(v.world.disk, EnvOf(cfg, s).look, r));
  }

  lemma ActionSets(cfg: Config, v: State, r: Request, list: seq<Pair>, r1: Request)
    requires r1 == Preprocess(cfg, v, r, list).1 && Preprocess(cfg, v, r, list).2 == SUCCESS
    requires !r.confirm && !r.append && r.at == 0 && !r.trim
    ensures var at, trim := cfg.lookup(list, "updateat"), cfg.lookup(list, "trim");
            r1 == r.(confirm := r.action == RequestFile,
                     append := r.action == Create && cfg.lookup(list, "append").Some?,
                     at := if r.action == Update && at.Some? && at.value.length >= 0 then at.value.length else 0,
                     trim := r.action == Update && trim.Some? && trim.value.length != 0)
  {
  }

  // ----- the verdict -------------------------------------------------------------------------

  /** What the verdict means for what becomes of the packet. */
  ghost predicate Judged(cfg: Config, s: State, t: State, code: int, r: Request, inFile: bool)
    requires s.conn.request.Some?
  {
    if code != SUCCESS then Refused(cfg, s, t, code) else TakenUp(s, t, r, inFile)
  }

  /** The request has been prepared, or refused to be. */
  ghost predicate Due(cfg: Config, s: State, u: State, final: Request, error: int)
  {
    && s.conn.request.Some? && u.conn.request.Some? && (error != SUCCESS ==> Midway(cfg, s, u))
    && u.conn == s.conn.(request := u.conn.request, acts := u.conn.acts, fileOpen := u.conn.fileOpen)
    && Replies(u.conn.acts) == [] && !Accepted(u.conn.acts) && u.world.counter == s.world.counter + 1
    && (error == SUCCESS ==> u.conn.request == Some(final))
  }

  lemma PreparedIsJudged(cfg: Config, s: State, u: State, act: Act, final: Request, error: int, t: State)
    requires Due(cfg, s, u, final, error)
    requires act.Prepared? && act.ok == (error == SUCCESS)
    requires LeadsTo(cfg, AfterPreprocess(cfg, u.(conn := u.conn.(acts := u.conn.acts + [act])), error), t)
    ensures Judged(cfg, s, t, error, final, u.conn.fileOpen)
  {
    var u1 := u.(conn := u.conn.(acts := u.conn.acts + [act]));
    Snoc(u.conn.acts, act);
    if error != SUCCESS {
      FailRefuses(cfg, s, u1, error, t);
    } else {
      AcceptedIsTakenUp(cfg, s, u1, final, t);
    }
  }

  /** A request that has its names, and nothing else yet. */
  ghost predicate Bound(cfg: Config, s: State, u: State, r: Request, list: seq<Pair>)
  {
    && Midway(cfg, s, u) && u.conn.request == Some(r) && Carried(cfg, s, r, list)
    && u.world == s.world.(counter := s.world.counter + 1)
    && !r.confirm && !r.append && r.at == 0 && !r.trim
  }

  lemma OpenedIsMidway(cfg: Config, s: State, u: State, r: Request, list: seq<Pair>, v: State)
    requires Bound(cfg, s, u, r, list) && v == OpenTemp(cfg, u, r)
    ensures Midway(cfg, s, v) && v.conn.fileOpen == Opens(cfg, s, r.action)
    ensures v.world.disk == Disk(FilesThen(cfg, s, r.action), s.world.disk.rows)
    ensures v.world.counter == s.world.counter + 1 && v.conn.request == Some(r)
  {
    OpenTempIs(cfg, s, u, r, v);
  }

  lemma PreprocessedIsDue(cfg: Config, s: State, v: State, r: Request, list: seq<Pair>, w: State, r1: Request,
                          error: int, final: Request)
    requires Midway(cfg, s, v) && v.conn.request == Some(r) && v.world.counter == s.world.counter + 1
    requires v.world.disk == Disk(FilesThen(cfg, s, r.action), s.world.disk.rows) && Carried(cfg, s, r, list)
    requires !r.confirm && !r.append && r.at == 0 && !r.trim && r.info == s.conn.request.value.info
    requires (w, r1, error) == Preprocess(cfg, v, r, list) && final == RequestFor(cfg, s, list, r.action)
    ensures Due(cfg, s, w.(conn := w.conn.(request := Some(r1))), final, error) && w.conn == v.conn
    ensures error == OfAction(cfg, s, list, r.action, r.info.dataLength)
  {
    ActionDemands(cfg, s, v, r, list, w, r1, error);
    if error == SUCCESS {
      ActionSets(cfg, v, r, list, r1);
    }
  }

  lemma AfterSetupIsJudged(cfg: Config, s: State, u: State, r: Request, list: seq<Pair>, t: State, final: Request)
    requires Bound(cfg, s, u, r, list) && LeadsTo(cfg, AfterSetup(cfg, u, r, list, SUCCESS), t)
    requires final == RequestFor(cfg, s, list, r.action)
    ensures Judged(cfg, s, t, OfAction(cfg, s, list, r.action, r.info.dataLength), final, Opens(cfg, s, r.action))
  {
    var v := OpenTemp(cfg, u, r);
    OpenedIsMidway(cfg, s, u, r, list, v);
    var (w, r1, error) := Preprocess(cfg, v, r, list);
    PreprocessedIsDue(cfg, s, v, r, list, w, r1, error, final);
    PreparedIsJudged(cfg, s, w.(conn := w.conn.(request := Some(r1))), Prepared(r1.action, error == SUCCESS), final,
                     error, t);
  }

  lemma NamedIsBound(cfg: Config, s: State, u: State, r: Request, list: seq<Pair>, v: State, r1: Request, error: int)
    requires Midway(cfg, s, u) && u.conn.request == Some(r) && u.world == s.world
    requires r == NewRequest(r.info).(action := r.action) && (v, r1, error) == SetupEnvironment(cfg, u, r, list)
    ensures error == OfNames(cfg, EnvOf(cfg, s), list, r.action)
    ensures r1.info == r.info && r1.action == r.action && Midway(cfg, s, v.(conn := v.conn.(request := Some(r1))))
    ensures error == SUCCESS ==> Bound(cfg, s, v.(conn := v.conn.(request := Some(r1))), r1, list)
  {
    NamesAre(cfg, u, r, list);
  }

  lemma AfterAuthIsJudged(cfg: Config, s: State, u: State, r: Request, list: seq<Pair>, t: State, final: Request)
    requires Midway(cfg, s, u) && u.conn.request == Some(r) && u.world == s.world
    requires r == NewRequest(r.info).(action := r.action)
    requires LeadsTo(cfg, AfterAuth(cfg, u, r, list, SUCCESS), t) && final == RequestFor(cfg, s, list, r.action)
    ensures var names := OfNames(cfg, EnvOf(cfg, s), list, r.action);
            Judged(cfg, s, t, if names != SUCCESS then names
                              else OfAction(cfg, s, list, r.action, r.info.dataLength),
                   final, Opens(cfg, s, r.action))
  {
    var (v, r1, error) := SetupEnvironment(cfg, u, r, list);
    NamedIsBound(cfg, s, u, r, list, v, r1, error);
    var v1 := v.(conn := v.conn.(request := Some(r1)));
    if error != SUCCESS {
      FailRefuses(cfg, s, v1, error, t);
    } else {
      AfterSetupIsJudged(cfg, s, v1, r1, list, t, final);
    }
  }

  /** The headers of a packet have arrived. */
  ghost predicate Arrived(cfg: Config, s: State, list: seq<Pair>)
  {
    && Sound(s.conn) && s.conn.open && s.conn.phase.HeadersRead? && s.conn.index == s.conn.length
    && list == cfg.parse(s.conn.got)
  }

  lemma FreshIsMidway(cfg: Config, s: State, list: seq<Pair>, r: Request, u: State)
    requires Arrived(cfg, s, list) && r == s.conn.request.value.(action := r.action)
    requires u == s.(conn := s.conn.(request := Some(r)))
    ensures Midway(cfg, s, u) && r == NewRequest(r.info).(action := r.action) && s.conn.acts == []
  {
  }

  lemma AskedIsMidway(cfg: Config, s: State, u: State, list: seq<Pair>, v: State)
    requires Midway(cfg, s, u) && u.world == s.world && v == AuthTransaction(cfg, u, list).0
    ensures Midway(cfg, s, v) && v.world == s.world && v.conn.request == u.conn.request
  {
    CredentialsAre(cfg, u, list);
    Snoc(u.conn.acts, Asked(Known(cfg, list) && EnvOf(cfg, u).login));
  }

  /** Headers are refused with the first objection there is; without one the request is taken up. */
  lemma HeadersAreJudged(cfg: Config, s: State, list: seq<Pair>, t: State, action: Action, size: nat)
    requires Arrived(cfg, s, list) && action == ReadAction(cfg.reading, list) && t == Dispatch(cfg, s)
    requires size == s.conn.request.value.info.dataLength
    ensures Judged(cfg, s, t, Verdict(cfg, s, list, action, size), RequestFor(cfg, s, list, action),
                   Opens(cfg, s, action))
  {
    var r := s.conn.request.value.(action := action);
    var u := s.(conn := s.conn.(request := Some(r)));
    FreshIsMidway(cfg, s, list, r, u);
    CarriesIff(cfg, list, action);
    if !HasAll(cfg, list, Required(action, cfg.strayRow)) {
      FailRefuses(cfg, s, u, MISSING_ATTRIBS, t);
    } else {
      var (v, error) := AuthTransaction(cfg, u, list);
      CredentialsAre(cfg, u, list);
      AskedIsMidway(cfg, s, u, list, v);
      if error != SUCCESS {
        FailRefuses(cfg, s, v, error, t);
      } else {
        AfterAuthIsJudged(cfg, s, v, r, list, t, RequestFor(cfg, s, list, action));
      }
    }
  }

  // ----- the verdict on each action ----------------------------------------------------------

  /** Headers that carry what they need, with credentials of a user or none at all, for which names and
      folders can be had. */
  predicate Admissible(cfg: Config, s: State, list: seq<Pair>, keys: set<string>, writes: bool)
  {
    var env, user, secret, file := EnvOf(cfg, s), cfg.lookup(list, "username"), cfg.lookup(list, "secret"),
                                   cfg.lookup(list, "filename");
    && Carries(cfg, list, keys) && (user.Some? <==> secret.Some?) && (user.Some? ==> Known(cfg, list) && env.login)
    && env.tempFolder
    && (file.Some? ==> file.value.text != "" && env.filesFolder && (writes ==> env.makeFolders))
  }

  predicate Early(code: int)
  {
    || code == MISSING_ATTRIBS || code == MIX_AUTH_ERROR || code == FAILED_AUTHENTICATION
    || code == CANNOT_CREATE_TEMP_FILE || code == ATTRIB_VALUE_INVALID || code == SETUP_ENVIRONMENT_FAILED
  }

  lemma VerdictIs(cfg: Config, s: State, list: seq<Pair>, action: Action, size: nat)
    ensures var admissible := Admissible(cfg, s, list, Needed(cfg, action), action == Create || action == Update);
            if admissible then Verdict(cfg, s, list, action, size) == OfAction(cfg, s, list, action, size)
            else Early(Verdict(cfg, s, list, action, size))
  {
  }

  /** What becomes of a packet tells the verdict on its headers. */
  ghost predicate Tells(cfg: Config, s: State, t: State, verdict: int)
    requires s.conn.request.Some?
  {
    && (Accepted(Caused(s.conn, t.conn)) <==> verdict == SUCCESS)
    && forall code :: code != SUCCESS ==> (Refused(cfg, s, t, code) <==> verdict == code)
  }

  lemma JudgedTells(cfg: Config, s: State, t: State, verdict: int, r: Request, inFile: bool)
    requires s.conn.request.Some? && Judged(cfg, s, t, verdict, r, inFile)
    ensures Tells(cfg, s, t, verdict)
  {
    assert Replies([]) == [];
  }

  /** A packet whose headers have arrived, and what has become of it. */
  ghost predicate Step(cfg: Config, s: State, list: seq<Pair>, name: string, size: nat, t: State)
  {
    && Arrived(cfg, s, list) && Calls(cfg.reading, list, name) && t == Dispatch(cfg, s)
    && size == s.conn.request.value.info.dataLength
  }

  /** For a code that only the action itself objects with, where `objects` says that it does, and
      `agrees` that it has no objection at all. */
  lemma VerdictDecides(cfg: Config, s: State, list: seq<Pair>, name: string, action: Action, size: nat,
                       keys: set<string>, t: State, code: int, admissible: bool, objects: bool, agrees: bool)
    requires Step(cfg, s, list, name, size, t) && action == ReadAction(cfg.reading, list) && keys == Needed(cfg, action)
    requires admissible == Admissible(cfg, s, list, keys, action == Create || action == Update)
    requires code != SUCCESS && !Early(code)
    requires objects == (OfAction(cfg, s, list, action, size) == code)
    requires agrees == (OfAction(cfg, s, list, action, size) == SUCCESS)
    ensures Refused(cfg, s, t, code) <==> admissible && objects
    ensures Accepted(Caused(s.conn, t.conn)) <==> admissible && agrees
  {
    var verdict := Verdict(cfg, s, list, action, size);
    HeadersAreJudged(cfg, s, list, t, action, size);
    JudgedTells(cfg, s, t, verdict, RequestFor(cfg, s, list, action), Opens(cfg, s, action));
    VerdictIs(cfg, s, list, action, size);
  }

  lemma CreateObjects(cfg: Config, s: State, list: seq<Pair>, size: nat, stored: bool, append: bool)
    requires stored == StoredLength(cfg, s, list, Create).Some? && append == cfg.lookup(list, "append").Some?
    ensures OfAction(cfg, s, list, Create, size) == if stored && !append then FILE_EXISTS_ALREADY else SUCCESS
  {
  }

  /** A create is refused as existing exactly where its file has a row and can be opened and there is no
      `append`; it is accepted otherwise. */
  lemma CreateVerdict(cfg: Config, s: State, list: seq<Pair>, size: nat, t: State, admissible: bool, stored: bool,
                      append: bool)
    requires Step(cfg, s, list, "create", size, t) && append == cfg.lookup(list, "append").Some?
    requires admissible == Admissible(cfg, s, list, {"action", "filename", "username", "secret"}, true)
    requires stored == StoredLength(cfg, s, list, Create).Some?
    ensures Refused(cfg, s, t, FILE_EXISTS_ALREADY) <==> admissible && stored && !append
    ensures Accepted(Caused(s.conn, t.conn)) <==> admissible && (!stored || append)
  {
    CallsIff(cfg.reading, list, ReadAction(cfg.reading, list));
    CreateObjects(cfg, s, list, size, stored, append);
    VerdictDecides(cfg, s, list, "create", Create, size, {"action", "filename", "username", "secret"}, t,
                   FILE_EXISTS_ALREADY, admissible, stored && !append, !stored || append);
  }

  /** The position of an update lies in a file of some length, or at its end. */
  predicate Within(cfg: Config, list: seq<Pair>, length: nat)
  {
    match cfg.lookup(list, "updateat")
    case None => false
    case Some(at) => 0 <= at.length <= length
  }

  /** An update is refused where its file has no row or cannot be opened, or its position lies behind the
      end of it; it is accepted otherwise. */
  lemma UpdateVerdict(cfg: Config, s: State, list: seq<Pair>, size: nat, t: State, admissible: bool,
                      stored: Option<nat>, within: bool)
    requires Step(cfg, s, list, "update", size, t) && stored == StoredLength(cfg, s, list, Update)
    requires admissible ==
             Admissible(cfg, s, list, {"action", "filename", "updateat", "trim", "username", "secret"}, true)
    requires within == (admissible && stored.Some? && Within(cfg, list, stored.value))
    ensures Refused(cfg, s, t, FILE_NOT_FOUND) <==> admissible && stored.None?
    ensures Refused(cfg, s, t, FILE_UPDATE_OUTOFBOUNDS) <==> admissible && stored.Some? && !within
    ensures Accepted(Caused(s.conn, t.conn)) <==> within
  {
    var keys := {"action", "filename", "updateat", "trim", "username", "secret"};
    var own := OfAction(cfg, s, list, Update, size);
    CallsIff(cfg.reading, list, ReadAction(cfg.reading, list));
    UpdateObjects(cfg, s, list, size, stored, own, admissible, within);
    VerdictDecides(cfg, s, list, "update", Update, size, keys, t, FILE_NOT_FOUND, admissible,
                   own == FILE_NOT_FOUND, own == SUCCESS);
    VerdictDecides(cfg, s, list, "update", Update, size, keys, t, FILE_UPDATE_OUTOFBOUNDS, admissible,
                   own == FILE_UPDATE_OUTOFBOUNDS, own == SUCCESS);
  }

  lemma UpdateObjects(cfg: Config, s: State, list: seq<Pair>, size: nat, stored: Option<nat>, own: int,
                      admissible: bool, within: bool)
    requires stored == StoredLength(cfg, s, list, Update) && own == OfAction(cfg, s, list, Update, size)
    requires admissible ==
             Admissible(cfg, s, list, {"action", "filename", "updateat", "trim", "username", "secret"}, true)
    requires within == (admissible && stored.Some? && Within(cfg, list, stored.value))
    ensures admissible ==> (own == FILE_NOT_FOUND <==> stored.None?)
    ensures admissible ==> (own == FILE_UPDATE_OUTOFBOUNDS <==> stored.Some? && !within)
    ensures admissible ==> (own == SUCCESS <==> within)
  {
    if admissible {
      assert "updateat" in {"action", "filename", "updateat", "trim", "username", "secret"};
      assert "trim" in {"action", "filename", "updateat", "trim", "username", "secret"};
    }
  }

  /** A request is refused where its file has no row or cannot be opened, or where it announces a body;
      it is accepted otherwise. */
  lemma RequestVerdict(cfg: Config, s: State, list: seq<Pair>, size: nat, t: State, admissible: bool, stored: bool)
    requires Step(cfg, s, list, "request", size, t) && stored == StoredLength(cfg, s, list, RequestFile).Some?
    requires admissible == Admissible(cfg, s, list, {"action", "username", "secret"}, false)
    ensures Refused(cfg, s, t, FILE_NOT_FOUND) <==> admissible && !stored
    ensures Refused(cfg, s, t, UNEXPECTED_DATA_FROM_CLIENT) <==> admissible && stored && size > 0
    ensures Accepted(Caused(s.conn, t.conn)) <==> admissible && stored && size == 0
  {
    CallsIff(cfg.reading, list, ReadAction(cfg.reading, list));
    VerdictDecides(cfg, s, list, "request", RequestFile, size, {"action", "username", "secret"}, t,
                   FILE_NOT_FOUND, admissible, !stored, stored && size == 0);
    VerdictDecides(cfg, s, list, "request", RequestFile, size, {"action", "username", "secret"}, t,
                   UNEXPECTED_DATA_FROM_CLIENT, admissible, stored && size > 0, stored && size == 0);
  }

  /** A delete is refused where it announces a body or its query fails, whether there is anything to
      delete or not. */
  lemma DeleteVerdict(cfg: Config, s: State, list: seq<Pair>, size: nat, t: State, admissible: bool)
    requires Step(cfg, s, list, "delete", size, t)
    requires admissible == Admissible(cfg, s, list, {"action", "filename", "username", "secret"}, false)
    ensures Refused(cfg, s, t, UNEXPECTED_DATA_FROM_CLIENT) <==> admissible && size > 0
    ensures Refused(cfg, s, t, SERVER_INTERNAL_ERROR) <==> admissible && size == 0 && !EnvOf(cfg, s).database
    ensures Accepted(Caused(s.conn, t.conn)) <==> admissible && size == 0 && EnvOf(cfg, s).database
  {
    var keys, works := {"action", "filename", "username", "secret"}, EnvOf(cfg, s).database;
    CallsIff(cfg.reading, list, ReadAction(cfg.reading, list));
    VerdictDecides(cfg, s, list, "delete", Delete, size, keys, t, UNEXPECTED_DATA_FROM_CLIENT, admissible, size > 0,
                   size == 0 && works);
    VerdictDecides(cfg, s, list, "delete", Delete, size, keys, t, SERVER_INTERNAL_ERROR, admissible,
                   size == 0 && !works, size == 0 && works);
  }

  /** A listing is refused where the query finds no such folder, or where it announces a body. */
  lemma DirVerdict(cfg: Config, s: State, list: seq<Pair>, size: nat, t: State, admissible: bool)
    requires Step(cfg, s, list, "dir", size, t)
    requires admissible == Admissible(cfg, s, list, {"action", "dirname", "username", "secret"}, false)
    ensures Refused(cfg, s, t, FOLDER_NOT_FOUND) <==> admissible && !EnvOf(cfg, s).folderFound
    ensures Refused(cfg, s, t, UNEXPECTED_DATA_FROM_CLIENT) <==> admissible && EnvOf(cfg, s).folderFound && size > 0
    ensures Accepted(Caused(s.conn, t.conn)) <==> admissible && EnvOf(cfg, s).folderFound && size == 0
  {
    var keys, found := {"action", "dirname", "username", "secret"}, EnvOf(cfg, s).folderFound;
    CallsIff(cfg.reading, list, ReadAction(cfg.reading, list));
    VerdictDecides(cfg, s, list, "dir", Dir, size, keys, t, FOLDER_NOT_FOUND, admissible, !found, found && size == 0);
    VerdictDecides(cfg, s, list, "dir", Dir, size, keys, t, UNEXPECTED_DATA_FROM_CLIENT, admissible,
                   found && size > 0, found && size == 0);
  }

  /** The headers of a packet end the process if and only if they would be accepted as a listing, and that
      cannot be made or does not fit into one buffer. */
  lemma HeadersEndProcessIff(cfg: Config, s: State, list: seq<Pair>, size: nat, admissible: bool)
    requires Arrived(cfg, s, list) && size == s.conn.request.value.info.dataLength
    requires admissible == Admissible(cfg, s, list, {"action", "dirname", "username", "secret"}, false)
    ensures var env := EnvOf(cfg, s);
            HeadersDie(cfg, s) <==>
              && Calls(cfg.reading, list, "dir") && admissible && env.folderFound && size == 0
              && !(env.listing.Some?
                   && |Responses.Sent(cfg.serialize(DATA_READY), Message(env.listing.value)).0| <= 4096)
  {
    HeadersDieIff(cfg, s);
    CallsIff(cfg.reading, list, ReadAction(cfg.reading, list));
    ListingFitsIff(cfg, EnvOf(cfg, s));
    DirIsAdmissibleIff(cfg, s, list);
  }

  lemma DirIsAdmissibleIff(cfg: Config, s: State, list: seq<Pair>)
    ensures Admissible(cfg, s, list, {"action", "dirname", "username", "secret"}, false) <==>
            && HasAll(cfg, list, Required(Dir, cfg.strayRow)) && AuthTransaction(cfg, s, list).1 == SUCCESS
            && SetsUp(cfg, EnvOf(cfg, s), Dir, list)
  {
    CarriesIff(cfg, list, Dir);
    CredentialsAre(cfg, s, list);
  }

  /** A notification needs no credentials, and a body that is neither empty nor larger than a limit. */
  lemma NotificationVerdict(cfg: Config, s: State, list: seq<Pair>, size: nat, t: State, admissible: bool)
    requires Step(cfg, s, list, "notification", size, t) && admissible == Admissible(cfg, s, list, {"action"}, false)
    ensures Refused(cfg, s, t, NOTIFY_TOOBIG) <==> admissible && !(0 < size < 16384)
    ensures Accepted(Caused(s.conn, t.conn)) <==> admissible && 0 < size < 16384
  {
    CallsIff(cfg.reading, list, ReadAction(cfg.reading, list));
    VerdictDecides(cfg, s, list, "notification", Notification, size, {"action"}, t, NOTIFY_TOOBIG, admissible,
                   !(0 < size < 16384), 0 < size < 16384);
  }

  /** Nor does a question for the server information, which may announce no body. */
  lemma ServerVerdict(cfg: Config, s: State, list: seq<Pair>, size: nat, t: State, admissible: bool)
    requires Step(cfg, s, list, "server", size, t) && admissible == Admissible(cfg, s, list, {"action"}, false)
    ensures Refused(cfg, s, t, UNEXPECTED_DATA_FROM_CLIENT) <==> admissible && size > 0
    ensures Accepted(Caused(s.conn, t.conn)) <==> admissible && size == 0
  {
    CallsIff(cfg.reading, list, ReadAction(cfg.reading, list));
    VerdictDecides(cfg, s, list, "server", Server, size, {"action"}, t, UNEXPECTED_DATA_FROM_CLIENT, admissible,
                   size > 0, size == 0);
  }

  /** A login has nothing else to be refused for, whatever body it announces. */
  lemma LoginVerdict(cfg: Config, s: State, list: seq<Pair>, size: nat, t: State, admissible: bool)
    requires Step(cfg, s, list, "login", size, t)
    requires admissible == Admissible(cfg, s, list, {"username", "secret"}, false)
    ensures Accepted(Caused(s.conn, t.conn)) <==> admissible
  {
    CallsIff(cfg.reading, list, ReadAction(cfg.reading, list));
    VerdictDecides(cfg, s, list, "login", Login, size, {"username", "secret"}, t, FILE_NOT_FOUND, admissible,
                   false, true);
  }

  /** Headers that call for none of the actions. */
  predicate CallsNothing(cfg: Config, list: seq<Pair>)
  {
    && !Calls(cfg.reading, list, "create") && !Calls(cfg.reading, list, "delete") && !Calls(cfg.reading, list, "dir")
    && !Calls(cfg.reading, list, "login") && !Calls(cfg.reading, list, "notification")
    && !Calls(cfg.reading, list, "request") && !Calls(cfg.reading, list, "server")
    && !Calls(cfg.reading, list, "update")
  }

  lemma NothingIsInvalid(cfg: Config, list: seq<Pair>)
    requires CallsNothing(cfg, list)
    ensures ReadAction(cfg.reading, list) == Invalid
  {
    CallsIff(cfg.reading, list, ReadAction(cfg.reading, list));
  }

  lemma InvalidIsRefused(cfg: Config, s: State, list: seq<Pair>, t: State, stray: set<string>, admissible: bool,
                         size: nat)
    requires Arrived(cfg, s, list) && t == Dispatch(cfg, s) && ReadAction(cfg.reading, list) == Invalid
    requires stray == Needed(cfg, Invalid) && admissible == Admissible(cfg, s, list, stray, false)
    requires size == s.conn.request.value.info.dataLength
    ensures !Accepted(Caused(s.conn, t.conn))
    ensures Refused(cfg, s, t, SERVER_INTERNAL_ERROR) <==> admissible
  {
    var verdict := Verdict(cfg, s, list, Invalid, size);
    HeadersAreJudged(cfg, s, list, t, Invalid, size);
    VerdictIs(cfg, s, list, Invalid, size);
    JudgedTells(cfg, s, t, verdict, RequestFor(cfg, s, list, Invalid), Opens(cfg, s, Invalid));
  }

  /** They are always refused, if not earlier, then as an internal error. */
  lemma NoVerdict(cfg: Config, s: State, list: seq<Pair>, t: State, stray: set<string>, admissible: bool, size: nat)
    requires Arrived(cfg, s, list) && t == Dispatch(cfg, s) && CallsNothing(cfg, list)
    requires stray == Needed(cfg, Invalid) && admissible == Admissible(cfg, s, list, stray, false)
    requires size == s.conn.request.value.info.dataLength
    ensures !Accepted(Caused(s.conn, t.conn))
    ensures Refused(cfg, s, t, SERVER_INTERNAL_ERROR) <==> admissible
  {
    NothingIsInvalid(cfg, list);
    InvalidIsRefused(cfg, s, list, t, stray, admissible, size);
  }

  // ----- the verdict on what all actions need ------------------------------------------------

  /** Headers that lack an entry, and credentials that are incomplete or not those of a user. */
  lemma CredentialsVerdict(cfg: Config, s: State, list: seq<Pair>, t: State, action: Action, carries: bool, user: bool,
                           secret: bool)
    requires Arrived(cfg, s, list) && action == ReadAction(cfg.reading, list) && t == Dispatch(cfg, s)
    requires carries == Carries(cfg, list, Needed(cfg, action))
    requires user == cfg.lookup(list, "username").Some? && secret == cfg.lookup(list, "secret").Some?
    ensures Refused(cfg, s, t, MISSING_ATTRIBS) <==> !carries
    ensures Refused(cfg, s, t, MIX_AUTH_ERROR) <==> carries && user != secret
    ensures Refused(cfg, s, t, FAILED_AUTHENTICATION) <==>
            carries && user && secret && !(Known(cfg, list) && EnvOf(cfg, s).login)
  {
    var size := s.conn.request.value.info.dataLength;
    var verdict := Verdict(cfg, s, list, action, size);
    HeadersAreJudged(cfg, s, list, t, action, size);
    JudgedTells(cfg, s, t, verdict, RequestFor(cfg, s, list, action), Opens(cfg, s, action));
    VerdictOnCredentials(cfg, s, list, action, size, verdict);
  }

  lemma VerdictOnCredentials(cfg: Config, s: State, list: seq<Pair>, action: Action, size: nat, verdict: int)
    requires verdict == Verdict(cfg, s, list, action, size)
    ensures verdict == MISSING_ATTRIBS <==> !Carries(cfg, list, Needed(cfg, action))
    ensures verdict == MIX_AUTH_ERROR <==>
            Carries(cfg, list, Needed(cfg, action)) && OfCredentials(cfg, EnvOf(cfg, s), list) == MIX_AUTH_ERROR
    ensures verdict == FAILED_AUTHENTICATION <==>
            Carries(cfg, list, Needed(cfg, action)) && OfCredentials(cfg, EnvOf(cfg, s), list) == FAILED_AUTHENTICATION
  {
  }
}

/** What is stored changes by recorded packets only, and each of them does exactly what its own
    request, its own body and the outcomes of the calls in its callback say. */
module Effects {
  import opened Exchanges
  import opened FileStore
  import opened Headers
  import opened Hex
  import opened PathAlgebra
  import opened Permissions
  import opened Protocol
  import opened Responses
  import opened Servers
  import opened Wire

  // ----- the effect of one packet ------------------------------------------------------------

  predicate Writes(action: Action)
  {
    action.Create? || action.Update? || action.Delete?
  }

  function KeyOf(r: Request): string
  {
    if r.key.Some? then r.key.value else ""
  }

  /** What lies under the temporary name of a request at its end: what has landed of its body, or,
      if no file could be opened, what was there before. */
  function LeftBy(cfg: Config, d: Disk, r: Request, inFile: bool, body: seq<byte>): Option<seq<byte>>
  {
    if r.ticket.None? then None
    else if inFile then Some(Landed(cfg.lands(r.ticket.value), 0, body))
    else At(d, cfg.names.temp(r.ticket.value))
  }

  /** What an update makes of the bytes of a file. */
  function Updated(d: seq<byte>, r: Request, body: seq<byte>): seq<byte>
  {
    Splice(if r.trim then Front(d, r.at) else d, r.at, body)
  }

  /** The bytes before the position, the body, and, if not trimmed, the bytes behind it. */
  lemma UpdatedIs(d: seq<byte>, r: Request, body: seq<byte>)
    requires r.at <= |d|
    ensures Updated(d, r, body) == d[..r.at] + body + if r.trim || r.at + |body| > |d| then [] else d[r.at + |body|..]
  {
    if body == [] && !r.trim {
      assert d[..r.at] + [] + d[r.at..] == d;
    }
  }

  /** An accepted request, on a disk that holds no temporary files, with what lies under its own
      temporary name: what the disk holds afterwards, and the error to answer with, if there is one. */
  function Effect(env: Env, d: Disk, r: Request, temp: Option<seq<byte>>, hash: seq<byte>): (Disk, int)
  {
    var calls, size, source := env.end, r.info.dataLength, ValueOr(temp);
    match r.action
    case Create =>
      if r.append && Found(d, calls.look, KeyOf(r), r.dest).Some? then
        (if r.dest in d.files
         then Disk(d.files[r.dest := d.files[r.dest] + Brought(source, size, calls.copy)], d.rows)
         else d, SUCCESS)
      else
        var files := if calls.rename && temp.Some? then d.files[r.dest := temp.value] else d.files;
        if calls.insert then (Disk(files, d.rows + [Row(KeyOf(r), AsInt(size), StoredHash(hash))]), SUCCESS)
        else (Disk(files, d.rows), SERVER_FILE_ERROR)
    case Update =>
      if r.dest !in d.files || (r.trim && !calls.truncate) then (d, SERVER_INTERNAL_ERROR)
      else
        (Disk(d.files[r.dest := Updated(d.files[r.dest], r, Brought(source, size, calls.copy))], d.rows),
         if CopyError(source, size, calls.copy) == FileSuccess then SUCCESS else SERVER_INTERNAL_ERROR)
    case Delete =>
      (Disk(d.files, if r.key.Some? then WithoutRows(d.rows, r.key.value) else d.rows), SUCCESS)
    case _ => (d, SUCCESS)
  }

  /** It depends on what is stored only, and touches its own file and the rows of its own key. */
  lemma EffectRespects(cfg: Config, env: Env, a: Disk, b: Disk, r: Request, temp: Option<seq<byte>>, hash: seq<byte>)
    requires SameStored(cfg, a, b) && (WritesFile(r.action) ==> IsReal(cfg, r.dest))
    ensures SameStored(cfg, Effect(env, a, r, temp, hash).0, Effect(env, b, r, temp, hash).0)
    ensures Effect(env, a, r, temp, hash).1 == Effect(env, b, r, temp, hash).1
  {
    if WritesFile(r.action) {
      assert SameAt(a.files, b.files, r.dest);
      if r.action.Create? {
        CreateRespects(cfg, env, a, b, r, temp, hash);
      }
    }
  }

  lemma CreateRespects(cfg: Config, env: Env, a: Disk, b: Disk, r: Request, temp: Option<seq<byte>>, hash: seq<byte>)
    requires SameStored(cfg, a, b) && r.action.Create? && IsReal(cfg, r.dest) && SameAt(a.files, b.files, r.dest)
    ensures SameStored(cfg, Effect(env, a, r, temp, hash).0, Effect(env, b, r, temp, hash).0)
    ensures Effect(env, a, r, temp, hash).1 == Effect(env, b, r, temp, hash).1
  {
  }

  /** Only the actions that write a file look at the temporary one. */
  lemma TempMattersForWriters(env: Env, d: Disk, r: Request, temp: Option<seq<byte>>, temp': Option<seq<byte>>,
                              hash: seq<byte>)
    requires !WritesFile(r.action)
    ensures Effect(env, d, r, temp, hash) == Effect(env, d, r, temp', hash)
  {
  }

  // ----- the packet on record ----------------------------------------------------------------

  /** The effect of a packet on record. */
  function EffectFor(cfg: Config, env: Env, d: Disk, e: Exchange, body: seq<byte>, hash: seq<byte>): (Disk, int)
  {
    Effect(env, d, e.request, LeftBy(cfg, d, e.request, e.inFile, body), hash)
  }

  /** The packet that went on record last has had its effect on `d`, and if it writes, its last
      response tells whether there was an error. */
  ghost predicate Took(cfg: Config, env: Env, d: Disk, e: Exchange, body: seq<byte>, hash: seq<byte>, after: Disk)
  {
    if !Accepted(e.acts) then SameStored(cfg, d, after)
    else
      var (d', error) := EffectFor(cfg, env, d, e, body, hash);
      && e.request.info.dataLength == |body| && SameStored(cfg, d', after)
      && (WritesFile(e.request.action) ==> IsReal(cfg, e.request.dest))
      && (Writes(e.request.action) ==>
            e.acts != [] && e.acts[|e.acts| - 1] == Said(AnswerTo(error)))
  }

  /** Since the disk was `d` and the records were `done`, either nothing stored has changed and
      nothing went on record, or one packet did. */
  ghost predicate Effected(cfg: Config, env: Env, d: Disk, done: seq<Exchange>, body: seq<byte>, hash: seq<byte>,
                           t: State)
  {
    if t.conn.done == done then SameStored(cfg, d, t.world.disk)
    else
      && |t.conn.done| == |done| + 1 && t.conn.done[..|done|] == done
      && Took(cfg, env, d, t.conn.done[|done|], body, hash, t.world.disk)
  }

  lemma FinishTakes(cfg: Config, env: Env, d: Disk, s: State, body: seq<byte>, hash: seq<byte>)
    requires s.conn.request.Some?
    requires Took(cfg, env, d, Exchange(s.conn.request.value, s.conn.read, s.conn.acts, s.conn.fileOpen), body, hash,
                  s.world.disk)
    ensures Effected(cfg, env, d, s.conn.done, body, hash, Finish(cfg, s))
  {
    var e := Exchange(s.conn.request.value, s.conn.read, s.conn.acts, s.conn.fileOpen);
    var d' := if Accepted(e.acts) then EffectFor(cfg, env, d, e, body, hash).0 else d;
    ResetKeepsStored(cfg, d', s.(conn := s.conn.(done := s.conn.done + [e])));
  }

  /** A request that is refused before it was accepted. */
  lemma RefusalTakes(cfg: Config, env: Env, d: Disk, s: State, code: int, body: seq<byte>, hash: seq<byte>)
    requires s.conn.request.Some? && !Accepted(s.conn.acts) && SameStored(cfg, d, s.world.disk)
    ensures Effected(cfg, env, d, s.conn.done, body, hash, Fail(cfg, s, code).0)
  {
    Snoc(s.conn.acts, Said(code));
    FinishTakes(cfg, env, d, Say(cfg, s, code, MessageSource(code)), body, hash);
  }

  /** The effect of the request at hand. */
  function EffectOf(cfg: Config, env: Env, d: Disk, c: Conn, r: Request, body: seq<byte>, hash: seq<byte>): (Disk, int)
  {
    Effect(env, d, r, LeftBy(cfg, d, r, c.fileOpen, body), hash)
  }

  /** The state of an accepted request that has done its work. */
  ghost predicate Worked(cfg: Config, env: Env, d: Disk, s: State, r: Request, body: seq<byte>, hash: seq<byte>)
  {
    && s.conn.request == Some(r) && Accepted(s.conn.acts) && r.info.dataLength == |body|
    && (WritesFile(r.action) ==> IsReal(cfg, r.dest))
    && SameStored(cfg, EffectOf(cfg, env, d, s.conn, r, body, hash).0, s.world.disk)
  }

  /** The code to answer an error with, or `OK`. */
  function AnswerTo(error: int): int
  {
    if error == SUCCESS then PACKET_OK else error
  }

  lemma SayTakes(cfg: Config, env: Env, d: Disk, s: State, r: Request, body: seq<byte>, hash: seq<byte>, code: int,
                 source: Source)
    requires Worked(cfg, env, d, s, r, body, hash)
    requires Writes(r.action) ==> code == AnswerTo(EffectOf(cfg, env, d, s.conn, r, body, hash).1)
    ensures Effected(cfg, env, d, s.conn.done, body, hash, Finish(cfg, Say(cfg, s, code, source)))
  {
    Snoc(s.conn.acts, Said(code));
    FinishTakes(cfg, env, d, Say(cfg, s, code, source), body, hash);
  }

  lemma AfterPostprocessTakes(cfg: Config, env: Env, d: Disk, s: State, r: Request, body: seq<byte>, hash: seq<byte>,
                              error: int)
    requires Worked(cfg, env, d, s, r, body, hash)
    requires Writes(r.action) ==> error == EffectOf(cfg, env, d, s.conn, r, body, hash).1 && s.conn.code != DATA_READY
    ensures Effected(cfg, env, d, s.conn.done, body, hash, AfterPostprocess(cfg, s, error).0)
  {
    if error != SUCCESS {
      SayTakes(cfg, env, d, s, r, body, hash, error, MessageSource(error));
    } else if s.conn.code != DATA_READY {
      SayTakes(cfg, env, d, s, r, body, hash, PACKET_OK, MessageSource(PACKET_OK));
    } else {
      FinishTakes(cfg, env, d, s, body, hash);
    }
  }

  // ----- the actions -------------------------------------------------------------------------

  /** An accepted request whose body is complete. */
  ghost predicate Complete(cfg: Config, d: Disk, s: State, r: Request, body: seq<byte>)
  {
    && s.conn.request == Some(r) && Accepted(s.conn.acts) && s.conn.code != DATA_READY && !r.action.Invalid?
    && r.ticket.Some? && (WritesFile(r.action) ==> IsReal(cfg, r.dest)) && r.info.dataLength == |body|
    && Bare(s.world.disk.files, cfg.names.temp(r.ticket.value))
    && At(s.world.disk, cfg.names.temp(r.ticket.value)) == LeftBy(cfg, d, r, s.conn.fileOpen, body)
  }

  lemma AppendTakes(cfg: Config, d: Disk, dest: string, temp: string, size: nat, copy: Copying)
    requires dest in d.files && temp != dest
    ensures Append(d, dest, temp, |d.files[dest]|, size, copy).0
            == d.files[dest := d.files[dest] + Brought(ValueOr(At(d, temp)), size, copy)]
  {
    SpliceAtEnd(d.files[dest], Brought(Content(d, temp), size, copy));
  }

  lemma MoveTakes(cfg: Config, d: Disk, dest: string, temp: string, works: bool, path: string)
    requires IsReal(cfg, dest) && IsReal(cfg, path) && !IsReal(cfg, temp) && Bare(d.files, temp)
    ensures SameAt(if works && At(d, temp).Some? then d.files[dest := At(d, temp).value] else d.files,
                   Renamed(d.files, dest, temp, works), path)
  {
    BareMoves(d.files, dest, temp);
  }

  lemma CreateTakes(cfg: Config, env: Env, d: Disk, r: Request, temp: string, hash: seq<byte>, after: Disk, ok: bool)
    requires r.action.Create? && IsReal(cfg, r.dest) && !IsReal(cfg, temp) && Bare(d.files, temp)
    requires (after, ok) == PostCreate(d, KeyOf(r), r.dest, temp, r.append, r.info.dataLength, StoredHash(hash),
                                       env.end)
    ensures SameStored(cfg, Effect(env, d, r, At(d, temp), hash).0, after)
    ensures Effect(env, d, r, At(d, temp), hash).1 == if ok then SUCCESS else SERVER_FILE_ERROR
  {
    if r.append && Found(d, env.end.look, KeyOf(r), r.dest).Some? {
      if r.dest in d.files {
        AppendTakes(cfg, d, r.dest, temp, r.info.dataLength, env.end.copy);
      }
    } else {
      forall path | IsReal(cfg, path)
        ensures SameAt(Effect(env, d, r, At(d, temp), hash).0.files, after.files, path)
      {
        MoveTakes(cfg, d, r.dest, temp, env.end.rename, path);
      }
    }
  }

  lemma UpdateTakes(cfg: Config, env: Env, d: Disk, r: Request, temp: string, hash: seq<byte>, after: Disk, ok: bool)
    requires r.action.Update? && IsReal(cfg, r.dest) && !IsReal(cfg, temp)
    requires (after, ok) == PostUpdate(d, r.dest, temp, r.at, r.trim, r.info.dataLength, env.end)
    ensures SameStored(cfg, Effect(env, d, r, At(d, temp), hash).0, after)
    ensures Effect(env, d, r, At(d, temp), hash).1 == if ok then SUCCESS else SERVER_INTERNAL_ERROR
  {
  }

  lemma WriterTakes(cfg: Config, d: Disk, s: State, r: Request, body: seq<byte>, t: State, error: int)
    requires Complete(cfg, d, s, r, body) && WritesFile(r.action) && (t, error) == ActionPostprocess(cfg, s)
    requires SameStored(cfg, d, s.world.disk)
    ensures SameStored(cfg, EffectOf(cfg, EnvOf(cfg, s), d, s.conn, r, body, s.conn.hash).0, t.world.disk)
    ensures error == EffectOf(cfg, EnvOf(cfg, s), d, s.conn, r, body, s.conn.hash).1 && t.conn == s.conn
  {
    var env, temp, hash, disk := EnvOf(cfg, s), cfg.names.temp(r.ticket.value), s.conn.hash, s.world.disk;
    assert AtOrBelow(temp, temp);
    if r.action.Create? {
      CreateTakes(cfg, env, disk, r, temp, hash, t.world.disk, error == SUCCESS);
    } else {
      UpdateTakes(cfg, env, disk, r, temp, hash, t.world.disk, error == SUCCESS);
    }
    EffectRespects(cfg, env, d, disk, r, At(disk, temp), hash);
    StoredTwice(cfg, Effect(env, d, r, At(disk, temp), hash).0, Effect(env, disk, r, At(disk, temp), hash).0,
                t.world.disk);
  }

  /** Before its work, a request has changed nothing stored; a delete has done its work when it was
      prepared. */
  ghost predicate Untaken(cfg: Config, d: Disk, s: State, r: Request, body: seq<byte>)
  {
    if r.action.Delete? then Worked(cfg, EnvOf(cfg, s), d, s, r, body, s.conn.hash)
    else SameStored(cfg, d, s.world.disk)
  }

  /** The work of an action, as a whole. */
  lemma ActionTakes(cfg: Config, d: Disk, s: State, r: Request, body: seq<byte>)
    requires Complete(cfg, d, s, r, body) && Untaken(cfg, d, s, r, body)
    ensures var (t, error) := ActionPostprocess(cfg, SendData(cfg, s));
            && Worked(cfg, EnvOf(cfg, s), d, t, r, body, s.conn.hash) && t.conn.done == s.conn.done
            && (Writes(r.action) ==>
                  && error == EffectOf(cfg, EnvOf(cfg, s), d, t.conn, r, body, s.conn.hash).1
                  && t.conn.code == s.conn.code)
  {
    var (t, error) := ActionPostprocess(cfg, SendData(cfg, s));
    if WritesFile(r.action) {
      WriterTakes(cfg, d, s, r, body, t, error);
    } else if !r.action.Delete? {
      OtherActionsSay(cfg, s);
    }
  }

  /** The other actions change nothing stored. */
  lemma OtherActionsSay(cfg: Config, s: State)
    requires s.conn.request.Some? && !Writes(s.conn.request.value.action)
    ensures var t := ActionPostprocess(cfg, SendData(cfg, s)).0;
            && t.world == s.world && t.conn.done == s.conn.done && (Accepted(s.conn.acts) ==> Accepted(t.conn.acts))
            && t.conn.fileOpen == s.conn.fileOpen
  {
    Snoc(s.conn.acts, Said(DATA_READY));
  }

  lemma PostProcessTakes(cfg: Config, d: Disk, s: State, r: Request, body: seq<byte>)
    requires Complete(cfg, d, s, r, body) && Untaken(cfg, d, s, r, body)
    ensures Effected(cfg, EnvOf(cfg, s), d, s.conn.done, body, s.conn.hash, PostProcess(cfg, SendData(cfg, s)).0)
  {
    ActionTakes(cfg, d, s, r, body);
    var (t, error) := ActionPostprocess(cfg, SendData(cfg, s));
    AfterPostprocessTakes(cfg, EnvOf(cfg, s), d, t, r, body, s.conn.hash, error);
  }

  lemma UploadDoneTakes(cfg: Config, d: Disk, s: State, r: Request, body: seq<byte>)
    requires Complete(cfg, d, s, r, body) && Untaken(cfg, d, s, r, body) && (r.confirm ==> r.action.RequestFile?)
    ensures Effected(cfg, EnvOf(cfg, s), d, s.conn.done, body, s.conn.hash, UploadDone(cfg, s).0)
  {
    if r.confirm && s.conn.got != ACCEPT {
      SayTakes(cfg, EnvOf(cfg, s), d, s, r, body, s.conn.hash, NETWORK_ERROR_WRITE, MessageSource(NETWORK_ERROR_WRITE));
    } else {
      PostProcessTakes(cfg, d, s, r, body);
    }
  }

  // ----- the headers -------------------------------------------------------------------------

  lemma AfterPreprocessTakes(cfg: Config, d: Disk, s: State, r: Request, error: int)
    requires s.conn.request == Some(r) && (error == SUCCESS <==> Accepted(s.conn.acts))
    requires error == SUCCESS ==> r.info.dataLength > 0 || Complete(cfg, d, s, r, [])
    requires r.confirm ==> r.action.RequestFile?
    requires if error == SUCCESS then Untaken(cfg, d, s, r, []) && (r.action.Delete? ==> r.info.dataLength == 0)
             else SameStored(cfg, d, s.world.disk)
    ensures Effected(cfg, EnvOf(cfg, s), d, s.conn.done, [], s.conn.hash, AfterPreprocess(cfg, s, error).0)
  {
    if error != SUCCESS {
      RefusalTakes(cfg, EnvOf(cfg, s), d, s, error, [], s.conn.hash);
    } else if r.info.dataLength == 0 && !r.confirm {
      UploadDoneTakes(cfg, d, s, r, []);
    }
  }

  lemma PreprocessTakes(cfg: Config, s: State, r: Request, list: seq<Pair>, t: State, r1: Request, error: int)
    requires (t, r1, error) == Preprocess(cfg, s, r, list) && !r.confirm
    ensures t.conn == s.conn && r1.action == r.action && r1.info == r.info && r1.ticket == r.ticket
    ensures r1.dest == r.dest && r1.key == r.key && t.world.ticks == s.world.ticks
    ensures t.world.disk.files == s.world.disk.files
    ensures error == SUCCESS ==> !r.action.Invalid?
    ensures r1.confirm ==> r.action.RequestFile? && r.info.dataLength == 0
    ensures if error == SUCCESS && r.action.Delete? then
              r.info.dataLength == 0 && t.world.disk == Effect(EnvOf(cfg, s), s.world.disk, r1, None, s.conn.hash).0
            else t.world.disk == s.world.disk
  {
  }

  /** The temporary file is open and empty, or nothing has changed. */
  lemma OpenTempGives(cfg: Config, s: State, r: Request, s1: State, temp: string)
    requires r.ticket.Some? && temp == cfg.names.temp(r.ticket.value) && Bare(s.world.disk.files, temp)
    requires s1 == OpenTemp(cfg, s, r)
    ensures Bare(s1.world.disk.files, temp) && s1.world == s.world.(disk := s1.world.disk)
    ensures s1.world.disk.rows == s.world.disk.rows
    ensures At(s1.world.disk, temp) == LeftBy(cfg, s.world.disk, r, s1.conn.fileOpen, [])
  {
  }

  lemma AfterSetupTakes(cfg: Config, s: State, r: Request, list: seq<Pair>, error: int)
    requires s.conn.request == Some(r) && !r.confirm && !Accepted(s.conn.acts) && s.conn.code == SUCCESS
    requires Clean(cfg, s.world.disk.files)
    requires error == SUCCESS ==> r.ticket.Some? && (WritesFile(r.action) ==> IsReal(cfg, r.dest))
    ensures Effected(cfg, EnvOf(cfg, s), s.world.disk, s.conn.done, [], s.conn.hash,
                     AfterSetup(cfg, s, r, list, error).0)
  {
    if error != SUCCESS {
      RefusalTakes(cfg, EnvOf(cfg, s), s.world.disk, s, error, [], s.conn.hash);
    } else {
      var s1, temp := OpenTemp(cfg, s, r), cfg.names.temp(r.ticket.value);
      assert Bare(s.world.disk.files, temp);
      OpenTempGives(cfg, s, r, s1, temp);
      OpenTempIsLawful(cfg, s, r);
      var (s2, r2, error2) := Preprocess(cfg, s1, r, list);
      PreprocessTakes(cfg, s1, r, list, s2, r2, error2);
      var act := Prepared(r2.action, error2 == SUCCESS);
      Snoc(s.conn.acts, act);
      var s3 := s2.(conn := s2.conn.(request := Some(r2), acts := s2.conn.acts + [act]));
      if error2 == SUCCESS && r.action.Delete? {
        DeleteTakes(cfg, EnvOf(cfg, s), s.world.disk, s1.world.disk, s3, r2, s.conn.hash);
      }
      AfterPreprocessTakes(cfg, s.world.disk, s3, r2, error2);
    }
  }

  lemma DeleteTakes(cfg: Config, env: Env, d: Disk, d1: Disk, s: State, r: Request, hash: seq<byte>)
    requires SameStored(cfg, d, d1) && r.action.Delete? && s.world.disk == Effect(env, d1, r, None, hash).0
    ensures SameStored(cfg, EffectOf(cfg, env, d, s.conn, r, [], hash).0, s.world.disk)
  {
    TempMattersForWriters(env, d, r, LeftBy(cfg, d, r, s.conn.fileOpen, []), None, hash);
    EffectRespects(cfg, env, d, d1, r, None, hash);
  }

  lemma SetupReal(cfg: Config, s: State, r: Request, list: seq<Pair>)
    requires (WritesFile(r.action) ==> NamesReal(cfg, list)) && IsReal(cfg, "") && r.dest == ""
    ensures var (t, r1, error) := SetupEnvironment(cfg, s, r, list);
            && t.conn == s.conn && t.world.disk == s.world.disk && t.world.ticks == s.world.ticks
            && r1.confirm == r.confirm && r1.action == r.action && (error == SUCCESS ==> r1.ticket.Some?)
            && (WritesFile(r.action) ==> IsReal(cfg, r1.dest))
  {
  }

  lemma AfterAuthTakes(cfg: Config, s: State, r: Request, list: seq<Pair>, error: int)
    requires s.conn.request == Some(r) && !r.confirm && !Accepted(s.conn.acts) && s.conn.code == SUCCESS
    requires Clean(cfg, s.world.disk.files) && IsReal(cfg, "") && r.dest == ""
    requires error == SUCCESS && WritesFile(r.action) ==> NamesReal(cfg, list)
    ensures Effected(cfg, EnvOf(cfg, s), s.world.disk, s.conn.done, [], s.conn.hash,
                     AfterAuth(cfg, s, r, list, error).0)
  {
    if error != SUCCESS {
      RefusalTakes(cfg, EnvOf(cfg, s), s.world.disk, s, error, [], s.conn.hash);
    } else {
      SetupReal(cfg, s, r, list);
      var (s1, r1, error1) := SetupEnvironment(cfg, s, r, list);
      AfterSetupTakes(cfg, s1.(conn := s1.conn.(request := Some(r1))), r1, list, error1);
    }
  }

  lemma AuthAcceptsNothing(cfg: Config, s: State, list: seq<Pair>)
    requires s.conn.acts == []
    ensures var s1 := AuthTransaction(cfg, s, list).0;
            s1.world == s.world && s1.conn == s.conn.(acts := s1.conn.acts) && !Accepted(s1.conn.acts)
  {
    Snoc(s.conn.acts, Asked(Granted(cfg, list) && EnvOf(cfg, s).login));
  }

  lemma HeadersTake(cfg: Config, s: State, r: Request, list: seq<Pair>, s1: State, error: int)
    requires s.conn.request == Some(r) && !r.confirm && r.dest == "" && s.conn.acts == [] && s.conn.code == SUCCESS
    requires Clean(cfg, s.world.disk.files) && IsReal(cfg, "") && (s1, error) == AuthTransaction(cfg, s, list)
    requires HasAll(cfg, list, Required(r.action, cfg.strayRow)) && error == SUCCESS && WritesFile(r.action) ==>
               NamesReal(cfg, list)
    ensures Effected(cfg, EnvOf(cfg, s), s.world.disk, s.conn.done, [], s.conn.hash,
                     if HasAll(cfg, list, Required(r.action, cfg.strayRow)) then AfterAuth(cfg, s1, r, list, error).0
                     else Fail(cfg, s, MISSING_ATTRIBS).0)
  {
    AuthAcceptsNothing(cfg, s, list);
    if HasAll(cfg, list, Required(r.action, cfg.strayRow)) {
      AfterAuthTakes(cfg, s1, r, list, error);
    } else {
      RefusalTakes(cfg, EnvOf(cfg, s), s.world.disk, s, MISSING_ATTRIBS, [], s.conn.hash);
    }
  }

  lemma HeadersDoneTakes(cfg: Config, s: State)
    requires s.conn.request.Some? && s.conn.request.value == NewRequest(s.conn.request.value.info)
    requires s.conn.acts == [] && s.conn.code == SUCCESS && IsReal(cfg, "") && Clean(cfg, s.world.disk.files)
    requires s.conn.phase.HeadersRead? && s.conn.index == s.conn.length && Proper(cfg, s)
    ensures Effected(cfg, EnvOf(cfg, s), s.world.disk, s.conn.done, [], s.conn.hash, HeadersDone(cfg, s).0)
  {
    var list := cfg.parse(s.conn.got);
    var r := s.conn.request.value.(action := ReadAction(cfg.reading, list));
    var s1 := s.(conn := s.conn.(request := Some(r)));
    HeadersTake(cfg, s1, r, list, AuthTransaction(cfg, s1, list).0, AuthTransaction(cfg, s1, list).1);
  }

  // ----- events ------------------------------------------------------------------------------

  /** The body of the packet that a connection reads. */
  function DueBody(c: Conn): seq<byte>
    requires c.index <= c.consumed <= |c.input|
  {
    if c.phase.ConfirmUpload? then SoFar(c) else []
  }

  lemma BodyIsComplete(cfg: Config, s: State)
    requires Sound(s.conn) && s.conn.index == s.conn.length && Owns(cfg, s.conn, s.world)
    requires s.conn.phase.ConfirmUpload? || s.conn.phase.Upload?
    ensures Complete(cfg, s.world.disk, s, s.conn.request.value, DueBody(s.conn))
  {
    PhaseDoneIsCurrent(s.conn);
  }

  lemma CallbackTakes(cfg: Config, s: State)
    requires Distinct(cfg) && Sound(s.conn) && s.conn.open && s.conn.index == s.conn.length
    requires Owns(cfg, s.conn, s.world) && Proper(cfg, s)
    ensures Effected(cfg, EnvOf(cfg, s), s.world.disk, s.conn.done, DueBody(s.conn), s.conn.hash, Callback(cfg, s).0)
  {
    match s.conn.phase {
      case MagicRead =>
      case HeadersRead => HeadersDoneTakes(cfg, s);
      case ConfirmUpload =>
        BodyIsComplete(cfg, s);
        UploadDoneTakes(cfg, s.world.disk, s, s.conn.request.value, DueBody(s.conn));
      case Upload =>
        BodyIsComplete(cfg, s);
        UploadDoneTakes(cfg, s.world.disk, s, s.conn.request.value, DueBody(s.conn));
    }
  }

  lemma AfterCallbackTakes(cfg: Config, env: Env, d: Disk, done: seq<Exchange>, body: seq<byte>, hash: seq<byte>,
                           s: State, ok: bool)
    requires Effected(cfg, env, d, done, body, hash, s)
    ensures Effected(cfg, env, d, done, body, hash, AfterCallback(cfg, s, ok))
  {
    if !ok {
      var d' := if s.conn.done == done then d
                else if !Accepted(s.conn.done[|done|].acts) then d
                else EffectFor(cfg, env, d, s.conn.done[|done|], body, hash).0;
      ResetKeepsStored(cfg, d', s);
    }
  }

  lemma AfterReadTakes(cfg: Config, s: State, t: State)
    requires Distinct(cfg) && Sound(s.conn) && s.conn.open
    requires Owns(cfg, s.conn, s.world) && Proper(cfg, s)
    requires t == AfterRead(cfg, s)
    ensures Effected(cfg, EnvOf(cfg, s), s.world.disk, s.conn.done, DueBody(s.conn), s.conn.hash, t)
  {
    if s.conn.index == s.conn.length {
      CallbackTakes(cfg, s);
      AfterCallbackTakes(cfg, EnvOf(cfg, s), s.world.disk, s.conn.done, DueBody(s.conn), s.conn.hash,
                         Callback(cfg, s).0, Callback(cfg, s).1);
    }
  }

  // ----- packets on the stream ---------------------------------------------------------------

  /** The body of a packet that starts at a position of a stream. */
  function BodyAt(input: seq<byte>, at: nat, info: Header): seq<byte>
  {
    var start := at + MAGIC_LENGTH + info.headerLength;
    if start + info.dataLength <= |input| then input[start..start + info.dataLength] else []
  }

  /** The digest on hand after a packet: that of a body that went to a file, or an older one. */
  function HashAfter(cfg: Config, hash: seq<byte>, inFile: bool, body: seq<byte>): seq<byte>
  {
    if inFile && body != [] then Hexify(cfg.sha256(body)) else hash
  }

  lemma DueBodyStarts(c: Conn)
    requires Sound(c) && c.open && c.phase.ConfirmUpload? && c.index == c.length
    ensures c.index == c.request.value.info.dataLength && c.consumed <= |c.input|
    ensures c.consumed - c.index == UsedBy(c.done) + MAGIC_LENGTH + c.request.value.info.headerLength
  {
    PhaseDoneIsCurrent(c);
  }

  lemma BodyIsThere(input: seq<byte>, at: nat, info: Header, start: nat, end: nat)
    requires start == at + MAGIC_LENGTH + info.headerLength && end == start + info.dataLength <= |input|
    ensures BodyAt(input, at, info) == input[start..end]
  {
  }

  lemma DueBodyIs(c: Conn)
    requires Sound(c) && c.open && c.phase.ConfirmUpload? && c.index == c.length
    ensures DueBody(c) == BodyAt(c.input, UsedBy(c.done), c.request.value.info)
    ensures |DueBody(c)| == c.request.value.info.dataLength
  {
    DueBodyStarts(c);
    BodyIsThere(c.input, UsedBy(c.done), c.request.value.info, c.consumed - c.index, c.consumed);
  }

  /** What went on record when `c` became `t`, told by the stream of `c`. */
  ghost predicate PacketTook(cfg: Config, env: Env, d: Disk, c: Conn, e: Exchange, after: Disk)
  {
    var body := BodyAt(c.input, UsedBy(c.done), e.request.info);
    Took(cfg, env, d, e, body, HashAfter(cfg, c.hash, e.inFile, body), after)
  }

  // ----- the request on record ---------------------------------------------------------------

  /** The record of a packet holds the request as it was at the end, and whether its file was open. */
  ghost predicate RecordsRequest(c: Conn, t: Conn)
    requires c.request.Some?
  {
    |t.done| == |c.done| + 1 && t.done[|c.done|].request == c.request.value && t.done[|c.done|].inFile == c.fileOpen
  }

  lemma AfterPostprocessRecords(cfg: Config, s: State, error: int)
    requires s.conn.request.Some?
    ensures RecordsRequest(s.conn, AfterPostprocess(cfg, s, error).0.conn)
  {
  }

  lemma PostprocessKeepsFile(cfg: Config, s: State)
    requires s.conn.request.Some?
    ensures ActionPostprocess(cfg, SendData(cfg, s)).0.conn.fileOpen == s.conn.fileOpen
    ensures ActionPostprocess(cfg, SendData(cfg, s)).0.conn.request == s.conn.request
  {
  }

  lemma UploadDoneRecords(cfg: Config, s: State)
    requires s.conn.request.Some?
    ensures RecordsRequest(s.conn, UploadDone(cfg, s).0.conn)
  {
    if !(s.conn.request.value.confirm && s.conn.got != ACCEPT) {
      var (s1, error) := ActionPostprocess(cfg, SendData(cfg, s));
      PostprocessKeepsPacket(cfg, s);
      PostprocessKeepsFile(cfg, s);
      AfterPostprocessRecords(cfg, s1, error);
    }
  }

  lemma DispatchRecords(cfg: Config, s: State, t: State)
    requires Sound(s.conn) && (s.conn.phase.ConfirmUpload? || s.conn.phase.Upload?) && t == Dispatch(cfg, s)
    ensures RecordsRequest(s.conn, t.conn)
  {
    UploadDoneRecords(cfg, s);
  }

  // ----- events ------------------------------------------------------------------------------

  /** The digest of a body that went to a file is on hand when it is complete. */
  lemma DigestIs(cfg: Config, c: Conn, s: State, body: seq<byte>)
    requires Sound(s.conn) && s.conn.index == s.conn.length && Owns(cfg, s.conn, s.world) && body == DueBody(s.conn)
    requires s.conn.fileOpen || c.hash == s.conn.hash
    ensures s.conn.hash == HashAfter(cfg, c.hash, s.conn.fileOpen, body)
  {
  }

  /** The body of a record is the one that a complete phase has at hand. */
  lemma RecordHasBody(c: Conn, s: State, e: Exchange)
    requires Sound(s.conn) && s.conn.open && s.conn.index == s.conn.length
    requires c.input == s.conn.input && c.done == s.conn.done
    requires s.conn.request.Some? && e.request.info == s.conn.request.value.info
    requires e.request.info.dataLength == |DueBody(s.conn)|
    ensures BodyAt(c.input, UsedBy(c.done), e.request.info) == DueBody(s.conn)
  {
    if s.conn.phase.ConfirmUpload? {
      DueBodyIs(s.conn);
    }
  }

  /** And so is its digest. */
  lemma RecordHasHash(cfg: Config, c: Conn, s: State, t: State, e: Exchange)
    requires Sound(s.conn) && s.conn.open && s.conn.index == s.conn.length && Owns(cfg, s.conn, s.world)
    requires s.conn.fileOpen || c.hash == s.conn.hash
    requires t == Dispatch(cfg, s) && |t.conn.done| == |s.conn.done| + 1 && e == t.conn.done[|s.conn.done|]
    ensures s.conn.hash == HashAfter(cfg, c.hash, e.inFile, DueBody(s.conn))
  {
    DigestIs(cfg, c, s, DueBody(s.conn));
    if s.conn.phase.ConfirmUpload? {
      DispatchRecords(cfg, s, t);
    }
  }

  /** The record of a complete phase, in terms of the stream. */
  lemma RecordTook(cfg: Config, c: Conn, s: State, t: State, e: Exchange, after: Disk)
    requires Sound(s.conn) && s.conn.open && s.conn.index == s.conn.length && Owns(cfg, s.conn, s.world)
    requires c.input == s.conn.input && c.done == s.conn.done && (s.conn.fileOpen || c.hash == s.conn.hash)
    requires t == Dispatch(cfg, s) && |t.conn.done| == |s.conn.done| + 1 && e == t.conn.done[|s.conn.done|]
    requires s.conn.request.Some? && e.request.info == s.conn.request.value.info
    requires Took(cfg, EnvOf(cfg, s), s.world.disk, e, DueBody(s.conn), s.conn.hash, after)
    ensures PacketTook(cfg, EnvOf(cfg, s), s.world.disk, c, e, after)
  {
    if Accepted(e.acts) {
      RecordHasBody(c, s, e);
      RecordHasHash(cfg, c, s, t, e);
    }
  }

  lemma TookFrom(cfg: Config, env: Env, d: Disk, d': Disk, e: Exchange, body: seq<byte>, hash: seq<byte>, after: Disk)
    requires SameStored(cfg, d, d') && (d == d' || e.inFile) && Took(cfg, env, d', e, body, hash, after)
    ensures Took(cfg, env, d, e, body, hash, after)
  {
    if Accepted(e.acts) {
      EffectRespects(cfg, env, d, d', e.request, LeftBy(cfg, d, e.request, e.inFile, body), hash);
      StoredTwice(cfg, EffectFor(cfg, env, d, e, body, hash).0, EffectFor(cfg, env, d', e, body, hash).0, after);
    } else {
      StoredTwice(cfg, d, d', after);
    }
  }

  /** An event of a connection either changes nothing stored and records nothing, or records one
      packet, which had exactly its effect. */
  ghost predicate EventTook(cfg: Config, s: State, t: State)
  {
    if t.conn.done == s.conn.done then SameStored(cfg, s.world.disk, t.world.disk)
    else
      && |t.conn.done| == |s.conn.done| + 1 && t.conn.done[..|s.conn.done|] == s.conn.done
      && PacketTook(cfg, EnvOf(cfg, s), s.world.disk, s.conn, t.conn.done[|s.conn.done|], t.world.disk)
  }

  lemma DispatchTook(cfg: Config, c: Conn, s: State, t: State)
    requires Distinct(cfg) && Sound(s.conn) && s.conn.open && s.conn.index == s.conn.length
    requires Owns(cfg, s.conn, s.world) && Proper(cfg, s) && t == Dispatch(cfg, s)
    requires c.input == s.conn.input && c.done == s.conn.done && (s.conn.fileOpen || c.hash == s.conn.hash)
    ensures EventTook(cfg, State(c, s.world), t)
  {
    AfterReadTakes(cfg, s, t);
    OneRecordPerPacket(cfg, s);
    if t.conn.done != s.conn.done {
      RecordTook(cfg, c, s, t, t.conn.done[|s.conn.done|], t.world.disk);
    }
  }

  lemma EventTookFrom(cfg: Config, c: Conn, w: World, w': World, t: State)
    requires SameStored(cfg, w.disk, w'.disk) && w.ticks == w'.ticks && EventTook(cfg, State(c, w'), t)
    requires t.conn.done != c.done ==> w.disk == w'.disk || t.conn.done[|c.done|].inFile
    ensures EventTook(cfg, State(c, w), t)
  {
    if t.conn.done == c.done {
      StoredTwice(cfg, w.disk, w'.disk, t.world.disk);
    } else {
      var e := t.conn.done[|c.done|];
      var body := BodyAt(c.input, UsedBy(c.done), e.request.info);
      var hash := HashAfter(cfg, c.hash, e.inFile, body);
      TookFrom(cfg, cfg.env(w.ticks), w.disk, w'.disk, e, body, hash, t.world.disk);
    }
  }

  lemma ReadKeepsStored(cfg: Config, s: State, n: nat, t: State)
    requires s.conn.consumed + n <= |s.conn.input| && t == ReadSome(cfg, s, n)
    ensures SameStored(cfg, s.world.disk, t.world.disk) && t.world.ticks == s.world.ticks
    ensures t.conn.done == s.conn.done && t.conn.fileOpen == s.conn.fileOpen
    ensures s.conn.fileOpen || (t.conn.hash == s.conn.hash && t.world == s.world)
  {
    if Ticket(s.conn).Some? {
      assert AtOrBelow(cfg.names.temp(Ticket(s.conn).value), cfg.names.temp(Ticket(s.conn).value));
    }
  }

  /** What an event puts on record while a file is open is a packet whose body went to it. */
  lemma OpenFileIsRecorded(cfg: Config, s: State, t: State)
    requires Sound(s.conn) && s.conn.open && s.conn.index == s.conn.length && s.conn.fileOpen && t == Dispatch(cfg, s)
    ensures |t.conn.done| == |s.conn.done| + 1 && t.conn.done[|s.conn.done|].inFile
  {
    DispatchRecords(cfg, s, t);
  }

  lemma EventTakes(cfg: Config, s: State, cuts: seq<nat>, t: State)
    requires Distinct(cfg) && Sound(s.conn) && s.conn.open && !Exits(s.conn)
    requires Owns(cfg, s.conn, s.world) && Proper(cfg, AfterReads(cfg, s, cuts)) && t == Event(cfg, s, cuts)
    ensures EventTook(cfg, s, t)
  {
    var n, s1 := TakenNow(s.conn, cuts), AfterReads(cfg, s, cuts);
    ReadKeepsStored(cfg, s, n, s1);
    ReadSomeIsSound(cfg, s, n);
    ReadSomeOwns(cfg, s, n);
    if s1.conn.index == s1.conn.length {
      DispatchTook(cfg, s.conn, s1, t);
      if s1.conn.fileOpen {
        OpenFileIsRecorded(cfg, s1, t);
      }
      EventTookFrom(cfg, s.conn, s.world, s1.world, t);
    }
  }
}

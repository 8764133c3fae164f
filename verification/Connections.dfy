/** A client connection as the program keeps it: a record that the read loop and the callbacks
    update in place. Every method is proved to do what its function on values does. */
module Connections {
  import opened Exchanges
  import opened FileStore
  import opened Fragmentation
  import opened HashTables
  import opened Headers
  import opened Hex
  import opened Network
  import opened PathAlgebra
  import opened Protocol
  import opened Responses
  import opened Servers
  import opened Wire

  /** One packet through a fresh response writer. */
  method WritePacket(header: seq<byte>, source: Source) returns (packet: seq<byte>)
    requires |header| <= 4080
    ensures packet == Sent(header, source).0
  {
    var response := new Response();
    var error := response.Write(header, source);
    packet := response.sent;
  }

  /** The text of a digest, made in a fresh buffer. */
  method HexText(source: seq<byte>) returns (hex: seq<byte>)
    ensures hex == Hexify(source)
  {
    var dest := new byte[2 * |source|];
    StringHexify(dest, source);
    hex := dest[..2 * |source|];
  }

  /** Where the file of a header list is stored. */
  function ClientFile(cfg: Config, list: seq<Pair>): string
  {
    match cfg.lookup(list, "filename")
    case None => ""
    case Some(pair) => cfg.names.stored(pair.text)
  }

  /** The file that the packet at hand writes in the callback of its phase is not its own temporary
      file. */
  ghost predicate WritesElsewhere(cfg: Config, s: State)
  {
    s.conn.index == s.conn.length ==>
    match s.conn.phase
    case HeadersRead =>
      var list := cfg.parse(s.conn.got);
      Admitted(cfg, s, list) && WritesFile(ReadAction(cfg.reading, list)) ==>
        ClientFile(cfg, list) != cfg.names.temp(s.world.counter + 1)
    case ConfirmUpload =>
      s.conn.request.Some? && s.conn.request.value.ticket.Some? && WritesFile(s.conn.request.value.action) ==>
        s.conn.request.value.dest != cfg.names.temp(s.conn.request.value.ticket.value)
    case _ => true
  }

  /** So it is where headers are proper and a connection owns what it should. */
  lemma ProperWritesElsewhere(cfg: Config, s: State)
    requires IsReal(cfg, "") && Proper(cfg, s) && Named(cfg, s.conn, s.world)
    ensures WritesElsewhere(cfg, s)
  {
    if s.conn.index == s.conn.length {
      CompleteWritesElsewhere(cfg, s);
    }
  }

  lemma CompleteWritesElsewhere(cfg: Config, s: State)
    requires IsReal(cfg, "") && Proper(cfg, s) && Named(cfg, s.conn, s.world) && s.conn.index == s.conn.length
    ensures WritesElsewhere(cfg, s)
  {
    match s.conn.phase {
      case HeadersRead =>
        var list := cfg.parse(s.conn.got);
        if Admitted(cfg, s, list) && WritesFile(ReadAction(cfg.reading, list)) {
          assert IsReal(cfg, ClientFile(cfg, list));
          assert !AtOrBelow(ClientFile(cfg, list), cfg.names.temp(s.world.counter + 1));
        }
      case ConfirmUpload =>
        if Ticket(s.conn).Some? && WritesFile(s.conn.request.value.action) {
          assert !AtOrBelow(s.conn.request.value.dest, cfg.names.temp(Ticket(s.conn).value));
        }
      case _ =>
    }
  }

  function NamingError(env: Env, r: Request, filename: string): int
  {
    if filename == "" then ATTRIB_VALUE_INVALID
    else if !env.filesFolder || (WritesFile(r.action) && !env.makeFolders) then SETUP_ENVIRONMENT_FAILED
    else SUCCESS
  }

  function NamedBy(cfg: Config, env: Env, r: Request, filename: string): Request
  {
    if filename == "" || !env.filesFolder then r
    else r.(key := Some(cfg.names.key(filename)), dest := cfg.names.stored(filename))
  }

  lemma SetupIs(cfg: Config, s: State, r: Request, list: seq<Pair>, filename: Option<Pair>, named: Request, error: int)
    requires EnvOf(cfg, s).tempFolder && filename == cfg.lookup(list, "filename")
    requires var r1 := r.(ticket := Some(s.world.counter + 1));
             if filename.None? then named == r1 && error == SUCCESS
             else named == NamedBy(cfg, EnvOf(cfg, s), r1, filename.value.text)
                  && error == NamingError(EnvOf(cfg, s), r1, filename.value.text)
    ensures Protocol.SetupEnvironment(cfg, s, r, list)
            == (s.(world := s.world.(counter := s.world.counter + 1)), named, error)
  {
  }

  /** What only the proof keeps: the bytes of the phase in memory and the records. */
  datatype Book = Book(got: seq<byte>, read: nat, acts: seq<Act>, done: seq<Exchange>)

  class Connection {
    const cfg: Config
    const store: Store
    const offsets: Offsets
    const client: int
    const input: seq<byte>
    const address: array<byte>
    var consumed: nat
    var open: bool
    var phase: Phase
    var index: nat
    var length: nat
    var fileOpen: bool
    var hashed: seq<byte>
    var hash: seq<byte>
    var request: Option<Request>
    var code: int
    var out: seq<byte>
    ghost var book: Book

    /** The connection as a value. */
    ghost function AsConn(): Conn
      reads this
    {
      Conn(input, consumed, open, phase, index, length, book.got, fileOpen, hashed, hash, request, code, out,
           book.read, book.acts, book.done)
    }

    /** The connection and the shared store as a value. */
    ghost function AsState(): State
      reads this, store
    {
      State(AsConn(), World(store.AsDisk(), store.counter, store.ticks))
    }

    /** A phase that is kept in memory lies at the start of the buffer. */
    ghost predicate Valid()
      reads this, address
    {
      && address.Length == READ_BUFFER
      && (!fileOpen ==> index <= READ_BUFFER && book.got == address[..index])
    }

    constructor (cfg: Config, store: Store, offsets: Offsets, client: int, input: seq<byte>)
      ensures Valid() && fresh(address)
      ensures this.cfg == cfg && this.store == store && this.offsets == offsets && this.client == client
      ensures AsState() == State(NewConn(input), World(store.AsDisk(), store.counter, store.ticks))
    {
      this.cfg, this.store, this.offsets, this.client, this.input := cfg, store, offsets, client, input;
      address := new byte[READ_BUFFER](_ => 0);
      consumed, open, phase, index, length := 0, true, MagicRead, 0, MAGIC_LENGTH;
      fileOpen, hashed, hash, request, code, out := false, [], Zeros(64), None, 0, [];
      book := Book([], 0, [], []);
    }

    // ----- responses and resets --------------------------------------------------------------

    /** `s3_handle_response`, and the sending of data. */
    method HandleResponse(newCode: int, source: Source)
      requires Valid() && Fits(cfg)
      modifies this
      ensures Valid() && AsState() == Say(cfg, old(AsState()), newCode, source)
    {
      code := newCode;
      var packet := WritePacket(cfg.serialize(newCode), source);
      out := out + packet;
      book := book.(acts := book.acts + [Said(newCode)]);
    }

    /** The temporary file of the request goes. */
    method Unlink()
      requires Valid()
      modifies store`files
      ensures var temp := if request.Some? then TempOf(cfg, request.value) else None;
              store.files == if temp.Some? then old(store.files) - {temp.value} else old(store.files)
    {
      var temp := if request.Some? then TempOf(cfg, request.value) else None;
      if temp.Some? {
        store.files := store.files - {temp.value};
      }
    }

    /** `s3_connection_reset_new_packet`. */
    method ResetNewPacket()
      requires Valid()
      modifies this, store`files
      ensures Valid() && AsState() == Protocol.ResetNewPacket(cfg, old(AsState()))
    {
      Unlink();
      ClearPacket();
    }

    method ClearPacket()
      requires Valid()
      modifies this
      ensures Valid() && AsState().world == old(AsState()).world
      ensures AsState().conn == old(AsState()).conn.(fileOpen := false, request := None, index := 0,
                                                     length := MAGIC_LENGTH, phase := MagicRead, got := [], read := 0,
                                                     acts := [])
    {
      fileOpen, index, length, phase, request := false, 0, MAGIC_LENGTH, MagicRead, None;
      book := Book([], 0, [], book.done);
    }

    /** The record of a finished packet, and the reset. */
    method FinishPacket()
      requires Valid()
      modifies this, store`files
      ensures Valid() && AsState() == Finish(cfg, old(AsState()))
    {
      if request.Some? {
        book := book.(done := book.done + [Exchange(request.value, book.read, book.acts, fileOpen)]);
      }
      ResetNewPacket();
    }

    /** `s3_connection_reset_with_response`, as `RESPONSE_RESET_RETURN` uses it. */
    method ResetWithResponse(error: int) returns (ok: bool)
      requires Valid() && Fits(cfg)
      modifies this, store`files
      ensures Valid() && (AsState(), ok) == Fail(cfg, old(AsState()), error)
    {
      HandleResponse(error, MessageSource(error));
      FinishPacket();
      ok := error <= ERRORS;
    }

    method AwaitPhase(next: Phase, size: nat)
      requires address.Length == READ_BUFFER
      modifies this
      ensures Valid() && AsState() == Await(old(AsState()), next, size)
    {
      phase, index, length, book := next, 0, size, book.(got := []);
    }

    // ----- the end of a packet ---------------------------------------------------------------

    /** A file to be sent that cannot be opened, or a listing that does not fit. */
    ghost predicate SendDies()
      reads this, store
      requires request.Some?
    {
      (request.value.action.RequestFile? || request.value.action.Dir?) && WorkDies(cfg, AsState())
    }

    /** `s3_action_send`, which may come to a null pointer. */
    method ActionSend() returns (died: bool)
      requires Valid() && Fits(cfg) && request.Some?
      modifies this
      ensures died == old(SendDies())
      ensures !died ==> Valid() && AsState() == SendData(cfg, old(AsState()))
    {
      match request.value.action {
        case RequestFile =>
          var seen := Seen(store.files, cfg.env(store.ticks).end.look, request.value.dest);
          if seen.None? {
            return true;
          }
          HandleResponse(DATA_READY, File(seen.value));
        case Dir =>
          if !ListingFits(cfg, cfg.env(store.ticks)) {
            return true;
          }
          HandleResponse(DATA_READY, Message(cfg.env(store.ticks).listing.value));
        case _ =>
      }
      return false;
    }

    /** The request has its temporary file, and the file that it writes is another one. */
    ghost predicate HasFiles()
      reads this
    {
      && request.Some? && request.value.ticket.Some?
      && (WritesFile(request.value.action) ==> request.value.dest != cfg.names.temp(request.value.ticket.value))
    }

    /** `s3_action_postprocess`, which may come to a null pointer. */
    method Postprocess() returns (error: int, died: bool)
      requires Valid() && Fits(cfg) && HasFiles()
      modifies this, store
      ensures died == (old(request.value.action).Notification? && WorkDies(cfg, old(AsState())))
      ensures !died ==> Valid() && (AsState(), error) == ActionPostprocess(cfg, old(AsState()))
      ensures died ==> store.AsDisk() == old(store.AsDisk())
    {
      var r, calls := request.value, cfg.env(store.ticks).end;
      var temp := cfg.names.temp(r.ticket.value);
      error, died := SUCCESS, false;
      match r.action {
        case Create =>
          var ok := store.PostprocessCreate(if r.key.Some? then r.key.value else "", r.dest, temp, r.append,
                                            r.info.dataLength, StoredHash(hash), calls);
          error := if ok then SUCCESS else SERVER_FILE_ERROR;
        case Update =>
          var ok := store.PostprocessUpdate(r.dest, temp, r.at, r.trim, r.info.dataLength, calls);
          error := if ok then SUCCESS else SERVER_INTERNAL_ERROR;
        case Notification =>
          died := Seen(store.files, calls.look, temp).None?;
        case Server =>
          HandleResponse(DATA_READY, Message(cfg.serverInfo));
        case Invalid =>
          error := SERVER_INTERNAL_ERROR;
        case _ =>
      }
    }

    method FinalResponse(error: int) returns (ok: bool)
      requires Valid() && Fits(cfg)
      modifies this, store`files
      ensures Valid() && (AsState(), ok) == AfterPostprocess(cfg, old(AsState()), error)
    {
      ok := true;
      if error != SUCCESS {
        ok := ResetWithResponse(error);
      } else {
        if code != DATA_READY {
          HandleResponse(PACKET_OK, MessageSource(PACKET_OK));
        }
        FinishPacket();
      }
    }

    /** `s3_connection_post_process`. */
    method PostProcessPacket() returns (ok: bool, died: bool)
      requires Valid() && Fits(cfg) && HasFiles()
      modifies this, store
      ensures died == (old(request.value.action).Notification? && WorkDies(cfg, old(AsState())))
      ensures !died ==> Valid() && (AsState(), ok) == PostProcess(cfg, old(AsState()))
      ensures died ==> store.AsDisk() == old(store.AsDisk())
    {
      var error;
      error, died := Postprocess();
      ok := false;
      if !died {
        ok := FinalResponse(error);
      }
    }

    /** The file or the listing is sent, and the packet ends. */
    method SendAndFinish() returns (ok: bool, died: bool)
      requires Valid() && Fits(cfg) && HasFiles()
      modifies this, store
      ensures died == WorkDies(cfg, old(AsState()))
      ensures !died ==> Valid() && (AsState(), ok) == PostProcess(cfg, SendData(cfg, old(AsState())))
      ensures died ==> store.AsDisk() == old(store.AsDisk())
    {
      died := ActionSend();
      ok := false;
      if !died {
        ok, died := PostProcessPacket();
      }
    }

    /** `s3_connection_upload`. */
    method UploadPacket() returns (ok: bool, died: bool)
      requires Valid() && Fits(cfg) && HasFiles() && (request.value.confirm ==> !fileOpen)
      modifies this, store
      ensures died == UploadDies(cfg, old(AsState()))
      ensures !died ==> Valid() && (AsState(), ok) == UploadDone(cfg, old(AsState()))
      ensures died ==> store.AsDisk() == old(store.AsDisk())
    {
      if request.value.confirm && address[..index] != ACCEPT {
        ok := ResetWithResponse(NETWORK_ERROR_WRITE);
        died := false;
      } else {
        ok, died := SendAndFinish();
      }
    }

    /** `s3_connection_confirm_upload`. */
    method ConfirmPacket() returns (ok: bool, died: bool)
      requires Valid() && Fits(cfg) && HasFiles()
      modifies this, store
      ensures died == ConfirmDies(cfg, old(AsState()))
      ensures !died ==> Valid() && (AsState(), ok) == ConfirmDone(cfg, old(AsState()))
      ensures died ==> store.AsDisk() == old(store.AsDisk())
    {
      if request.value.confirm {
        HandleResponse(DATA_MORE, MessageSource(DATA_MORE));
        AwaitPhase(Phase.Upload, ACCEPT_LENGTH);
        ok, died := true, false;
      } else {
        ok, died := UploadPacket();
      }
    }

    // ----- the headers -----------------------------------------------------------------------

    /** `s3_attrib_get`, from the header table. */
    method Attrib(table: HashTable<Pair>, ghost list: seq<Pair>, key: string) returns (found: Option<Pair>)
      requires FindsFirst(cfg) && Indexes(table, list)
      ensures found == cfg.lookup(list, key)
    {
      found := AttribGet(table, list, key);
    }

    /** `s3_attribs_assert`. */
    method AssertAttribs(table: HashTable<Pair>, ghost list: seq<Pair>, keys: seq<string>) returns (complete: bool)
      requires FindsFirst(cfg) && Indexes(table, list)
      ensures complete == HasAll(cfg, list, keys)
    {
      complete := AttribsAssert(table, list, keys);
      assert forall i :: 0 <= i < |keys| ==> Has(cfg, list, keys[i]) == Contains(list, keys[i]);
    }

    /** `s3_auth_transaction`. */
    method AuthTransaction(table: HashTable<Pair>, ghost list: seq<Pair>) returns (error: int)
      requires Valid() && FindsFirst(cfg) && Indexes(table, list)
      modifies this`book
      ensures Valid() && (AsState(), error) == Protocol.AuthTransaction(cfg, old(AsState()), list)
    {
      var user := Attrib(table, list, "username");
      var secret := Attrib(table, list, "secret");
      error := SUCCESS;
      if user.Some? && secret.Some? {
        var hexed := HexText(cfg.sha256(Bytes(secret.value.text)));
        var granted := (user.value.text, hexed) in cfg.users && cfg.env(store.ticks).login;
        book := book.(acts := book.acts + [Asked(granted)]);
        error := if granted then SUCCESS else FAILED_AUTHENTICATION;
      } else if user.Some? || secret.Some? {
        error := MIX_AUTH_ERROR;
      }
    }

    /** `s3_setup_environment`. */
    method SetupEnvironment(table: HashTable<Pair>, ghost list: seq<Pair>) returns (error: int)
      requires Valid() && FindsFirst(cfg) && Indexes(table, list) && request.Some?
      modifies this`request, store`counter
      ensures Valid()
      ensures var (s1, r1, error1) := Protocol.SetupEnvironment(cfg, old(AsState()), old(request.value), list);
              AsState() == s1.(conn := s1.conn.(request := Some(r1))) && error == error1
    {
      if !cfg.env(store.ticks).tempFolder {
        return CANNOT_CREATE_TEMP_FILE;
      }
      ghost var s, start := AsState(), request.value;
      store.counter := store.counter + 1;
      var r := request.value.(ticket := Some(store.counter));
      error := SUCCESS;
      var filename := Attrib(table, list, "filename");
      if filename.Some? {
        r, error := NameFiles(r, filename.value.text);
      }
      request := Some(r);
      SetupIs(cfg, s, start, list, filename, r, error);
    }

    /** `filemgmt_set_real_path` and `filemgmt_mkdirs`: the names for the client's file. */
    method NameFiles(r: Request, filename: string) returns (named: Request, error: int)
      ensures error == NamingError(cfg.env(store.ticks), r, filename)
      ensures named == NamedBy(cfg, cfg.env(store.ticks), r, filename)
    {
      named, error := r, SUCCESS;
      if filename == "" {
        error := ATTRIB_VALUE_INVALID;
      } else if !cfg.env(store.ticks).filesFolder {
        error := SETUP_ENVIRONMENT_FAILED;
      } else {
        named := r.(key := Some(cfg.names.key(filename)), dest := cfg.names.stored(filename));
        if WritesFile(r.action) && !cfg.env(store.ticks).makeFolders {
          error := SETUP_ENVIRONMENT_FAILED;
        }
      }
    }

    method OpenTempFile()
      requires Valid() && request.Some? && !fileOpen
      modifies this`fileOpen, store`files
      ensures Valid() && AsState() == OpenTemp(cfg, old(AsState()), old(request.value))
    {
      fileOpen := && TempFileRequired(request.value.action) && request.value.ticket.Some?
                  && cfg.env(store.ticks).tempOpens
                  && Bare(store.files, cfg.names.temp(request.value.ticket.value));
      if fileOpen {
        store.files := store.files[cfg.names.temp(request.value.ticket.value) := []];
      }
    }

    /** `s3_preprocess_update`. */
    method PreprocessUpdate(table: HashTable<Pair>, ghost list: seq<Pair>) returns (error: int)
      requires Valid() && FindsFirst(cfg) && Indexes(table, list) && request.Some? && request.value.action.Update?
      modifies this`request
      ensures Valid()
      ensures var (s1, r1, error1) := Preprocess(cfg, old(AsState()), old(request.value), list);
              AsState() == s1.(conn := s1.conn.(request := Some(r1))) && error == error1
    {
      var found := FoundFor(store.AsDisk(), cfg.env(store.ticks).look, request.value);
      if found.None? {
        return FILE_NOT_FOUND;
      }
      var at := Attrib(table, list, "updateat");
      var trim := Attrib(table, list, "trim");
      if at.None? || trim.None? {
        return ATTRIB_VALUE_INVALID;
      }
      if at.value.length < 0 || at.value.length > |found.value| {
        return FILE_UPDATE_OUTOFBOUNDS;
      }
      request := Some(request.value.(at := at.value.length, trim := trim.value.length != 0));
      return SUCCESS;
    }

    /** `s3_preprocess_create`. */
    method PreprocessCreate(table: HashTable<Pair>, ghost list: seq<Pair>) returns (error: int)
      requires Valid() && FindsFirst(cfg) && Indexes(table, list) && request.Some? && request.value.action.Create?
      modifies this`request
      ensures Valid()
      ensures var (s1, r1, error1) := Preprocess(cfg, old(AsState()), old(request.value), list);
              AsState() == s1.(conn := s1.conn.(request := Some(r1))) && error == error1
    {
      var append := Attrib(table, list, "append");
      var found := FoundFor(store.AsDisk(), cfg.env(store.ticks).look, request.value);
      if found.Some? && append.None? {
        return FILE_EXISTS_ALREADY;
      }
      request := Some(request.value.(append := append.Some?));
      return SUCCESS;
    }

    /** `s3_preprocess_delete`. */
    method PreprocessDelete(ghost list: seq<Pair>) returns (error: int)
      requires Valid() && request.Some? && request.value.action.Delete?
      modifies store`rows
      ensures Valid()
      ensures var (s1, r1, error1) := Preprocess(cfg, old(AsState()), old(request.value), list);
              AsState() == s1.(conn := s1.conn.(request := Some(r1))) && error == error1
    {
      if request.value.info.dataLength != 0 {
        return UNEXPECTED_DATA_FROM_CLIENT;
      }
      if !cfg.env(store.ticks).database {
        return SERVER_INTERNAL_ERROR;
      }
      if request.value.key.Some? {
        store.rows := WithoutRows(store.rows, request.value.key.value);
      }
      return SUCCESS;
    }

    /** `s3_preprocess_request`. */
    method PreprocessFile(ghost list: seq<Pair>) returns (error: int)
      requires Valid() && request.Some? && request.value.action.RequestFile?
      modifies this`request
      ensures Valid()
      ensures var (s1, r1, error1) := Preprocess(cfg, old(AsState()), old(request.value), list);
              AsState() == s1.(conn := s1.conn.(request := Some(r1))) && error == error1
    {
      if FoundFor(store.AsDisk(), cfg.env(store.ticks).look, request.value).None? {
        return FILE_NOT_FOUND;
      }
      if request.value.info.dataLength != 0 {
        return UNEXPECTED_DATA_FROM_CLIENT;
      }
      request := Some(request.value.(confirm := true));
      return SUCCESS;
    }

    /** The actions that look at lengths and folders only. */
    method PreprocessOther(ghost list: seq<Pair>) returns (error: int)
      requires Valid() && request.Some? && !WritesFile(request.value.action)
      requires !request.value.action.Delete? && !request.value.action.RequestFile?
      ensures Preprocess(cfg, AsState(), request.value, list) == (AsState(), request.value, error)
    {
      var size := request.value.info.dataLength;
      match request.value.action {
        case Notification =>
          error := if 0 < size < NOTIFICATION_LIMIT then SUCCESS else NOTIFY_TOOBIG;
        case Dir =>
          error := if size != 0 then UNEXPECTED_DATA_FROM_CLIENT else SUCCESS;
          if !cfg.env(store.ticks).folderFound {
            error := FOLDER_NOT_FOUND;
          }
        case Server =>
          error := if size != 0 then UNEXPECTED_DATA_FROM_CLIENT else SUCCESS;
        case Login =>
          error := SUCCESS;
        case _ =>
          error := SERVER_INTERNAL_ERROR;
      }
    }

    /** `s3_action_preprocess`. */
    method PreprocessAction(table: HashTable<Pair>, ghost list: seq<Pair>) returns (error: int)
      requires Valid() && FindsFirst(cfg) && Indexes(table, list) && request.Some?
      modifies this`request, store`rows
      ensures Valid()
      ensures var (s1, r1, error1) := Preprocess(cfg, old(AsState()), old(request.value), list);
              AsState() == s1.(conn := s1.conn.(request := Some(r1))) && error == error1
    {
      match request.value.action {
        case Create => error := PreprocessCreate(table, list);
        case Update => error := PreprocessUpdate(table, list);
        case Delete => error := PreprocessDelete(list);
        case RequestFile => error := PreprocessFile(list);
        case _ => error := PreprocessOther(list);
      }
    }

    /** The body is asked for, or the packet goes on without one. */
    method AskForBody(error: int) returns (ok: bool, died: bool)
      requires Valid() && Fits(cfg) && request.Some? && (error == SUCCESS ==> HasFiles())
      modifies this, store
      ensures died == AfterPreprocessDies(cfg, old(AsState()), error)
      ensures !died ==> Valid() && (AsState(), ok) == AfterPreprocess(cfg, old(AsState()), error)
      ensures died ==> store.AsDisk() == old(store.AsDisk())
    {
      died := false;
      if error != SUCCESS {
        ok := ResetWithResponse(error);
      } else if request.value.info.dataLength > 0 {
        var size := request.value.info.dataLength;
        HandleResponse(DATA_SEND, MessageSource(DATA_SEND));
        AwaitPhase(ConfirmUpload, size);
        ok := true;
      } else {
        ok, died := ConfirmPacket();
      }
    }

    /** The file, the preprocessing and what comes of it. */
    method PrepareAction(table: HashTable<Pair>, ghost list: seq<Pair>, error: int) returns (ok: bool, died: bool)
      requires Valid() && Fits(cfg) && FindsFirst(cfg) && Indexes(table, list) && request.Some? && !fileOpen
      requires error == SUCCESS ==> HasFiles()
      modifies this, store
      ensures died == AfterSetupDies(cfg, old(AsState()), old(request.value), list, error)
      ensures !died ==> Valid() && (AsState(), ok) == AfterSetup(cfg, old(AsState()), old(request.value), list, error)
      ensures died && !old(request.value.confirm) ==> store.AsDisk() == old(store.AsDisk())
    {
      if error != SUCCESS {
        ok := ResetWithResponse(error);
        died := false;
      } else {
        ghost var s, r := AsState(), request.value;
        var error1 := OpenAndPreprocess(table, list);
        ActsDoNotMatter(cfg, s, r, list, AsState());
        ok, died := AskForBody(error1);
        if died && !r.confirm {
          ListingTouchesNothing(cfg, s, r, list);
        }
      }
    }

    method NoteAct(ghost act: Act)
      requires Valid()
      modifies this`book
      ensures Valid() && AsState().world == old(AsState()).world
      ensures AsState().conn == old(AsState()).conn.(acts := old(AsState()).conn.acts + [act])
    {
      book := book.(acts := book.acts + [act]);
    }

    method OpenAndPreprocess(table: HashTable<Pair>, ghost list: seq<Pair>) returns (error: int)
      requires Valid() && FindsFirst(cfg) && Indexes(table, list) && HasFiles() && !fileOpen
      modifies this`request, this`fileOpen, this`book, store`files, store`rows
      ensures Valid() && HasFiles()
      ensures var r := old(request.value);
              var (s1, r1, error1) := Preprocess(cfg, OpenTemp(cfg, old(AsState()), r), r, list);
              var act := Prepared(r1.action, error1 == SUCCESS);
              AsState() == s1.(conn := s1.conn.(request := Some(r1), acts := s1.conn.acts + [act])) && error == error1
    {
      ghost var r := request.value;
      OpenTempFile();
      PreprocessFrame(cfg, AsState(), r, list);
      error := PreprocessAction(table, list);
      NoteAct(Prepared(request.value.action, error == SUCCESS));
    }

    method PrepareRequest(table: HashTable<Pair>, ghost list: seq<Pair>, error: int) returns (ok: bool, died: bool)
      requires Valid() && Fits(cfg) && FindsFirst(cfg) && Indexes(table, list) && request.Some? && !fileOpen
      requires request.value.dest == "" && !request.value.confirm
      requires error == SUCCESS && WritesFile(request.value.action) ==>
                 ClientFile(cfg, list) != cfg.names.temp(store.counter + 1)
      modifies this, store
      ensures died == AfterAuthDies(cfg, old(AsState()), old(request.value), list, error)
      ensures !died ==> Valid() && (AsState(), ok) == AfterAuth(cfg, old(AsState()), old(request.value), list, error)
      ensures died ==> store.AsDisk() == old(store.AsDisk())
    {
      if error != SUCCESS {
        ok := ResetWithResponse(error);
        died := false;
      } else {
        var error1 := SetupEnvironment(table, list);
        ok, died := PrepareAction(table, list, error1);
      }
    }

    /** `s3_connection_headers_read`. */
    method HeadersPacket() returns (ok: bool, died: bool)
      requires Valid() && Fits(cfg) && FindsFirst(cfg) && request.Some? && !fileOpen
      requires request.value.dest == "" && !request.value.confirm && phase.HeadersRead?
      requires WritesElsewhere(cfg, AsState()) && index == length
      modifies this, store
      ensures died == HeadersDie(cfg, old(AsState()))
      ensures !died ==> Valid() && (AsState(), ok) == HeadersDone(cfg, old(AsState()))
      ensures died ==> store.AsDisk() == old(store.AsDisk())
    {
      ghost var s, list := AsState(), cfg.parse(book.got);
      ghost var r := request.value.(action := ReadAction(cfg.reading, list));
      HeadersAreChecked(cfg, s, list, r, s.(conn := s.conn.(request := Some(r))));
      var table := ReadHeaders(list, r);
      ok, died := CheckHeaders(table, list);
    }

    /** The headers in memory are parsed and indexed, and the action is looked up. */
    method ReadHeaders(ghost list: seq<Pair>, ghost r: Request) returns (table: HashTable<Pair>)
      requires Valid() && request.Some? && !fileOpen && list == cfg.parse(book.got)
      requires r == request.value.(action := ReadAction(cfg.reading, list))
      modifies this`request
      ensures Valid() && AsState() == old(AsState()).(conn := old(AsState()).conn.(request := Some(r)))
      ensures Indexes(table, list) && fresh(table) && fresh(table.memory)
    {
      var pairs := cfg.parse(address[..index]);
      table := MakeHashTable(pairs, AsDocumented);
      var action := RequestReadAction(cfg.reading, pairs);
      request := Some(request.value.(action := action));
    }

    /** The required keys and the credentials. */
    method CheckHeaders(table: HashTable<Pair>, ghost list: seq<Pair>) returns (ok: bool, died: bool)
      requires Valid() && Fits(cfg) && FindsFirst(cfg) && Indexes(table, list) && request.Some? && !fileOpen
      requires request.value.dest == "" && !request.value.confirm
      requires HasAll(cfg, list, Required(request.value.action, cfg.strayRow))
               && Protocol.AuthTransaction(cfg, AsState(), list).1 == SUCCESS && WritesFile(request.value.action) ==>
                 ClientFile(cfg, list) != cfg.names.temp(store.counter + 1)
      modifies this, store
      ensures died == ChecksDie(cfg, old(AsState()), old(request.value), list)
      ensures !died ==> Valid() && (AsState(), ok) == Checked(cfg, old(AsState()), old(request.value), list)
      ensures died ==> store.AsDisk() == old(store.AsDisk())
    {
      var complete := AssertAttribs(table, list, Required(request.value.action, cfg.strayRow));
      if !complete {
        ok := ResetWithResponse(MISSING_ATTRIBS);
        died := false;
      } else {
        var error := AuthTransaction(table, list);
        ok, died := PrepareRequest(table, list, error);
      }
    }

    /** `s3_connection_magic_read`. */
    method MagicPacket() returns (ok: bool)
      requires Valid() && !fileOpen
      modifies this
      ensures Valid() && (AsState(), ok) == MagicDone(old(AsState()))
    {
      var info := ParseMagic(FromLittleEndian(address[..index]));
      if info.magic != MAGIC {
        return false;
      }
      request, code := Some(NewRequest(info)), SUCCESS;
      AwaitPhase(HeadersRead, info.headerLength);
      return true;
    }

    // ----- events ----------------------------------------------------------------------------

    /** What is written through the open temporary file. */
    method AppendToTemp(piece: seq<byte>)
      modifies store`files
      ensures store.AsDisk() == if request.Some? && request.value.ticket.Some?
                                then FileWith(old(store.AsDisk()), cfg.names.temp(request.value.ticket.value),
                                              cfg.lands(request.value.ticket.value), index, piece)
                                else old(store.AsDisk())
    {
      if request.Some? && request.value.ticket.Some? {
        var n := request.value.ticket.value;
        var temp := cfg.names.temp(n);
        store.files := store.files[temp := Content(store.AsDisk(), temp) + Landed(cfg.lands(n), index, piece)];
      }
    }

    /** The hash context: started with the first piece of a body, closed with the last. */
    method HashPiece(piece: seq<byte>)
      modifies this`hashed, this`hash
      ensures hashed == (if index == 0 then [] else old(hashed)) + piece
      ensures hash == if index + |piece| == length then Hexify(cfg.sha256(hashed)) else old(hash)
    {
      hashed := (if index == 0 then [] else hashed) + piece;
      if index + |piece| == length {
        hash := HexText(cfg.sha256(hashed));
      }
    }

    method Advance(n: nat)
      modifies this`index, this`consumed, this`book
      ensures index == old(index) + n && consumed == old(consumed) + n
      ensures book == old(book).(read := old(book).read + n)
    {
      index, consumed := index + n, consumed + n;
      book := book.(read := book.read + n);
    }

    method KeepInFile(piece: seq<byte>)
      requires fileOpen && piece != []
      modifies this, store`files
      ensures AsState() == AddBytes(cfg, old(AsState()), piece)
    {
      AppendToTemp(piece);
      HashPiece(piece);
      Advance(|piece|);
    }

    method KeepInMemory(ghost piece: seq<byte>, n: nat)
      requires !fileOpen && n == |piece| > 0
      modifies this
      ensures AsState() == AddBytes(cfg, old(AsState()), piece)
    {
      Advance(n);
      book := book.(got := book.got + piece);
    }

    /** The bytes that one `read` puts into the buffer. */
    method Receive(n: nat, at: nat)
      requires consumed + n <= |input| && at + n <= address.Length
      modifies address
      ensures address[..] == Stored(old(address[..]), at, input[consumed..consumed + n])
      ensures address[at..at + n] == input[consumed..consumed + n]
    {
      forall i | 0 <= i < n {
        address[at + i] := input[consumed + i];
      }
    }

    /** One `read` of `n` bytes, and what is done with them. */
    method ReadPiece(n: nat, bufferIndex: nat)
      requires n > 0 && consumed + n <= |input| && bufferIndex <= index
      requires index - bufferIndex + n <= address.Length
      requires fileOpen ==> bufferIndex == index
      modifies this, address, store`files
      ensures AsState() == ReadSome(cfg, old(AsState()), n)
      ensures address[..] == Stored(old(address[..]), old(index) - bufferIndex, old(input[consumed..consumed + n]))
    {
      ghost var s, bs := AsState(), input[consumed..consumed + n];
      ReadIs(cfg, s, n, bs);
      Receive(n, index - bufferIndex);
      KeepPiece(n, bs);
    }

    /** The bytes just read go to the temporary file, or stay in memory. */
    method KeepPiece(n: nat, ghost bs: seq<byte>)
      requires n == |bs| > 0 && n <= address.Length && (fileOpen ==> address[..n] == bs)
      modifies this, store`files
      ensures AsState() == AddBytes(cfg, old(AsState()), bs)
    {
      if fileOpen {
        KeepInFile(address[..n]);
      } else {
        KeepInMemory(bs, n);
      }
    }

    /** The reads of one call do not garble what stays in memory: none can with the meant offsets,
        and as written one read cannot. */
    predicate ReadsInOrder(cuts: seq<nat>)
      reads this
    {
      && index <= length && consumed <= |input|
      && (offsets.MovesForFiles? || fileOpen || DataReads(length - index, |input| - consumed, cuts) <= 1)
    }

    method ReadNext(n: nat, bufferIndex: nat, ghost s: State, ghost done: nat, ghost done': nat, ghost at: nat,
                    ghost piece: seq<byte>) returns (next: nat)
      requires n > 0 && index + n <= length && consumed + n <= |input|
      requires bufferIndex <= index && index - bufferIndex + n <= address.Length && (fileOpen ==> bufferIndex == index)
      requires HasRead(s, done) && done' == done + n
      requires at == index - bufferIndex && piece == input[consumed..consumed + n]
      modifies this, address, store`files
      ensures HasRead(s, done')
      ensures address[..] == Stored(old(address[..]), at, piece)
      ensures next == if fileOpen || offsets.MovesAlways? then index else bufferIndex
      ensures fileOpen == old(fileOpen) && length == old(length)
      ensures index == old(index) + n && consumed == old(consumed) + n
    {
      ghost var t := AsState();
      ReadOn(cfg, s, done, t, n, done');
      ReadPiece(n, bufferIndex);
      assert AsState() == ReadSome(cfg, t, n);
      next := if fileOpen || offsets.MovesAlways? then index else bufferIndex;
    }

    /** So many bytes have been read since a state. */
    ghost predicate HasRead(s: State, done: nat)
      reads this, store
    {
      s.conn.consumed + done <= |s.conn.input| && AsState() == ReadSome(cfg, s, done)
    }

    /** Part of the way through a call. */
    ghost predicate InCall(call: Call, start: nat, done: nat, bufferIndex: nat, cuts: seq<nat>)
      reads this, address
    {
      && Counted(call, done, cuts)
      && address.Length == READ_BUFFER && call.offsets == offsets
      && index == call.index + done && length == call.index + call.need
      && start <= consumed == start + done && consumed <= |input| && call.input == input[start..]
      && if fileOpen then bufferIndex == index else Remembered(call, done, address[..], bufferIndex, cuts)
    }

    /** One turn of the loop, for a read that delivered `n` bytes. */
    method ReadTurn(n: nat, bufferIndex: nat, ghost call: Call, ghost s: State, ghost done: nat, ghost cuts: seq<nat>)
      returns (next: nat, ghost done': nat, ghost cuts': seq<nat>)
      requires InCall(call, s.conn.consumed, done, bufferIndex, cuts) && n == NextRead(call, done, cuts) > 0
      requires HasRead(s, done)
      modifies this, address, store`files
      ensures done' == done + n && cuts' == cuts[1..] && fileOpen == old(fileOpen)
      ensures HasRead(s, done')
      ensures InCall(call, s.conn.consumed, done', next, cuts')
    {
      ghost var before, start := address[..], s.conn.consumed;
      done', cuts' := done + n, cuts[1..];
      ghost var at, piece := index - bufferIndex, input[consumed..consumed + n];
      next := ReadNext(n, bufferIndex, s, done, done', at, piece);
      TurnStaysInCall(call, start, done, before, bufferIndex, cuts, at, piece, done', next, cuts');
    }

    lemma TurnStaysInCall(call: Call, start: nat, done: nat, before: seq<byte>, bufferIndex: nat, cuts: seq<nat>,
                          at: nat, piece: seq<byte>, done': nat, next: nat, cuts': seq<nat>)
      requires Counted(call, done, cuts) && NextRead(call, done, cuts) > 0
      requires done' == done + NextRead(call, done, cuts) && cuts' == cuts[1..]
      requires address.Length == READ_BUFFER && call.offsets == offsets
      requires index == call.index + done' && length == call.index + call.need
      requires start <= consumed == start + done' && consumed <= |input| && call.input == input[start..]
      requires next == if fileOpen || offsets.MovesAlways? then index else bufferIndex
      requires !fileOpen ==>
                 && Remembered(call, done, before, bufferIndex, cuts)
                 && at == call.index + done - bufferIndex && piece == input[start + done..start + done']
                 && address[..] == Stored(before, at, piece)
      ensures InCall(call, start, done', next, cuts')
    {
      SliceOfRest(input, start, done, done', call.input);
      StaysCounted(call, done, cuts, done', cuts');
      if !fileOpen {
        StaysRemembered(call, done, before, bufferIndex, cuts, done', address[..], next, cuts');
      }
    }

    lemma NextIs(call: Call, start: nat, done: nat, bufferIndex: nat, cuts: seq<nat>, n: nat)
      requires InCall(call, start, done, bufferIndex, cuts) && cuts != []
      requires n == Chunk(length - index, |input| - consumed, cuts[0])
      ensures n == NextRead(call, done, cuts)
    {
    }

    /** The loop itself, from its start: it ends when nothing more can be read. */
    method ReadLoop(cuts: seq<nat>, first: nat, ghost call: Call, ghost s: State)
      returns (ghost done: nat, ghost at: nat, ghost rest: seq<nat>)
      requires HasRead(s, 0)
      requires InCall(call, s.conn.consumed, 0, first, cuts)
      modifies this, address, store`files
      ensures fileOpen == old(fileOpen)
      ensures HasRead(s, done)
      ensures InCall(call, s.conn.consumed, done, at, rest) && NextRead(call, done, rest) == 0
    {
      var bufferIndex, k := first, 0;
      done, rest := 0, cuts;
      while index < length && k < |cuts| && Chunk(length - index, |input| - consumed, cuts[k]) > 0
        invariant 0 <= k <= |cuts| && rest == cuts[k..] && fileOpen == old(fileOpen)
        invariant HasRead(s, done)
        invariant InCall(call, s.conn.consumed, done, bufferIndex, rest)
        decreases |cuts| - k
      {
        var n := Chunk(length - index, |input| - consumed, cuts[k]);
        NextIs(call, s.conn.consumed, done, bufferIndex, rest, n);
        bufferIndex, done, rest := ReadTurn(n, bufferIndex, call, s, done, rest);
        k := k + 1;
      }
      at := bufferIndex;
    }

    method ReadAllowed(cuts: seq<nat>) returns (ghost done: nat)
      requires Valid() && ReadsInOrder(cuts)
      requires length <= READ_BUFFER || fileOpen
      modifies this, address, store`files
      ensures done == Taken(old(length) - old(index), |input| - old(consumed), cuts)
      ensures Valid() && AsState() == ReadSome(cfg, old(AsState()), done)
    {
      ghost var s, call := AsState(), Call(offsets, address[..], index, length - index, input[consumed..], cuts);
      CallStarts(call);
      ReadNothing(cfg, s);
      ghost var at, rest;
      done, at, rest := ReadLoop(cuts, if fileOpen then index else 0, call, s);
      CountEnds(call, done, rest);
      if !fileOpen {
        KeptInMemory(call, s, done, at, rest);
      }
    }

    /** `network_read_stream`, which ends the process where a phase does not fit into memory. */
    method ReadStream(cuts: seq<nat>) returns (exited: bool)
      requires Valid() && open && (!Exits(AsState().conn) ==> ReadsInOrder(cuts))
      modifies this, address, store`files
      ensures Valid() && exited == Exits(old(AsState().conn))
      ensures exited ==> AsState() == old(AsState())
      ensures !exited ==> old(ReadsInOrder(cuts))
                          && AsState() == ReadSome(cfg, old(AsState()), TakenNow(old(AsState().conn), cuts))
    {
      if length > READ_BUFFER && !fileOpen {
        return true;
      }
      ghost var done := ReadAllowed(cuts);
      return false;
    }

    lemma KeptInMemory(call: Call, s: State, done: nat, at: nat, rest: seq<nat>)
      requires !fileOpen && InCall(call, s.conn.consumed, done, at, rest) && NextRead(call, done, rest) == 0
      requires call.offsets.MovesForFiles? || DataReads(call.need, |call.input|, call.cuts) <= 1
      requires HasRead(s, done) && s.conn.input == input
      requires call.index <= |call.buffer| && s.conn.got == call.buffer[..call.index]
      ensures index <= address.Length && book.got == address[..index]
    {
      KeptInOrder(call, s.conn.consumed, done, at, rest);
      BytesAreKept(cfg, s, done, input[s.conn.consumed..s.conn.consumed + done], AsState());
    }

    lemma KeptInOrder(call: Call, start: nat, done: nat, at: nat, rest: seq<nat>)
      requires !fileOpen && InCall(call, start, done, at, rest) && NextRead(call, done, rest) == 0
      requires call.offsets.MovesForFiles? || DataReads(call.need, |call.input|, call.cuts) <= 1
      ensures address[..index] == call.buffer[..call.index] + input[start..start + done]
    {
      CountEnds(call, done, rest);
      CallEnds(call, done, address[..], at, rest);
      assert input[start..][..done] == input[start..start + done];
    }

    /** What the callback of the phase asks for. */
    ghost predicate Due()
      reads this, store
    {
      match phase
      case MagicRead => !fileOpen
      case HeadersRead =>
        && request.Some? && !fileOpen && request.value.dest == "" && !request.value.confirm
        && index == length && WritesElsewhere(cfg, AsState())
      case ConfirmUpload => HasFiles()
      case Upload => HasFiles() && !fileOpen
    }

    /** The callback that `network_completed_action` points to. */
    method CompletedAction() returns (ok: bool, died: bool)
      requires Valid() && Fits(cfg) && FindsFirst(cfg) && Due()
      modifies this, store
      ensures HasRequest(old(AsState().conn)) && died == CallbackDies(cfg, old(AsState()))
      ensures !died ==> Valid() && (AsState(), ok) == Callback(cfg, old(AsState()))
      ensures died ==> store.AsDisk() == old(store.AsDisk())
    {
      died := false;
      match phase {
        case MagicRead => ok := MagicPacket();
        case HeadersRead => ok, died := HeadersPacket();
        case ConfirmUpload => ok, died := ConfirmPacket();
        case Upload => ok, died := UploadPacket();
      }
    }

    /** `s3_connection_abort`, after the reset that comes before it. */
    method Abort()
      requires Valid()
      modifies this, store`files
      ensures Valid() && AsState() == Close(cfg, old(AsState()))
    {
      ResetNewPacket();
      open := false;
    }

    method RunCallback() returns (died: bool)
      requires Valid() && Fits(cfg) && FindsFirst(cfg) && Due()
      modifies this, store
      ensures HasRequest(old(AsState().conn)) && died == CallbackDies(cfg, old(AsState()))
      ensures !died ==> Valid() && AsState() == Dispatch(cfg, old(AsState()))
      ensures died ==> store.AsDisk() == old(store.AsDisk())
    {
      var ok;
      ok, died := CompletedAction();
      if !died {
        EndCallback(ok);
      }
    }

    /** A callback that fails closes the connection. */
    method EndCallback(ok: bool)
      requires Valid()
      modifies this, store
      ensures Valid() && AsState() == AfterCallback(cfg, old(AsState()), ok)
    {
      if !ok {
        Abort();
      }
      store.ticks := store.ticks + 1;
    }

    /** One turn of `s3_connection_accept_loop_async` for this connection: for every way the reads
        are cut, exactly the event of the state machine, or the end of the process. */
    method OnReadable(cuts: seq<nat>) returns (exited: bool)
      requires Valid() && Fits(cfg) && FindsFirst(cfg) && open && Sound(AsState().conn)
      requires Running(AsState().conn) && WritesElsewhere(cfg, AfterReads(cfg, AsState(), cuts))
      requires !Exits(AsState().conn) ==> ReadsInOrder(cuts)
      modifies this, address, store
      ensures exited == Ends(cfg, old(AsState()), cuts)
      ensures exited ==>
                store.AsDisk() == if Exits(old(AsState().conn)) then old(store.AsDisk())
                                  else AfterReads(cfg, old(AsState()), cuts).world.disk
      ensures !exited ==> Valid() && AsState() == Event(cfg, old(AsState()), cuts)
    {
      exited := ReadStream(cuts);
      if !exited && index == length {
        ReadSomeIsSound(cfg, old(AsState()), TakenNow(old(AsState().conn), cuts));
        IsDue();
        exited := RunCallback();
      }
    }

    lemma IsDue()
      requires open && index == length && Sound(AsState().conn) && WritesElsewhere(cfg, AsState())
      ensures Due()
    {
    }

    /** The client hung up. */
    method OnHangUp()
      requires Valid() && open
      modifies this, store`files
      ensures Valid() && AsState() == HangUp(cfg, old(AsState()))
    {
      Abort();
    }
  }

  /** The headers callback from where the action is known. */
  function Checked(cfg: Config, s: State, r: Request, list: seq<Pair>): (State, bool)
  {
    var (s1, error) := AuthTransaction(cfg, s, list);
    if HasAll(cfg, list, Required(r.action, cfg.strayRow)) then AfterAuth(cfg, s1, r, list, error)
    else Fail(cfg, s, MISSING_ATTRIBS)
  }

  predicate ChecksDie(cfg: Config, s: State, r: Request, list: seq<Pair>)
  {
    var (s1, error) := AuthTransaction(cfg, s, list);
    HasAll(cfg, list, Required(r.action, cfg.strayRow)) && AfterAuthDies(cfg, s1, r, list, error)
  }

  lemma HeadersAreChecked(cfg: Config, s: State, list: seq<Pair>, r: Request, s1: State)
    requires s.conn.request.Some? && list == cfg.parse(s.conn.got)
    requires r == s.conn.request.value.(action := ReadAction(cfg.reading, list))
    requires s1 == s.(conn := s.conn.(request := Some(r)))
    ensures HeadersDone(cfg, s) == Checked(cfg, s1, r, list) && HeadersDie(cfg, s) == ChecksDie(cfg, s1, r, list)
    ensures AuthTransaction(cfg, s, list).1 == AuthTransaction(cfg, s1, list).1
  {
  }

  /** Whether the rest of the callback ends the process does not depend on the acts. */
  lemma ActsDoNotMatter(cfg: Config, s: State, r: Request, list: seq<Pair>, t: State)
    requires var (s1, r1, error1) := Preprocess(cfg, OpenTemp(cfg, s, r), r, list);
             t == s1.(conn := s1.conn.(request := Some(r1), acts := t.conn.acts))
    ensures AfterSetupDies(cfg, s, r, list, SUCCESS)
            == AfterPreprocessDies(cfg, t, Preprocess(cfg, OpenTemp(cfg, s, r), r, list).2)
  {
  }

  /** Where it ends the process, nothing has been opened or deleted. */
  lemma ListingTouchesNothing(cfg: Config, s: State, r: Request, list: seq<Pair>)
    requires !r.confirm && AfterSetupDies(cfg, s, r, list, SUCCESS)
    ensures Preprocess(cfg, OpenTemp(cfg, s, r), r, list).0.world.disk == s.world.disk
  {
    AfterSetupDiesIff(cfg, s, r, list, SUCCESS);
  }

  lemma BytesAreKept(cfg: Config, s: State, n: nat, bs: seq<byte>, t: State)
    requires s.conn.consumed + n <= |s.conn.input| && bs == s.conn.input[s.conn.consumed..s.conn.consumed + n]
    requires t == ReadSome(cfg, s, n) && !t.conn.fileOpen
    ensures t.conn.got == s.conn.got + bs
  {
    if n == 0 {
      assert s.conn.got + bs == s.conn.got;
    }
  }

  lemma ReadIs(cfg: Config, s: State, n: nat, bs: seq<byte>)
    requires s.conn.consumed + n <= |s.conn.input| && bs == s.conn.input[s.conn.consumed..s.conn.consumed + n]
    ensures ReadSome(cfg, s, n) == AddBytes(cfg, s, bs)
  {
  }

  lemma SliceOfRest(input: seq<byte>, start: nat, from: nat, to: nat, rest: seq<byte>)
    requires start + from <= start + to <= |input| && rest == input[start..]
    ensures rest[from..to] == input[start + from..start + to]
  {
  }

  lemma ReadOn(cfg: Config, s: State, m: nat, t: State, n: nat, total: nat)
    requires total == m + n && n > 0
    requires s.conn.consumed + total <= |s.conn.input| && s.conn.index + total <= s.conn.length
    requires t == ReadSome(cfg, s, m)
    ensures ReadSome(cfg, t, n) == ReadSome(cfg, s, total)
  {
    if m == 0 {
      ReadNothing(cfg, s);
    } else {
      ReadTwice(cfg, s, m, t, n, total);
    }
  }
}

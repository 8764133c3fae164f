/** The connection state machine on values: one function for every callback, one for an event. */
module Protocol {
  import opened FileNames
  import opened FileStore
  import opened HashTables
  import opened Headers
  import opened Hex
  import opened Network
  import opened Responses
  import opened Wire

  // ----- constants ---------------------------------------------------------------------------

  const SUCCESS := 0
  const DATA_SEND := 1
  const PACKET_OK := 2
  const DATA_MORE := 3
  const DATA_READY := 4
  const WARNINGS := 32
  const MISSING_ATTRIBS := 36
  const ATTRIB_VALUE_INVALID := 37
  const FILE_EXISTS_ALREADY := 38
  const FILE_NOT_FOUND := 39
  const FILE_UPDATE_OUTOFBOUNDS := 40
  const FOLDER_NOT_FOUND := 41
  const NOTIFY_TOOBIG := 42
  const UNEXPECTED_DATA_FROM_CLIENT := 43
  const MIX_AUTH_ERROR := 45
  const FAILED_AUTHENTICATION := 47
  const ERRORS := 128
  const SETUP_ENVIRONMENT_FAILED := 132
  const SERVER_INTERNAL_ERROR := 133
  const SERVER_FILE_ERROR := 135
  const NETWORK_ERROR_WRITE := 138
  const CANNOT_CREATE_TEMP_FILE := 140

  const ACCEPT_LENGTH: nat := 8
  const NOTIFICATION_LIMIT: nat := 16384
  const STORED_HASH_LENGTH: nat := 63

  function Bytes(s: string): (bs: seq<byte>)
    ensures |bs| == |s|
  {
    seq(|s|, i requires 0 <= i < |s| => s[i] as int % 256)
  }

  /** The texts that go with response codes; no text stands for a code without one. */
  function ResponseMessage(code: int): string
  {
    match code
    case 1 => "Send data"
    case 2 => "OK"
    case 33 => "Invalid action type."
    case 34 => "Packet is empty."
    case 35 => "Invalid header format."
    case 36 => "Required attributes not present."
    case 37 => "Invalid values."
    case 38 => "File already exists."
    case 39 => "File does not exists"
    case 40 => "Update index out of bounds."
    case 43 => "Unexpected data from client for the requested action type."
    case 47 => "Failed authentication."
    case 129 => "Packet header corrupted, conn-rejected."
    case 130 => "Data header corrupted, conn-rejected."
    case 132 => "Server error, cannot find or create the upload folder"
    case 133 => "Internal server error."
    case _ => ""
  }

  function MessageSource(code: int): Source
  {
    if ResponseMessage(code) == "" then Silent else Message(Bytes(ResponseMessage(code)))
  }

  // ----- actions -----------------------------------------------------------------------------

  datatype Action = Create | Delete | Dir | Login | Notification | RequestFile | Server | Update | Invalid

  /** `memcmp` of an action name with a value over the length of the value: a prefix matches. */
  predicate NameMatches(name: string, text: string)
  {
    |text| <= |name| + 1 && text == (name + "\0")[..|text|]
  }

  function MatchAction(text: string): Action
  {
    if NameMatches("create", text) then Create
    else if NameMatches("delete", text) then Delete
    else if NameMatches("dir", text) then Dir
    else if NameMatches("login", text) then Login
    else if NameMatches("notification", text) then Notification
    else if NameMatches("request", text) then RequestFile
    else if NameMatches("server", text) then Server
    else if NameMatches("update", text) then Update
    else Invalid
  }

  /** `list_find_key_string`: meant to look at every entry; as written it looks at the first. */
  function FindKey(reading: Reading, list: seq<Pair>, key: string): Option<Pair>
  {
    if reading.AsWritten? then if list != [] && list[0].key == key then Some(list[0]) else None
    else FirstEntry(list, key)
  }

  /** As written the search is right if and only if the key comes first or nowhere. */
  lemma WrittenFindIsRightIff(list: seq<Pair>, key: string)
    ensures FindKey(AsWritten, list, key) == FindKey(AsDocumented, list, key)
            <==> (list != [] && list[0].key == key) || FirstEntry(list, key) == None
  {
  }

  /** `s3_request_read_action`. Its error results are not looked at, and the action of a fresh
      request is the first one of the table. */
  function ReadAction(reading: Reading, list: seq<Pair>): Action
  {
    match FindKey(reading, list, "action")
    case None => Create
    case Some(pair) => MatchAction(pair.text)
  }

  /** `list_find_key_string` as a loop. */
  method FindKeyString(reading: Reading, list: seq<Pair>, key: string) returns (found: Option<Pair>)
    ensures found == FindKey(reading, list, key)
  {
    for i := 0 to |list|
      invariant reading.AsDocumented? ==> FirstEntry(list, key) == FirstEntry(list[i..], key)
      invariant reading.AsWritten? && i > 0 ==> list[0].key != key
    {
      var pair := list[if reading.AsWritten? then 0 else i];
      if pair.key == key {
        return Some(pair);
      }
    }
    return None;
  }

  const ACTIONS: seq<(string, Action)> :=
    [("create", Create), ("delete", Delete), ("dir", Dir), ("login", Login), ("notification", Notification),
     ("request", RequestFile), ("server", Server), ("update", Update)]

  lemma FirstMatchDecides(text: string, i: nat)
    requires i < |ACTIONS| && NameMatches(ACTIONS[i].0, text)
    requires forall j :: 0 <= j < i ==> !NameMatches(ACTIONS[j].0, text)
    ensures MatchAction(text) == ACTIONS[i].1
  {
    assert i > 0 ==> !NameMatches(ACTIONS[0].0, text);
    assert i > 1 ==> !NameMatches(ACTIONS[1].0, text);
    assert i > 2 ==> !NameMatches(ACTIONS[2].0, text);
    assert i > 3 ==> !NameMatches(ACTIONS[3].0, text);
    assert i > 4 ==> !NameMatches(ACTIONS[4].0, text);
    assert i > 5 ==> !NameMatches(ACTIONS[5].0, text);
    assert i > 6 ==> !NameMatches(ACTIONS[6].0, text);
  }

  lemma NoMatchDecides(text: string)
    requires forall j :: 0 <= j < |ACTIONS| ==> !NameMatches(ACTIONS[j].0, text)
    ensures MatchAction(text) == Invalid
  {
    assert !NameMatches(ACTIONS[0].0, text) && !NameMatches(ACTIONS[1].0, text) && !NameMatches(ACTIONS[2].0, text);
    assert !NameMatches(ACTIONS[3].0, text) && !NameMatches(ACTIONS[4].0, text) && !NameMatches(ACTIONS[5].0, text);
    assert !NameMatches(ACTIONS[6].0, text) && !NameMatches(ACTIONS[7].0, text);
  }

  /** `s3_request_read_action` as a loop over the table of names. */
  method RequestReadAction(reading: Reading, list: seq<Pair>) returns (action: Action)
    ensures action == ReadAction(reading, list)
  {
    var found := FindKeyString(reading, list, "action");
    if found.None? {
      return Create;
    }
    for i := 0 to |ACTIONS|
      invariant forall j :: 0 <= j < i ==> !NameMatches(ACTIONS[j].0, found.value.text)
    {
      if NameMatches(ACTIONS[i].0, found.value.text) {
        FirstMatchDecides(found.value.text, i);
        return ACTIONS[i].1;
      }
    }
    NoMatchDecides(found.value.text);
    return Invalid;
  }

  // ----- what a text stands for --------------------------------------------------------------

  /** The text of the action entry that is looked at, if there is one. */
  function ActionText(reading: Reading, list: seq<Pair>): Option<string>
  {
    if reading.AsWritten? && (list == [] || list[0].key != "action") then None
    else match FirstEntry(list, "action")
         case None => None
         case Some(pair) => Some(pair.text)
  }

  /** How long a text must be to stand for an action name: shorter ones stand for an earlier name. */
  function LeastLength(name: string): nat
  {
    if name == "create" then 0 else if name == "dir" then 2 else 1
  }

  /** The headers call for an action by its name, or the beginning of it; without an action entry they
      call for a create. */
  predicate Calls(reading: Reading, list: seq<Pair>, name: string)
  {
    match ActionText(reading, list)
    case None => name == "create"
    case Some(text) => LeastLength(name) <= |text| && text <= name + "\0"
  }

  lemma MatchIsPrefix(name: string, text: string)
    ensures NameMatches(name, text) <==> text <= name + "\0"
    ensures NameMatches(name, text) && text != [] && name != [] ==> text[0] == name[0]
    ensures NameMatches(name, text) && |text| > 1 && |name| > 1 ==> text[1] == name[1]
  {
  }

  lemma MatchesAreApart(text: string)
    ensures MatchAction(text) == Create <==> NameMatches("create", text)
    ensures MatchAction(text) == Delete <==> |text| >= 1 && NameMatches("delete", text)
    ensures MatchAction(text) == Dir <==> |text| >= 2 && NameMatches("dir", text)
    ensures MatchAction(text) == Login <==> |text| >= 1 && NameMatches("login", text)
    ensures MatchAction(text) == Notification <==> |text| >= 1 && NameMatches("notification", text)
    ensures MatchAction(text) == RequestFile <==> |text| >= 1 && NameMatches("request", text)
    ensures MatchAction(text) == Server <==> |text| >= 1 && NameMatches("server", text)
    ensures MatchAction(text) == Update <==> |text| >= 1 && NameMatches("update", text)
  {
    MatchIsPrefix("create", text);
    MatchIsPrefix("delete", text);
    MatchIsPrefix("dir", text);
    MatchIsPrefix("login", text);
    MatchIsPrefix("notification", text);
    MatchIsPrefix("request", text);
    MatchIsPrefix("server", text);
    MatchIsPrefix("update", text);
    assert text == [] ==> NameMatches("create", text);
    assert |text| == 1 && NameMatches("dir", text) ==> NameMatches("delete", text);
  }

  lemma TextCalls(reading: Reading, list: seq<Pair>, text: string, name: string, least: nat)
    requires ActionText(reading, list) == Some(text) && least == LeastLength(name)
    ensures Calls(reading, list, name) <==> least <= |text| && NameMatches(name, text)
  {
    MatchIsPrefix(name, text);
  }

  lemma TextDecides(reading: Reading, list: seq<Pair>)
    ensures ReadAction(reading, list) ==
            if ActionText(reading, list).None? then Create else MatchAction(ActionText(reading, list).value)
  {
  }

  lemma EveryNameCalls(reading: Reading, list: seq<Pair>, text: string)
    requires ActionText(reading, list) == Some(text)
    ensures Calls(reading, list, "create") <==> NameMatches("create", text)
    ensures Calls(reading, list, "delete") <==> |text| >= 1 && NameMatches("delete", text)
    ensures Calls(reading, list, "dir") <==> |text| >= 2 && NameMatches("dir", text)
    ensures Calls(reading, list, "login") <==> |text| >= 1 && NameMatches("login", text)
    ensures Calls(reading, list, "notification") <==> |text| >= 1 && NameMatches("notification", text)
    ensures Calls(reading, list, "request") <==> |text| >= 1 && NameMatches("request", text)
    ensures Calls(reading, list, "server") <==> |text| >= 1 && NameMatches("server", text)
    ensures Calls(reading, list, "update") <==> |text| >= 1 && NameMatches("update", text)
  {
    TextCalls(reading, list, text, "create", 0);
    TextCalls(reading, list, text, "delete", 1);
    TextCalls(reading, list, text, "dir", 2);
    TextCalls(reading, list, text, "login", 1);
    TextCalls(reading, list, text, "notification", 1);
    TextCalls(reading, list, text, "request", 1);
    TextCalls(reading, list, text, "server", 1);
    TextCalls(reading, list, text, "update", 1);
  }

  /** The action that headers lead to, by the name they call for. */
  ghost predicate Chosen(reading: Reading, list: seq<Pair>, action: Action)
  {
    && (action == Create <==> Calls(reading, list, "create"))
    && (action == Delete <==> Calls(reading, list, "delete"))
    && (action == Dir <==> Calls(reading, list, "dir"))
    && (action == Login <==> Calls(reading, list, "login"))
    && (action == Notification <==> Calls(reading, list, "notification"))
    && (action == RequestFile <==> Calls(reading, list, "request"))
    && (action == Server <==> Calls(reading, list, "server"))
    && (action == Update <==> Calls(reading, list, "update"))
  }

  lemma TextIsChosen(reading: Reading, list: seq<Pair>, text: string)
    requires ActionText(reading, list) == Some(text)
    ensures Chosen(reading, list, MatchAction(text))
  {
    EveryNameCalls(reading, list, text);
    MatchesAreApart(text);
  }

  /** Each action is the one that its own name, or a beginning of it, calls for, and no other text. */
  lemma CallsIff(reading: Reading, list: seq<Pair>, action: Action)
    requires action == ReadAction(reading, list)
    ensures Chosen(reading, list, action)
  {
    TextDecides(reading, list);
    match ActionText(reading, list) {
      case None =>
      case Some(text) => TextIsChosen(reading, list, text);
    }
  }

  predicate TempFileRequired(action: Action)
  {
    action.Create? || action.Update? || action.Notification?
  }

  /** The actions that write a client's file. */
  predicate WritesFile(action: Action)
  {
    action.Create? || action.Update?
  }

  /** The table of required attributes. Below its first row lies memory of unknown content. */
  function Required(action: Action, strayRow: seq<string>): seq<string>
  {
    match action
    case Create => ["action", "filename", "username", "secret"]
    case Delete => ["action", "filename", "username", "secret"]
    case Dir => ["action", "dirname", "username", "secret"]
    case Login => ["username", "secret"]
    case Notification => ["action"]
    case RequestFile => ["action", "username", "secret"]
    case Server => ["action"]
    case Update => ["action", "filename", "updateat", "trim", "username", "secret"]
    case Invalid => strayRow
  }

  // ----- state -------------------------------------------------------------------------------

  /** The outcomes of calls into the operating system and the database during one callback: making
      folders, the query for credentials, opening the temporary file, looking for the client's file,
      deleting its rows, listing a folder, and the calls at the end of a packet. */
  datatype Env = Env(tempFolder: bool, filesFolder: bool, makeFolders: bool, login: bool, tempOpens: bool, look: Look,
                     database: bool, folderFound: bool, listing: Option<seq<byte>>, end: Outcomes)

  /** The names given to files: temporary ones by a counter, metadata keys and stored files by
      the name in a request. */
  datatype Names = Names(temp: nat -> string, key: string -> string, stored: string -> string)

  /** The names of the program, for a home directory. */
  function NamesUnder(home: string): Names
  {
    Names((n: nat) => TempPath(n, home), s => KeyPath(s, home), s => RealPath(s, home))
  }

  /** What stays the same over a run: the foreign code as functions, what the header table of a
      list answers, the users, and the outcomes of outside calls: one for every callback, and for
      every byte of the body of a ticket whether it lands in its temporary file. */
  datatype Config = Config(names: Names, reading: Reading, lookup: (seq<Pair>, string) -> Option<Pair>,
                           strayRow: seq<string>, users: set<(string, seq<byte>)>, serverInfo: seq<byte>,
                           parse: seq<byte> -> seq<Pair>, sha256: seq<byte> -> seq<byte>, serialize: int -> seq<byte>,
                           env: nat -> Env, lands: nat -> nat -> bool)

  /** `s3_attrib_contains`, for whatever the header table answers. */
  predicate Has(cfg: Config, list: seq<Pair>, key: string)
  {
    cfg.lookup(list, key).Some?
  }

  predicate HasAll(cfg: Config, list: seq<Pair>, keys: seq<string>)
  {
    forall i :: 0 <= i < |keys| ==> Has(cfg, list, keys[i])
  }

  /** The header table answers with first entries, as it does with the documented comparison. */
  ghost predicate FindsFirst(cfg: Config)
  {
    forall list, key :: cfg.lookup(list, key) == FirstEntry(list, key)
  }

  /** Headers of responses fit in front of a payload. */
  ghost predicate Fits(cfg: Config)
  {
    forall code :: |cfg.serialize(code)| <= 4080
  }

  datatype Phase = MagicRead | HeadersRead | ConfirmUpload | Upload

  datatype Request = Request(info: Header, action: Action, key: Option<string>, dest: string, ticket: Option<nat>,
                             confirm: bool, append: bool, at: nat, trim: bool)

  /** What a packet caused, in order. */
  datatype Act = Asked(granted: bool) | Prepared(action: Action, ok: bool) | Said(code: int)

  /** A finished packet: its request, the bytes it took off the stream, what it caused, and whether
      its body went to a temporary file. */
  datatype Exchange = Exchange(request: Request, used: nat, acts: seq<Act>, inFile: bool)

  /** A connection. `got` are the bytes of the current phase that are kept in memory, `hashed`
      the bytes fed to the hash context, `input` all the client will ever send. */
  datatype Conn = Conn(input: seq<byte>, consumed: nat, open: bool, phase: Phase, index: nat, length: nat,
                       got: seq<byte>, fileOpen: bool, hashed: seq<byte>, hash: seq<byte>,
                       request: Option<Request>, code: int, out: seq<byte>,
                       read: nat, acts: seq<Act>, done: seq<Exchange>)

  datatype World = World(disk: Disk, counter: nat, ticks: nat)

  datatype State = State(conn: Conn, world: World)

  function NewConn(input: seq<byte>): Conn
  {
    Conn(input, 0, true, MagicRead, 0, MAGIC_LENGTH, [], false, [], Zeros(64), None, 0, [], 0, [], [])
  }

  function NewRequest(info: Header): Request
  {
    Request(info, Create, None, "", None, false, false, 0, false)
  }

  function TempOf(cfg: Config, r: Request): Option<string>
  {
    match r.ticket
    case None => None
    case Some(n) => Some(cfg.names.temp(n))
  }

  function EnvOf(cfg: Config, s: State): Env
  {
    cfg.env(s.world.ticks)
  }

  // ----- responses and resets ----------------------------------------------------------------

  /** `s3_handle_response` and the sending of data: one packet goes out. */
  function Say(cfg: Config, s: State, code: int, source: Source): State
  {
    s.(conn := s.conn.(code := code, acts := s.conn.acts + [Said(code)],
                       out := s.conn.out + Sent(cfg.serialize(code), source).0))
  }

  /** The next phase, of a given length. */
  function Await(s: State, phase: Phase, length: nat): State
  {
    s.(conn := s.conn.(phase := phase, index := 0, length := length, got := []))
  }

  /** `s3_connection_reset_new_packet`. */
  function ResetNewPacket(cfg: Config, s: State): State
  {
    var temp := if s.conn.request.Some? then TempOf(cfg, s.conn.request.value) else None;
    var files := if temp.Some? then s.world.disk.files - {temp.value} else s.world.disk.files;
    State(s.conn.(fileOpen := false, request := None, index := 0, length := MAGIC_LENGTH, phase := MagicRead,
                  got := [], read := 0, acts := []),
          s.world.(disk := s.world.disk.(files := files)))
  }

  /** The end of a packet, put on record. */
  function Finish(cfg: Config, s: State): State
  {
    var done := if s.conn.request.Some?
                then s.conn.done + [Exchange(s.conn.request.value, s.conn.read, s.conn.acts, s.conn.fileOpen)]
                else s.conn.done;
    ResetNewPacket(cfg, s.(conn := s.conn.(done := done)))
  }

  /** `RESPONSE_RESET_RETURN`: the response goes out, and codes above the warnings close. */
  function Fail(cfg: Config, s: State, code: int): (State, bool)
  {
    (Finish(cfg, Say(cfg, s, code, MessageSource(code))), code <= ERRORS)
  }

  // ----- the headers phase -------------------------------------------------------------------

  /** `s3_connection_magic_read`. */
  function MagicDone(s: State): (State, bool)
  {
    var info := ParseMagic(FromLittleEndian(s.conn.got));
    if info.magic != MAGIC then (s, false)
    else (Await(s.(conn := s.conn.(request := Some(NewRequest(info)), code := SUCCESS)), HeadersRead,
                info.headerLength), true)
  }

  predicate Granted(cfg: Config, list: seq<Pair>)
  {
    var user, secret := cfg.lookup(list, "username"), cfg.lookup(list, "secret");
    user.Some? && secret.Some? && (user.value.text, Hexify(cfg.sha256(Bytes(secret.value.text)))) in cfg.users
  }

  /** `s3_auth_transaction`: the credentials are looked up exactly when both are there. */
  function AuthTransaction(cfg: Config, s: State, list: seq<Pair>): (State, int)
  {
    var user, secret := Has(cfg, list, "username"), Has(cfg, list, "secret");
    if user && secret then
      var granted := Granted(cfg, list) && EnvOf(cfg, s).login;
      (s.(conn := s.conn.(acts := s.conn.acts + [Asked(granted)])),
       if granted then SUCCESS else FAILED_AUTHENTICATION)
    else if user || secret then (s, MIX_AUTH_ERROR)
    else (s, SUCCESS)
  }

  /** `s3_setup_environment`: a temporary name, then the names for the client's file. */
  function SetupEnvironment(cfg: Config, s: State, r: Request, list: seq<Pair>): (State, Request, int)
  {
    var env := EnvOf(cfg, s);
    if !env.tempFolder then (s, r, CANNOT_CREATE_TEMP_FILE)
    else
      var s1 := s.(world := s.world.(counter := s.world.counter + 1));
      var r1 := r.(ticket := Some(s1.world.counter));
      match cfg.lookup(list, "filename")
      case None => (s1, r1, SUCCESS)
      case Some(pair) =>
        if pair.text == "" then (s1, r1, ATTRIB_VALUE_INVALID)
        else if !env.filesFolder then (s1, r1, SETUP_ENVIRONMENT_FAILED)
        else
          var r2 := r1.(key := Some(cfg.names.key(pair.text)), dest := cfg.names.stored(pair.text));
          (s1, r2, if WritesFile(r.action) && !env.makeFolders then SETUP_ENVIRONMENT_FAILED
                   else SUCCESS)
  }

  /** A temporary file can be opened for writing: the call works, and no folder has its name. */
  predicate TempOpens(cfg: Config, s: State, ticket: nat)
  {
    EnvOf(cfg, s).tempOpens && Bare(s.world.disk.files, cfg.names.temp(ticket))
  }

  /** The temporary file of an action with a body is opened for writing, and so is empty. Whether
      that works is not looked at: without it a body is kept in memory. */
  function OpenTemp(cfg: Config, s: State, r: Request): State
  {
    if TempFileRequired(r.action) && r.ticket.Some? && TempOpens(cfg, s, r.ticket.value) then
      var files := s.world.disk.files[cfg.names.temp(r.ticket.value) := []];
      State(s.conn.(fileOpen := true), s.world.(disk := s.world.disk.(files := files)))
    else s.(conn := s.conn.(fileOpen := false))
  }

  /** What `filemgmt_file_exists` finds for a request. */
  function FoundFor(disk: Disk, look: Look, r: Request): Option<seq<byte>>
  {
    if r.key.Some? then Found(disk, look, r.key.value, r.dest) else None
  }

  /** `s3_action_preprocess`: what each action checks and sets before any body is read. */
  function Preprocess(cfg: Config, s: State, r: Request, list: seq<Pair>): (State, Request, int)
  {
    var size, env, found := r.info.dataLength, EnvOf(cfg, s), FoundFor(s.world.disk, EnvOf(cfg, s).look, r);
    match r.action
    case Create =>
      var append := Has(cfg, list, "append");
      if found.Some? && !append then (s, r, FILE_EXISTS_ALREADY)
      else (s, r.(append := append), SUCCESS)
    case Update =>
      if found.None? then (s, r, FILE_NOT_FOUND)
      else
        var at, trim := cfg.lookup(list, "updateat"), cfg.lookup(list, "trim");
        if at.None? || trim.None? then (s, r, ATTRIB_VALUE_INVALID)
        else if 0 <= at.value.length <= |found.value| then
          (s, r.(at := at.value.length, trim := trim.value.length != 0), SUCCESS)
        else (s, r, FILE_UPDATE_OUTOFBOUNDS)
    case Notification =>
      (s, r, if 0 < size < NOTIFICATION_LIMIT then SUCCESS else NOTIFY_TOOBIG)
    case Delete =>
      if size != 0 then (s, r, UNEXPECTED_DATA_FROM_CLIENT)
      else if !env.database then (s, r, SERVER_INTERNAL_ERROR)
      else
        var disk := s.world.disk;
        var rows := if r.key.Some? then WithoutRows(disk.rows, r.key.value) else disk.rows;
        (s.(world := s.world.(disk := disk.(rows := rows))), r, SUCCESS)
    case RequestFile =>
      if found.None? then (s, r, FILE_NOT_FOUND)
      else if size != 0 then (s, r, UNEXPECTED_DATA_FROM_CLIENT)
      else (s, r.(confirm := true), SUCCESS)
    case Dir =>
      (s, r, if !env.folderFound then FOLDER_NOT_FOUND
             else if size != 0 then UNEXPECTED_DATA_FROM_CLIENT
             else SUCCESS)
    case Server => (s, r, if size != 0 then UNEXPECTED_DATA_FROM_CLIENT else SUCCESS)
    case Login => (s, r, SUCCESS)
    case Invalid => (s, r, SERVER_INTERNAL_ERROR)
  }

  /** `s3_connection_headers_read`. */
  function HeadersDone(cfg: Config, s: State): (State, bool)
    requires s.conn.request.Some?
  {
    var list := cfg.parse(s.conn.got);
    var r := s.conn.request.value.(action := ReadAction(cfg.reading, list));
    var s1 := s.(conn := s.conn.(request := Some(r)));
    if !HasAll(cfg, list, Required(r.action, cfg.strayRow)) then Fail(cfg, s1, MISSING_ATTRIBS)
    else
      var (s2, error) := AuthTransaction(cfg, s1, list);
      AfterAuth(cfg, s2, r, list, error)
  }

  /** Its next step: the names, for a request that may go on. */
  function AfterAuth(cfg: Config, s: State, r: Request, list: seq<Pair>, error: int): (State, bool)
  {
    if error != SUCCESS then Fail(cfg, s, error)
    else
      var (s1, r1, error1) := SetupEnvironment(cfg, s, r, list);
      AfterSetup(cfg, s1.(conn := s1.conn.(request := Some(r1))), r1, list, error1)
  }

  /** The temporary file and the preprocessing. */
  function AfterSetup(cfg: Config, s: State, r: Request, list: seq<Pair>, error: int): (State, bool)
  {
    if error != SUCCESS then Fail(cfg, s, error)
    else
      var (s1, r1, error1) := Preprocess(cfg, OpenTemp(cfg, s, r), r, list);
      var act := Prepared(r1.action, error1 == SUCCESS);
      AfterPreprocess(cfg, s1.(conn := s1.conn.(request := Some(r1), acts := s1.conn.acts + [act])), error1)
  }

  /** The request for the body, if there is one. */
  function AfterPreprocess(cfg: Config, s: State, error: int): (State, bool)
    requires s.conn.request.Some?
  {
    if error != SUCCESS then Fail(cfg, s, error)
    else if s.conn.request.value.info.dataLength > 0 then
      var size := s.conn.request.value.info.dataLength;
      (Await(Say(cfg, s, DATA_SEND, MessageSource(DATA_SEND)), ConfirmUpload, size), true)
    else ConfirmDone(cfg, s)
  }

  // ----- after the headers -------------------------------------------------------------------

  /** `s3_connection_confirm_upload`. */
  function ConfirmDone(cfg: Config, s: State): (State, bool)
    requires s.conn.request.Some?
  {
    if s.conn.request.value.confirm then
      (Await(Say(cfg, s, DATA_MORE, MessageSource(DATA_MORE)), Upload, ACCEPT_LENGTH), true)
    else UploadDone(cfg, s)
  }

  const ACCEPT := Bytes("ACCEPT\0\0")

  /** `s3_connection_upload`, with the check of the client's answer where one was asked for. */
  function UploadDone(cfg: Config, s: State): (State, bool)
    requires s.conn.request.Some?
  {
    if s.conn.request.value.confirm && s.conn.got != ACCEPT then Fail(cfg, s, NETWORK_ERROR_WRITE)
    else PostProcess(cfg, SendData(cfg, s))
  }

  function ValueOr(bytes: Option<seq<byte>>): seq<byte>
  {
    if bytes.Some? then bytes.value else []
  }

  /** What is under the name of the client's file when the file is to be sent. */
  function Served(cfg: Config, s: State, r: Request): Option<seq<byte>>
  {
    Seen(s.world.disk.files, EnvOf(cfg, s).end.look, r.dest)
  }

  /** `s3_action_send`. */
  function SendData(cfg: Config, s: State): (s': State)
    requires s.conn.request.Some?
    ensures s'.conn.request == s.conn.request
  {
    match s.conn.request.value.action
    case RequestFile => Say(cfg, s, DATA_READY, File(ValueOr(Served(cfg, s, s.conn.request.value))))
    case Dir => Say(cfg, s, DATA_READY, Message(ValueOr(EnvOf(cfg, s).listing)))
    case _ => s
  }

  function StoredHash(hash: seq<byte>): seq<byte>
  {
    if |hash| <= STORED_HASH_LENGTH then hash else hash[..STORED_HASH_LENGTH]
  }

  /** `s3_action_postprocess`. */
  function ActionPostprocess(cfg: Config, s: State): (result: (State, int))
    requires s.conn.request.Some?
    ensures result.0.conn.request == s.conn.request
  {
    var r, disk, calls := s.conn.request.value, s.world.disk, EnvOf(cfg, s).end;
    var temp := if TempOf(cfg, r).Some? then TempOf(cfg, r).value else "";
    match r.action
    case Create =>
      var key := if r.key.Some? then r.key.value else "";
      var (after, ok) := PostCreate(disk, key, r.dest, temp, r.append, r.info.dataLength, StoredHash(s.conn.hash),
                                    calls);
      (s.(world := s.world.(disk := after)), if ok then SUCCESS else SERVER_FILE_ERROR)
    case Update =>
      var (after, ok) := PostUpdate(disk, r.dest, temp, r.at, r.trim, r.info.dataLength, calls);
      (s.(world := s.world.(disk := after)), if ok then SUCCESS else SERVER_INTERNAL_ERROR)
    case Server => (Say(cfg, s, DATA_READY, Message(cfg.serverInfo)), SUCCESS)
    case Invalid => (s, SERVER_INTERNAL_ERROR)
    case _ => (s, SUCCESS)
  }

  /** `s3_connection_post_process`. */
  function PostProcess(cfg: Config, s: State): (State, bool)
    requires s.conn.request.Some?
  {
    var (s1, error) := ActionPostprocess(cfg, s);
    AfterPostprocess(cfg, s1, error)
  }

  /** The final response, unless the data itself was it. */
  function AfterPostprocess(cfg: Config, s: State, error: int): (State, bool)
  {
    if error != SUCCESS then Fail(cfg, s, error)
    else if s.conn.code != DATA_READY then (Finish(cfg, Say(cfg, s, PACKET_OK, MessageSource(PACKET_OK))), true)
    else (Finish(cfg, s), true)
  }

  // ----- where a callback ends the process ---------------------------------------------------

  /** A listing that does not fit into the first buffer is sent from memory that was given back, and
      so is one that could not be made. */
  predicate ListingFits(cfg: Config, env: Env)
  {
    var header := cfg.serialize(DATA_READY);
    && env.listing.Some?
    && (|header| > 4080 || MAGIC_LENGTH + Align(|header|) + |env.listing.value| <= BUFFER_LENGTH)
  }

  /** The work of an action comes to a null pointer: a file that cannot be opened to be sent or to be
      shown, or a listing that does not fit. */
  predicate WorkDies(cfg: Config, s: State)
    requires s.conn.request.Some?
  {
    var r := s.conn.request.value;
    match r.action
    case RequestFile => Served(cfg, s, r).None?
    case Dir => !ListingFits(cfg, EnvOf(cfg, s))
    case Notification =>
      var temp := if r.ticket.Some? then cfg.names.temp(r.ticket.value) else "";
      Seen(s.world.disk.files, EnvOf(cfg, s).end.look, temp).None?
    case _ => false
  }

  predicate UploadDies(cfg: Config, s: State)
    requires s.conn.request.Some?
  {
    !(s.conn.request.value.confirm && s.conn.got != ACCEPT) && WorkDies(cfg, s)
  }

  predicate ConfirmDies(cfg: Config, s: State)
    requires s.conn.request.Some?
  {
    !s.conn.request.value.confirm && UploadDies(cfg, s)
  }

  predicate AfterPreprocessDies(cfg: Config, s: State, error: int)
    requires s.conn.request.Some?
  {
    error == SUCCESS && s.conn.request.value.info.dataLength == 0 && ConfirmDies(cfg, s)
  }

  predicate AfterSetupDies(cfg: Config, s: State, r: Request, list: seq<Pair>, error: int)
  {
    error == SUCCESS &&
    var (s1, r1, error1) := Preprocess(cfg, OpenTemp(cfg, s, r), r, list);
    AfterPreprocessDies(cfg, s1.(conn := s1.conn.(request := Some(r1))), error1)
  }

  predicate AfterAuthDies(cfg: Config, s: State, r: Request, list: seq<Pair>, error: int)
  {
    error == SUCCESS &&
    var (s1, r1, error1) := SetupEnvironment(cfg, s, r, list);
    AfterSetupDies(cfg, s1.(conn := s1.conn.(request := Some(r1))), r1, list, error1)
  }

  predicate HeadersDie(cfg: Config, s: State)
    requires s.conn.request.Some?
  {
    var list := cfg.parse(s.conn.got);
    var r := s.conn.request.value.(action := ReadAction(cfg.reading, list));
    var (s1, error) := AuthTransaction(cfg, s.(conn := s.conn.(request := Some(r))), list);
    HasAll(cfg, list, Required(r.action, cfg.strayRow)) && AfterAuthDies(cfg, s1, r, list, error)
  }

  predicate CallbackDies(cfg: Config, s: State)
    requires HasRequest(s.conn)
  {
    match s.conn.phase
    case MagicRead => false
    case HeadersRead => HeadersDie(cfg, s)
    case ConfirmUpload => ConfirmDies(cfg, s)
    case Upload => UploadDies(cfg, s)
  }

  // ----- events ------------------------------------------------------------------------------

  /** The phases that need a request have one. */
  predicate HasRequest(c: Conn)
  {
    !c.phase.MagicRead? ==> c.request.Some?
  }

  /** The callback of the phase that is complete. */
  function Callback(cfg: Config, s: State): (State, bool)
    requires HasRequest(s.conn)
  {
    match s.conn.phase
    case MagicRead => MagicDone(s)
    case HeadersRead => HeadersDone(cfg, s)
    case ConfirmUpload => ConfirmDone(cfg, s)
    case Upload => UploadDone(cfg, s)
  }

  /** `s3_connection_abort`, after the reset that comes before it. */
  function Close(cfg: Config, s: State): State
  {
    var s1 := ResetNewPacket(cfg, s);
    s1.(conn := s1.conn.(open := false))
  }

  function Dispatch(cfg: Config, s: State): State
    requires HasRequest(s.conn)
  {
    var (s1, ok) := Callback(cfg, s);
    AfterCallback(cfg, s1, ok)
  }

  /** A callback that fails closes the connection. */
  function AfterCallback(cfg: Config, s: State, ok: bool): State
  {
    var s1 := if ok then s else Close(cfg, s);
    s1.(world := s1.world.(ticks := s1.world.ticks + 1))
  }

  /** A phase that is kept in memory must fit in the read buffer; the next readable event of a
      connection with a larger one is logged as fatal, which ends the process. */
  predicate Exits(c: Conn)
  {
    c.open && c.length > READ_BUFFER && !c.fileOpen
  }

  /** Of the bytes of a body from a position on, those that land in the temporary file: what becomes
      of the others is not looked at. */
  function Landed(lands: nat -> bool, at: nat, bs: seq<byte>): (kept: seq<byte>)
    ensures |kept| <= |bs|
  {
    if bs == [] then []
    else
      var last := |bs| - 1;
      Landed(lands, at, bs[..last]) + if lands(at + last) then [bs[last]] else []
  }

  lemma {:induction false} LandedAppend(lands: nat -> bool, at: nat, a: seq<byte>, next: nat, b: seq<byte>,
                                        both: seq<byte>)
    requires next == at + |a| && both == a + b
    ensures Landed(lands, at, both) == Landed(lands, at, a) + Landed(lands, next, b)
    decreases |b|
  {
    if b == [] {
      assert both == a;
    } else {
      var last := |b| - 1;
      LandedAppend(lands, at, a, next, b[..last], both[..|a| + last]);
      assert both[..|both| - 1] == both[..|a| + last] && both[|both| - 1] == b[last];
    }
  }

  /** All of it is there if and only if every byte lands. */
  lemma {:induction false} LandedAllIff(lands: nat -> bool, at: nat, bs: seq<byte>)
    ensures Landed(lands, at, bs) == bs <==> AllLand(lands, at, |bs|)
    ensures |Landed(lands, at, bs)| == |bs| ==> AllLand(lands, at, |bs|)
  {
    if bs != [] {
      var last := |bs| - 1;
      LandedAllIff(lands, at, bs[..last]);
      assert bs == bs[..last] + [bs[last]];
      assert AllLand(lands, at, |bs|) ==> AllLand(lands, at, last) && lands(at + last);
      assert AllLand(lands, at, last) && lands(at + last) ==> AllLand(lands, at, |bs|);
    }
  }

  predicate AllLand(lands: nat -> bool, at: nat, n: nat)
  {
    forall i :: at <= i < at + n ==> lands(i)
  }

  /** A connection that has read bytes: into memory, or into the temporary file and the hash. */
  function WithBytes(cfg: Config, c: Conn, bs: seq<byte>): Conn
  {
    var c1 := c.(index := c.index + |bs|, consumed := c.consumed + |bs|, read := c.read + |bs|);
    if !c.fileOpen then c1.(got := c.got + bs)
    else
      var hashed := (if c.index == 0 then [] else c.hashed) + bs;
      c1.(hashed := hashed, hash := if c1.index == c.length then Hexify(cfg.sha256(hashed)) else c.hash)
  }

  /** The disk when a connection has read bytes. */
  function DiskWith(cfg: Config, c: Conn, disk: Disk, bs: seq<byte>): Disk
  {
    if c.fileOpen && c.request.Some? && c.request.value.ticket.Some? then
      var ticket := c.request.value.ticket.value;
      FileWith(disk, cfg.names.temp(ticket), cfg.lands(ticket), c.index, bs)
    else disk
  }

  function FileWith(disk: Disk, path: string, lands: nat -> bool, at: nat, bs: seq<byte>): Disk
  {
    disk.(files := disk.files[path := Content(disk, path) + Landed(lands, at, bs)])
  }

  /** The effect of reading bytes. */
  function AddBytes(cfg: Config, s: State, bs: seq<byte>): State
  {
    if bs == [] then s
    else State(WithBytes(cfg, s.conn, bs), s.world.(disk := DiskWith(cfg, s.conn, s.world.disk, bs)))
  }

  /** How many bytes an event takes off the stream, when its reads are cut in a given way. */
  function TakenNow(c: Conn, cuts: seq<nat>): (n: nat)
    requires c.index <= c.length && c.consumed <= |c.input|
    ensures c.consumed + n <= |c.input| && c.index + n <= c.length
  {
    Taken(c.length - c.index, |c.input| - c.consumed, cuts)
  }

  predicate Running(c: Conn)
  {
    c.index <= c.length && c.consumed <= |c.input| && HasRequest(c)
  }

  /** The next bytes of the stream are read. */
  function ReadSome(cfg: Config, s: State, n: nat): (s': State)
    requires s.conn.consumed + n <= |s.conn.input|
    ensures s'.conn.phase == s.conn.phase && s'.conn.request == s.conn.request && s'.conn.open == s.conn.open
    ensures s'.conn.index == s.conn.index + n && s'.conn.length == s.conn.length
    ensures s'.conn.input == s.conn.input && s'.conn.consumed == s.conn.consumed + n
  {
    AddBytes(cfg, s, s.conn.input[s.conn.consumed..s.conn.consumed + n])
  }

  /** The callback runs when the phase is complete. */
  function AfterRead(cfg: Config, s: State): State
    requires HasRequest(s.conn)
  {
    if s.conn.index == s.conn.length then Dispatch(cfg, s) else s
  }

  /** The state of a connection after the reads of an event. */
  function AfterReads(cfg: Config, s: State, cuts: seq<nat>): State
    requires Running(s.conn)
  {
    ReadSome(cfg, s, TakenNow(s.conn, cuts))
  }

  /** The phase is complete, and its callback ends the process. */
  predicate Dies(cfg: Config, s: State)
    requires HasRequest(s.conn)
  {
    s.conn.index == s.conn.length && CallbackDies(cfg, s)
  }

  /** A readable event ends the process: before it reads, or in the callback. */
  predicate Ends(cfg: Config, s: State, cuts: seq<nat>)
  {
    Exits(s.conn) || (s.conn.open && Running(s.conn) && Dies(cfg, AfterReads(cfg, s, cuts)))
  }

  /** One readable event: read what is there, and call back when the phase is complete. Where the
      callback ends the process (`Ends`) nothing comes of it. */
  function Event(cfg: Config, s: State, cuts: seq<nat>): State
    requires !Exits(s.conn)
  {
    if !s.conn.open || !Running(s.conn) then s
    else
      AfterRead(cfg, AfterReads(cfg, s, cuts))
  }

  /** The client hung up. */
  function HangUp(cfg: Config, s: State): State
  {
    if !s.conn.open then s else Close(cfg, s)
  }
}

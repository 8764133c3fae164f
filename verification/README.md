# A verified model of the s3 file server

s3 is a small file server: clients send packets over a byte stream, each a magic word, a block of
headers and, for some actions, a body; the server checks the headers, logs the user in, stores,
updates, deletes or serves files, and answers with packets of the same form. This project models
its core in Dafny and proves what the core is for.

| module | file | models |
|---|---|---|
| Bits | Bits.dfy | `&`, `\|`, `^` and shifts on unbounded numbers, 64-bit wrap-around as a modulus |
| HashTables | HashTable.dfy | the open-addressing hash table, in place on an array of slots |
| Headers | Headers.dfy | the header list of a request and the table that indexes it |
| Paths, PathAlgebra | Paths.dfy, PathAlgebra.dfy | the path normaliser with its two growing buffers, and the algebra of its results |
| FileNames | FileNames.dfy | temporary names, metadata keys and stored names |
| Wire | Wire.dfy | the bit-packed magic word |
| Responses | Responses.dfy | the response writer over its 4096-byte buffer, and a reader of packets |
| FileStore | FileStore.dfy | files and metadata rows, and what create, append, rename and update do to them |
| Network | Network.dfy | the read loop: what one call takes and where it puts it |
| Protocol | Protocol.dfy | the connection state machine on values: one function per callback, one for an event |
| Exchanges | Exchanges.dfy | the invariant of a connection, and what every finished packet did |
| Fragmentation | Fragmentation.dfy | independence of how the stream is cut |
| Servers | Servers.dfy | many connections over one disk, as a state machine that may end |
| Verdicts | Verdicts.dfy | the verdict on the headers of a packet, told by their entries, the users, the metadata and the files |
| Permissions | Permissions.dfy | who may change what is stored, whatever the clients name |
| Credentials | Credentials.dfy | what grants credentials, and that strangers change nothing |
| Transcripts | Transcripts.dfy | the bytes that go out: one packet for every response, in their order |
| Progress | Progress.dfy | when a packet is taken, and that every one that is taken comes to its end |
| TempFiles | TempFiles.dfy | no temporary file outlives its packet |
| Effects | Effects.dfy | the exact effect of each recorded packet on what is stored |
| Logs | Logs.dfy | every run stores what its recorded packets store one after the other |
| RoundTrip | RoundTrip.dfy | what is stored is what is served, among any other traffic |
| Collisions | Collisions.dfy | runs in which a stored name meets a temporary one, or makes a folder of it |
| Connections | Connections.dfy | the connection as a record updated in place, proved equal to the state machine |
| AcceptLoop | AcceptLoop.dfy | the accept loop over the hash table of connections, proved equal to the many-connection machine |
| Hex, Rle | Hex.dfy, Rle.dfy | hexadecimal text and the run-length encoding of the connection key |

The layers fit together like this. `Protocol` and `Servers` say on values what happens; `Exchanges`,
`Fragmentation`, `Servers`, `Permissions`, `Effects`, `Logs` and `RoundTrip` prove properties of every
run of those machines, for any order of the events of any connections. `Verdicts`, `Credentials`,
`Transcripts` and `Progress` say what a client sees: which headers are refused and with which code, when
credentials are granted, which bytes go out, and that every packet comes to its end. The theorems about
single actions take the headers by their texts (`Protocol.Calls`). The centre is
`Logs.RunIsReplay`: whatever goes on at the same time, a run stores exactly what its recorded packets
store one after the other, in the order in which they were finished; the theorems about creates,
updates, appends and files that stay follow from it. `Connections` and `AcceptLoop` are the imperative
form, with a shared store, an array as read buffer, the header table and the client table, and every
method is proved to do exactly what its function on values does, so that the properties of runs hold
of it as well.

The foreign code is a parameter (`Protocol.Config`): the header parser, SHA-256, the header
serializer, the users, the names given to files, and the outcomes of calls into the operating system
and the database, which may differ at every callback (`Protocol.Env`): making folders, queries, opening
the temporary file and the client's file, what a folder passes for where a file is expected, each of the
calls of a copy, renaming, truncating, adding a row. For every byte of a body there is an outcome of its
own: whether it lands in the temporary file (`Config.lands`), since the writes of
src/networking/network.c:360 are not looked at. What the header table answers
is a parameter too (`Config.lookup`), so that the theorems about packets and runs hold whatever it
answers, with the comparison as written or as documented; `Connections` builds and searches the table
in place, with the documented comparison (`Protocol.FindsFirst`).

All theorems hold for all values of these parameters. The conditions on them are named predicates:
`Protocol.Fits`, where a response must be read back (serialized headers have at most 4080 bytes);
`Servers.Distinct` (no temporary name is another one or lies below it), which the program's own names
meet (`Servers.NamesAreDistinct`); and, on the steps of a run, `Servers.TameStep`: headers that are
complete, pass the query for credentials and ask to create or update a file do not name one that is
stored at a temporary name or below one. Headers that are refused, bytes inside a body and other actions
do not count. A run is tame if all of its steps are (`TameRun`), and it is if the streams of its clients
are (`TameStreamsSuffice`). Which names are excluded is proved exactly (`FileNames.RealIsTempIff`,
`Servers.IsRealIff`), and so is what happens with one (`Collisions`). Whatever the clients name, the
promises about packets, cuts and permissions hold, and the temporary file of a connection changes in a
step of another one only if the packet that this step puts on record writes to that name
(`Permissions.OtherFileChangesByName`).

## Where the process ends

A step of the server may end the process, and every connection with it (`Servers.Outcome`).
`Servers.StepEndsIff` says exactly when:

- a client cannot be accepted (src/networking/network.c:261), which is logged as fatal, and that exits
  (src/logging/logs.c:217-218);
- a body is awaited that is larger than the read buffer, and no temporary file is open for it
  (src/networking/network.c:300-302), which is also logged as fatal. Such a body belongs to a login, which
  never has a temporary file, or to an action whose temporary file could not be opened: the result of
  `fopen` is not looked at (src/protocol/protocol.c:336). `Exchanges.AwaitedBodyEndsIff` has the condition,
  `LargeLoginEnds` and `UnopenedNotificationEnds` are inputs;
- a callback comes to a null pointer: a file to be served or a notification to be shown that cannot be
  opened (src/protocol/actions/action-request.c:8, src/protocol/actions/action-notification.c:32), or a
  listing that could not be made or does not fit into the first buffer, since its data is freed by the
  first call of the writer (src/protocol/actions/action-dirlist.c:20-31).

The run of `Collisions.FolderEndsProcess` shows that a client can bring about the second: it stores a
file below the temporary name that the next request will get, so that this is the name of a folder.

## Where the code differs from its documentation

Both readings are modelled where the difference matters, the code as written among them, and the
exact condition under which it does what it is meant to do is proved.

- `hash_compare` (src/data/hash_table.c:154-178) is documented to say "keep probing" for every other
  key, but its last line stops at a different key of the same length. `HashTables.Reading` has both
  readings. `WrittenProbeIsLookupIff` gives the exact condition for the code as written,
  `WrittenTakesUpdateatForUsername` and `ClientKeysCollide` show it fail on keys the program uses, and
  `AcceptLoop.ClientLoop.WrittenLookupIff` specialises the condition to the table of clients.
  The map refinement is proved for the documented reading.
- `hash_string` (src/data/hash_table.c:26-36) does not look at the last byte of a key:
  `LastByteIsNotHashed`. This costs collisions, not correctness.
- `list_find_key_string` (src/protocol/request.c:43-53) reads element 0 in every turn.
  `Config.reading` has both readings, `WrittenFindIsRightIff` the exact condition. All theorems about
  packets hold under both.
- `s3_connection_headers_read` overwrites the error of `s3_request_read_action`
  (src/protocol/protocol.c:321-329), so a request without an action goes on as a create, the first
  action. The model does the same (`Protocol.ReadAction`).
- An unknown action is -1, and the row of the required-attribute table at -1 lies before the table
  (src/protocol/protocol.c:325). The row is a parameter of unknown content (`Config.strayRow`);
  whatever it holds, such a request never gets past preprocessing.
- `buffer_index` (src/networking/network.c:379) moves in memory phases too, so a second read in one
  call lands at the start of the buffer. `Network.Offsets` has both; `WrittenOffsetsKeepOrderIff` gives
  the exact condition, and `Connections.Connection.OnReadable` asks for it (`ReadsInOrder`) where the
  offsets are the written ones.
- The writer keeps 40 bits of the data length and the reader takes 48
  (src/protocol/response.c:138, src/protocol/request.c:101): `MagicRoundTripIff`, `FrameRoundTripIff`.
- A serialized header of 4081 to 4088 bytes is aligned to 4096 and does not fit behind the magic
  word: `FrameIsSentIff`.
- The stored hash is the text up to but not including its last digit, 63 of 64 digits, because of
  `STRING` over an array (src/protocol/actions/action-create.c:34): `Protocol.StoredHash`.
- `memcmp` over the length of the value makes every prefix of an action name match
  (src/protocol/request.c:86): `Protocol.NameMatches`.
- The result of `file_append` is not looked at when a create appends
  (src/protocol/actions/action-create.c:31): `FileStore.PostCreate`.
- Whether the temporary file of a request was opened is not looked at (src/protocol/protocol.c:336). A
  body of up to 4096 bytes is then kept in memory and stored nowhere, while the client is told `OK`:
  `RoundTrip.CreateIsStoredIff` and `LostBodyIsNotNoticed`. Where the open fails because the name is that
  of a folder, the rename moves that folder: `Collisions.FolderTakesPlace`.
- `file_append` does not close its two files (src/files/file.c:49-86), so that in the long run files cannot
  be opened any more. Every call that opens a file has an outcome in which it fails.
- Whether the bytes of a body were written is not looked at either (src/networking/network.c:360). Of a
  create, the file then holds those that landed; an update answers with an error, because its copy comes
  to a short read.
- A create whose rename fails is answered with `OK`: `rename` reports failure with -1, and
  src/files/filemgmt.c:204 compares it with 1. The row is added, and the body is removed with the
  temporary file. `RoundTrip.CreateIsStoredIff` gives the exact condition under which the file is there,
  `CreateIsOkIff` that of the answer, `LostBodyIsNotNoticed` the outcome.
- A create without append is meant to find no file of its name (src/protocol/actions/action-create.c:21-23).
  What it looks for is a row with its metadata key and its file, and the key does not determine the file:
  `FileNames.SameKeyIff` and `SameFileIff` say when two names share one or the other, `OtherKeySameFile`
  and `SameKeyOtherFile` that neither implies the other. `RoundTrip.CreateReplacesIff` says when such a
  create replaces the bytes of a stored file, `OtherNamePasses` how it gets that far.
- The size in a row is an `int` (src/files/filemgmt.c:47), so it is the length of the file if and only
  if that is below 2^31: `FileStore.AsIntKeepsIff`. The content has no such limit.
- A client's name may climb out of the files folder (src/files/filemgmt.c:222-247), and may then be
  stored under a temporary name (`FileNames.NameThatLands`) or below one (`NameThatPasses`).
  `Collisions.OtherBodyTakesOver` is a run in which a connection then loses the body it has read.
- A headers phase of length zero waits for one more event before its callback runs
  (src/protocol/protocol.c:239-242). `Fragmentation.Settle` stands for that callback.
- Removing an absent key from the hash table turns an empty slot into a tombstone without counting
  it: `RemovalKeepsLoadIff` gives the exact condition, and `ProbeEndsIffEmptySlot` what is lost.
- The string terminator of a path (src/files/path.c:115) may be stored at the capacity. The buffer of the
  model has one spare element for it.

## Model

| member | source | states |
|---|---|---|
| HashTables.HashString | src/data/hash_table.c:26-36 | the loop computes the 64-bit hash of all bytes but the last, reduced by the mask |
| HashTables.HashHash | src/data/hash_table.c:38-49 | the start slot of a key, always below the capacity |
| HashTables.MaskIsModulus | src/data/hash_table.c:18-36 | the mask is the remainder for capacities that are powers of two |
| HashTables.LastByteIsNotHashed | src/data/hash_table.c:26-36 | changing the last byte of a key never changes its start slot, unless it has 8 bytes |
| HashTables.DocumentedProbeIsLookup | src/data/hash_table.c:153-201 | in any array that represents a map, the first stop of a probe is exactly what the map holds for the key |
| HashTables.WrittenProbeIsLookupIff | src/data/hash_table.c:156-179 | with the comparison as written the probe is right if and only if no other key of the same length lies on the way |
| HashTables.WrittenProbeFindsPhantom | src/data/hash_table.c:156-179 | as written an absent key that shares length and start with a stored one is reported present |
| HashTables.PlaceKey | src/data/hash_table.c:68-99 | filling the first slot that is not live, tombstones included, adds exactly that entry to the map |
| HashTables.BuryKey | src/data/hash_table.c:103-118 | a tombstone in place of a key removes exactly that entry and hides no other |
| HashTables.RemovalKeepsLoadIff | src/data/hash_table.c:103-118 | a removal uses up an empty slot if and only if its key was absent |
| HashTables.ProbeEndsIffEmptySlot | src/data/hash_table.c:189-194 | the probe for an absent key ends if and only if an empty slot is left |
| HashTables.GrowthMakesRoom | src/data/hash_table.c:122-151 | for every positive capacity growth raises the fill limit by at least one, and the limit stays below the capacity |
| HashTables.HashTable.constructor | src/data/hash_table.c:51-66 | an empty table with the given capacity and fill limit |
| HashTables.HashTable.Get | src/data/hash_table.c:183-201 | with the documented comparison, exactly the answer of the map; the loop ends |
| HashTables.HashTable.Add | src/data/hash_table.c:68-100 | the map gains exactly the new entry; the decreases measure shows that growth never nests |
| HashTables.HashTable.Remove | src/data/hash_table.c:103-119 | the map loses exactly the key; as written, some key of the same length |
| HashTables.HashTable.Expand | src/data/hash_table.c:122-151 | the same map in the larger capacity, no tombstones, the count exact again |
| HashTables.LookupAfter | src/data/hash_table.c:68-201 | after any legal sequence of adds and removes from a fresh table, with all growths, a lookup is the lookup of a plain map |
| HashTables.FdKeysDiffer | src/protocol/protocol.c:216-220 | different descriptors have different four-byte keys |
| HashTables.EightByteKeysShareStart | src/data/hash_table.c:17-23 | at 16 slots two 8-byte keys with the same first byte start at the same slot |
| HashTables.UpdateKeysCollide | src/protocol/constants.c:36-54 | `updateat` and `username` are such keys |
| HashTables.ClientKeysCollide | src/protocol/protocol.c:58 | descriptors 4 and 8 start at the same slot of the client table |
| Headers.FirstEntriesAreFirst | src/protocol/protocol.c:536-552 | the map that skips repeated keys holds the first entry of each key, and nothing else |
| Headers.MakeHashTable | src/protocol/protocol.c:535-552 | for every list, of any length and with repeated keys, the table holds exactly the first entries |
| Headers.AttribGet | src/protocol/protocol.c:509-533 | the lookup is the first list entry with the key, and absent if and only if there is none |
| Headers.IndexAndGet | src/protocol/protocol.c:509-552 | the same end to end, from a list to an answer |
| Headers.AttribsAssert | src/protocol/protocol.c:472-484 | the loop says yes if and only if every required key has an entry |
| Headers.WrittenTakesOneKeyForAnother | src/data/hash_table.c:156-179 | as written, once a list starts with a key, every key of its length and start slot gets that entry |
| Headers.WrittenTakesUpdateatForUsername | src/data/hash_table.c:156-179 | so an update request can have its position taken for its user name |
| Paths.Reserve | src/files/path.c:22-41 | the buffer afterwards has room above index plus size, the tracked capacity is its length, and its content is kept |
| Paths.Buffers.EnterDir | src/files/path.c:76-102 | one component: ignore, rewind, or append and save the position, with every store inside the capacity |
| Paths.LeadsToWalk | src/files/path.c:67-105 | walking from slash to slash ends where the fold over the components ends |
| Paths.ShowsPop | src/files/path.c:80-86 | popping a position rewinds to the parent, or to the prefix, also after the sentinel is gone |
| Paths.ShowsPush | src/files/path.c:89-102 | pushing a position appends a directory, also when the sentinel is gone |
| Paths.ValidateAndExpand | src/files/path.c:43-120 | for every path and home whose lengths fit, the result is the fold: drop empty and `.`, pop on `..` down to the prefix, push the rest, append the last component untouched |
| PathAlgebra.IdempotentIff | src/files/path.c:58-105 | normalising twice is normalising once if and only if the home is normalised, or of a relative path the first component that is left does not start with `~` |
| PathAlgebra.ConcatContinues | src/files/path.c:122-128 | concatenating with a normalised base continues the fold from the base's stack |
| PathAlgebra.BelowBaseIff | src/files/path.c:122-128 | the result is the base followed by the path's own form if and only if no prefix of the path pops more than it pushed |
| PathAlgebra.SplitAppend | src/files/path.c:67-105 | splitting at slashes is compositional |
| PathAlgebra.BelowIff | src/files/path.c:138-155 | a path lies below another one if and only if all components of that one come first in its directories |
| FileNames.TempPathsDistinct | src/files/filemgmt.c:249-269 | temporary paths are equal if and only if their counters are |
| FileNames.TempPathsApart | src/files/filemgmt.c:249-269 | no temporary path is another one or lies below it |
| FileNames.RealPathIs | src/files/filemgmt.c:222-247 | every name, also one that climbs, is stored where the walk from the files folder leads |
| FileNames.RealPathIsBelowIff | src/files/filemgmt.c:222-247 | it is stored below the files folder, in its own normal form, if and only if it never climbs above it |
| FileNames.RealIsTempIff | src/files/filemgmt.c:222-269 | a stored path is that of a temporary file if and only if the walk ends in the folder of temporary files and the file name is the temporary name, and lies below it if and only if the walk passes there |
| FileNames.NameThatLands | src/files/filemgmt.c:222-269 | one step up and down into the other folder is such a name |
| FileNames.NameThatPasses | src/files/filemgmt.c:216-269 | with a further component it makes a folder of the temporary name |
| FileNames.RealIsNotTemp | src/files/filemgmt.c:222-269 | a name that never climbs is not |
| FileNames.SameKeyIff | src/files/filemgmt.c:222-247 | two names have one metadata key if and only if both are rooted or neither is and they have the same directories and file name |
| FileNames.SameFileIff | src/files/filemgmt.c:222-247 | two names have one stored file if and only if their walks from the files folder end at one |
| FileNames.KeyDecidesFile | src/files/filemgmt.c:222-247 | for relative names that never climb the two go together |
| FileNames.OtherKeySameFile | src/files/path.c:58-92 | a leading slash gives another key and the same file |
| FileNames.SameKeyOtherFile | src/files/path.c:58-92 | a step up gives the same key and another file |
| FileNames.SetRealPath | src/files/filemgmt.c:222-247 | both names as the normaliser makes them |
| FileNames.SetTmpPath | src/files/filemgmt.c:249-269 | a temporary name different from that of every other counter |
| Wire.MagicRoundTripIff | src/protocol/response.c:129-140 | reading a made word gives both lengths back if and only if the header length is a multiple of 16 below 4096 and the data length is below 2^40 |
| Wire.AlignIsLeast | src/protocol/response.c:49-53 | the alignment step gives the least multiple of 16 that covers the header |
| Wire.HeaderLengthFits | src/protocol/request.c:97-104 | a header length that was read is below the size of the read buffer |
| Wire.WordOnTheWire | src/protocol/response.c:74 | the eight bytes of a word read back as the word |
| Wire.WordFromBytes | src/protocol/request.c:97-105 | of the eight bytes of a word the last one is the magic byte, the one before it the header length in units of 16, and the first six are the data length, lowest first |
| Responses.FrameIsSentIff | src/protocol/response.c:43-97 | exactly magic word, padded header and payload are sent if and only if the header has at most 4080 bytes |
| Responses.Response.Writer | src/protocol/actions/action-request.c:3-29 | a call of the string or file writer puts the next piece of the payload behind what the buffer holds |
| Responses.Response.PutMagic | src/protocol/response.c:73-75 | the word at the start of the buffer, nothing else changed |
| Responses.Response.Turn | src/protocol/response.c:66-89 | a turn sends the next piece, the first one behind word and header, and later turns make progress |
| Responses.Response.Write | src/protocol/response.c:23-97 | the loop ends, and each byte of the payload is sent once and in order, whatever its length relative to the buffer |
| Responses.FrameRoundTripIff | src/protocol/response.c:129-140 | a reader gets header and payload back, and the rest of the stream untouched, if and only if the payload is shorter than 2^40 |
| FileStore.SpliceTwice | src/files/file.c:66-83 | writing two pieces one behind the other is writing them at once |
| FileStore.SplicedAt | src/files/file.c:61-83 | byte by byte, a write leaves its data at its position, what was there elsewhere, and zeroes in a gap |
| FileStore.WithoutRowsInParts | src/files/filemgmt.c:33-44 | removing the rows of a key leaves the others in their order |
| FileStore.Store.FileAppend | src/files/file.c:49-86 | the 16 KB loop leaves old bytes, copied bytes, old bytes for every size and every outcome of opening, seeking and writing; a short source leaves its full buffers, a failing write what it wrote |
| FileStore.CopySucceedsIff | src/files/file.c:67-85 | a copy succeeds if and only if it opened, sought and brought over all that was asked for |
| FileStore.MovedIs | src/files/file.c:43-47 | renaming a folder touches only what lies in it before or after, and keeps the bytes of every file in it |
| FileStore.RenameIs | src/files/file.c:43-47 | a rename that works takes a file to its new name, where it replaces what was there, and a folder only where no file has that name |
| FileStore.Store.PostprocessCreate | src/protocol/actions/action-create.c:18-38 | append to what is found, with the result of the copy ignored; otherwise rename what is under the temporary name, without noticing that it fails, and add a row with the length cut to an `int` |
| FileStore.AsIntKeepsIff | src/files/filemgmt.c:46-60 | the size in a row is the length up to multiples of 2^32, and the length itself if and only if that is below 2^31 |
| FileStore.Store.PostprocessUpdate | src/protocol/actions/action-update.c:38-56 | truncate if asked, then rewrite from the position |
| FileStore.UpdateLeaves | src/protocol/actions/action-update.c:38-56 | a trimmed update whose calls work leaves old bytes before the position and the data, an untrimmed one also the old bytes behind it |
| Network.MeantOffsetsKeepOrder | src/networking/network.c:305-379 | with the meant offsets the bytes of a memory phase arrive in order for every way the reads are cut |
| Network.WrittenOffsetsKeepOrderIff | src/networking/network.c:379 | as written they do for every input if and only if at most one read of the call delivers bytes |
| Protocol.WrittenFindIsRightIff | src/protocol/request.c:42-53 | as written the search is right if and only if the key comes first or nowhere |
| Protocol.FindKeyString | src/protocol/request.c:42-53 | the loop is the search, in both readings |
| Protocol.RequestReadAction | src/protocol/request.c:68-94 | the loop finds the first action that the value is a prefix of, invalid if none, the first action if there is no value |
| Protocol.CallsIff | src/protocol/constants.c:19-28 | each action is the one that its own name, or a beginning of it that no earlier name has, calls for, and no other text |
| Protocol.LandedAllIff | src/networking/network.c:355-373 | the temporary file holds the bytes of a body if and only if every one of them landed |
| Exchanges.EventIsSound | src/protocol/protocol.c:239-248 | every event that does not end the process, however its reads are cut, keeps the connection's invariant and with it the promises on all finished packets |
| Exchanges.ExitsIff | src/networking/network.c:300-302 | a readable event ends the process before it reads if and only if a body larger than the read buffer is awaited and no temporary file is open for it |
| Exchanges.AwaitedBodyEndsIff | src/protocol/protocol.c:335-358 | after the headers that is so if and only if the body is that large and the action has no temporary file or it could not be opened |
| Exchanges.UnopenedNotificationEnds | src/protocol/protocol.c:335-358 | a notification without a login brings this about where its temporary file cannot be opened |
| Exchanges.ListingFitsIff | src/protocol/actions/action-dirlist.c:4-33 | a listing fits if and only if all that the writer sends for it fits into one buffer of 4096 bytes |
| Exchanges.HeadersDieIff | src/protocol/actions/action-dirlist.c:4-62 | the headers callback comes to a null pointer if and only if it accepts a listing that could not be made or does not fit |
| Exchanges.CallbackDiesIff | src/protocol/actions/action-request.c:3-13 | in every state that a run can reach, the callback that is due comes to a null pointer if and only if it is such a listing, a notification that cannot be opened, or an accepted file that cannot be opened |
| Exchanges.LargeLoginEnds | src/protocol/protocol.c:309-360 | a granted login with such a body is taken, and what comes then ends the process |
| Exchanges.HangUpIsSound | src/protocol/protocol.c:229-236 | a hang-up at any moment keeps it too |
| Exchanges.NewConnIsSound | src/protocol/protocol.c:212-214 | a new connection has it |
| Exchanges.DispatchIsSound | src/protocol/protocol.c:286-465 | every callback keeps it: one final response, at most one interim response exactly when a body or a confirmation is asked for, exactly the bytes of the packet used |
| Exchanges.HeadersDoneIsSound | src/protocol/protocol.c:309-360 | in particular that of the headers: nothing that needs a login is prepared before the credentials were granted in the same request |
| Exchanges.RequiredDemandsLogin | src/protocol/constants.c:36-54 | each row of such an action demands user name and secret |
| Exchanges.PacketBoundary | src/protocol/protocol.c:459-462 | when a connection waits for a magic word it has consumed exactly the extents of its finished packets: eight bytes, headers, the body if accepted, eight more if confirmed |
| Exchanges.OneRecordPerPacket | src/protocol/protocol.c:286-465 | a callback either goes on with the packet or ends it, with exactly one record, back at the magic word or closed, the request gone |
| Fragmentation.ReadTwice | src/networking/network.c:355-379 | two reads have the effect of one on memory, file and incremental hash |
| Fragmentation.FeedPhase | src/networking/network.c:305-382 | within a phase, feeding byte by byte is reading at once |
| Fragmentation.EventFeeds | src/protocol/protocol.c:239-248 | an event does, up to the callback it may leave over, what feeding its bytes one by one does |
| Fragmentation.RunFeeds | src/protocol/protocol.c:239-248 | so does every run |
| Fragmentation.FragmentationDoesNotMatter | src/networking/network.c:305-382 | two runs that consumed the same bytes end in the same state, whatever the cuts: phase, request, files, hash, responses and records |
| Fragmentation.CutsDoNotDecideTheEnd | src/networking/network.c:300-302 | where the process ends in one run, it does in every run that consumed the same bytes |
| Fragmentation.NoRunGetsPastTheEnd | src/protocol/protocol.c:239-248 | where the process ends in one run, at whatever point, no run of the same stream that it survives has consumed more |
| Servers.NamesAreDistinct | src/files/filemgmt.c:249-269 | the program's own temporary names do not repeat and do not lie below each other, whatever the clients send |
| Servers.IsRealIff | src/files/filemgmt.c:222-269 | a file name is stored neither at nor below a temporary name if and only if its walk leads to none and through none |
| Servers.HangUpRemoves | src/protocol/protocol.c:229-236 | a client that hangs up leaves the table at once, its temporary file goes with it, and nothing else changes |
| Servers.AcceptAdds | src/protocol/protocol.c:188-221 | a client that connects waits for eight bytes under its descriptor, and nothing else changes |
| Servers.EventFrame | src/protocol/protocol.c:239-248 | an event that completes proper headers, if any, touches of the temporary files its own one only, and an open one holds exactly what has landed of the body read so far |
| Servers.StepKeepsInv | src/protocol/protocol.c:185-249 | every tame step that the process survives keeps: live requests never share a temporary name, each open temporary file holds exactly what has landed of a prefix of its own body |
| Servers.StepKeepsSound | src/protocol/protocol.c:185-249 | and, without any condition on clients, the promises about packets |
| Servers.StepEndsIff | src/protocol/protocol.c:185-248 | a step ends the process if and only if a client could not be accepted, a body that does not fit in memory is awaited without a temporary file, or a callback comes to a null pointer |
| Servers.EveryRunKeepsInv | src/protocol/protocol.c:185-249 | so does every tame run up to the end of the process, for any order of events over any connections |
| Servers.TameStreamsSuffice | src/protocol/protocol.c:185-249 | a run is tame if, in the streams of its clients, no headers with credentials of a user that ask to write a file name one at or below a temporary name |
| Servers.NoConnections | src/protocol/protocol.c:15-64 | what every run keeps holds of a server that has just started, if no file lies below a temporary name |
| Servers.EventsDoNotMix | src/protocol/protocol.c:185-249 | a tame event that the process survives leaves every other connection and its temporary file as they were |
| Verdicts.HeadersAreJudged | src/protocol/protocol.c:309-360 | for any headers: they are refused with the first objection there is, nothing stored is changed, and the connection closed for an error only; without an objection the request is taken up with the names, values and temporary file they make, and waits for its body, for the confirmation, or is on record |
| Verdicts.CreateVerdict | src/protocol/actions/action-create.c:4-16 | a create is refused as existing if and only if its file has a row and can be opened and there is no `append`, and accepted otherwise |
| Verdicts.UpdateVerdict | src/protocol/actions/action-update.c:5-36 | an update is refused as not found or as out of bounds exactly where it is, and accepted otherwise |
| Verdicts.RequestVerdict | src/protocol/actions/action-request.c:31-44 | a request is refused if and only if its file is not found or it announces a body |
| Verdicts.DeleteVerdict | src/protocol/actions/action-delete.c:5-16 | a delete is refused if and only if it announces a body or its query fails, whether there is anything to delete or not |
| Verdicts.DirVerdict | src/protocol/actions/action-dirlist.c:35-48 | a listing is refused if and only if there is no such folder or it announces a body |
| Verdicts.HeadersEndProcessIff | src/protocol/actions/action-dirlist.c:4-74 | headers end the process if and only if they would be accepted as a listing, and that cannot be made or does not fit into one buffer |
| Verdicts.NotificationVerdict | src/protocol/actions/action-notification.c:16-24 | a notification is accepted, without a login, if and only if its body has between 1 and 16383 bytes |
| Verdicts.ServerVerdict | src/protocol/actions/action-serverinfo.c:13-20 | so is a question for the server information, if and only if it announces no body |
| Verdicts.LoginVerdict | src/protocol/actions/action-login.c:3-7 | a login is accepted, whatever body it announces |
| Verdicts.NoVerdict | src/protocol/protocol.c:770-803 | headers that call for none of the actions are always refused |
| Verdicts.CredentialsVerdict | src/protocol/auth.c:11-51 | headers are refused as incomplete if and only if an entry of their action's row is missing, then for one of name and secret without the other, then for a pair that is no user's |
| Permissions.ActionIsLawful | src/protocol/protocol.c:716-757 | the actions that write at the end of a packet write only in one whose credentials were granted |
| Permissions.AuthEntitles | src/protocol/auth.c:11-51 | past the credential query, an action that needs a login has one |
| Permissions.EventIsLawful | src/protocol/protocol.c:239-248 | an event changes no metadata and no file but its own temporary one, unless it puts a packet on record whose credentials were granted, and then of the files only the one that this packet writes |
| Permissions.StepIsLawful | src/protocol/protocol.c:185-249 | a step of the server changes nothing stored, unless it puts a packet on record whose credentials were granted |
| Permissions.OtherFileChangesByName | src/protocol/protocol.c:185-249 | whatever the clients name, a step changes the temporary file of another connection only if the packet it puts on record writes to that name |
| Permissions.EveryRunStaysOrderly | src/protocol/protocol.c:185-249 | what this rests on, among it that live requests never share a ticket, holds over every run of any clients |
| Permissions.NoUsersNoChange | src/protocol/protocol.c:185-249 | a server without users keeps metadata and stored files as they are, over every run of any clients |
| Credentials.CredentialsAreGrantedIff | src/protocol/auth.c:26-76 | credentials are granted if and only if the entries are complete, the name with the hexadecimal digest of the secret is a user's, and the query works |
| Credentials.StrangersChangeNothing | src/protocol/auth.c:11-76 | whoever the users are, a run in which no headers of any client carry the name and the secret of one keeps metadata and stored files as they are |
| Transcripts.EventSends | src/protocol/protocol.c:603-632 | an event sends exactly one packet for every response to the packet at hand, in their order, with the text of the code or the data it announces |
| Transcripts.EveryRunSpeaks | src/protocol/protocol.c:616-632 | over every run of any clients, all that each of them has got are the packets for the responses on record and to the packet at hand |
| Transcripts.PacketsAreHeard | src/protocol/response.c:43-97 | the packets for any codes are read back as those headers and payloads, and nothing else |
| Transcripts.FinishedPacketIsHeard | src/protocol/protocol.c:309-437 | what a client reads for a finished packet is the one interim response, if there was one, and the one final response, with the file, the listing or the server information where that is data |
| Progress.MagicIsTakenIff | src/protocol/protocol.c:286-307 | a complete magic word is taken, with a new request of the lengths in its bytes, if and only if its last byte is 0xD0; otherwise the connection is closed without a response |
| Progress.EventGetsOn | src/protocol/protocol.c:239-248 | an event that delivers something brings a packet nearer to its end, or on record, or its stream has ended |
| Progress.RunGetsOn | src/protocol/protocol.c:185-249 | over every run of any connections, as long as the client stays, each delivery is one fewer to go |
| Progress.EveryPacketEnds | src/protocol/protocol.c:185-249 | so every packet behind a valid word goes on record, as exactly one more, after at most the length of its headers and body and 18 further deliveries, or its stream is too short for it |
| TempFiles.StepLeavesNone | src/protocol/protocol.c:446-465 | a tame step that the process survives leaves no temporary file without a request that a connection works on |
| TempFiles.RunLeavesNone | src/protocol/protocol.c:446-465 | nor does any tame run: no temporary file outlives its packet |
| Effects.ActionTakes | src/protocol/protocol.c:716-757 | the work of an accepted request on what is stored is what its request, what lies under its temporary name and the outcomes of its calls say |
| Effects.UpdatedIs | src/protocol/actions/action-update.c:38-56 | an update leaves the bytes before its position, its body, and if not trimmed the bytes behind it |
| Effects.EventTakes | src/protocol/protocol.c:239-248 | an event changes nothing stored and records nothing, or records one packet that had exactly its effect, with what landed of the body in the stream, or what else lay under the temporary name if that was not opened |
| Logs.StepTakes | src/protocol/protocol.c:185-249 | the same of a tame step of the server, the end of the process included, and the last response of a packet that writes tells whether there was an error |
| Logs.StepTouchesOnlyNamed | src/protocol/protocol.c:185-249 | a tame step touches no stored file but the one its recorded packet writes to, and no rows but those of its key |
| Logs.RunIsReplay | src/protocol/protocol.c:185-249 | every tame run, whatever its connections do at the same time, stores what its recorded packets store one after the other in the order of their records |
| Logs.NoWriterNoChange | src/protocol/protocol.c:185-249 | a log in which nothing writes a file leaves it as it was |
| Logs.StoredFilesStay | src/protocol/protocol.c:185-249 | no tame run loses a stored file, whatever it does to its bytes and rows |
| Logs.AppendsInCompletionOrder | src/protocol/actions/action-create.c:28-31 | however uploads to an existing file are interleaved, with only appends concerning it a run leaves its bytes followed by what their copies brought over, in the order of their records |
| Logs.PieceIsBodyIff | src/files/file.c:49-86 | that is the body if and only if every byte of it landed and the copy opened, sought and wrote, or the body is empty |
| Logs.WholeAppends | src/protocol/actions/action-create.c:28-31 | where that is so for all of them, what follows the old bytes is the bodies in the order of their records |
| RoundTrip.HeadersDoneTells | src/protocol/protocol.c:309-360 | a request that waits, or that was accepted and recorded, is for the file and with the values its headers name |
| RoundTrip.StepTells | src/protocol/protocol.c:185-249 | in every run, each accepted packet on record is the one that its stream tells at the position where it starts |
| RoundTrip.CreateIsStoredIff | src/protocol/actions/action-create.c:18-38 | a create answered with OK, among any other traffic and in any pieces, has a row; if its rename worked on a file, its file holds exactly the body in the stream if and only if that file did (if it was opened: every byte landed), otherwise if and only if it held just that before |
| RoundTrip.CreateIsOkIff | src/protocol/actions/action-create.c:28-37 | a create is answered with OK if and only if its row was added, whatever became of its temporary file and of the rename, and whatever the clients name |
| RoundTrip.LostBodyIsNotNoticed | src/files/filemgmt.c:201-208 | OK, a row, and the file as it was, when the rename fails or the temporary file could not be opened |
| RoundTrip.CreateReplacesIff | src/protocol/actions/action-create.c:18-38 | a create without append that gets OK replaces the bytes of a stored file if and only if the rename worked on a file with other bytes |
| RoundTrip.OtherNamePasses | src/protocol/actions/action-create.c:4-15 | a create is not refused where its file is there, if its name has another key than the one it was stored with |
| RoundTrip.UpdateIsStored | src/protocol/actions/action-update.c:38-56 | an update answered with OK, among any other traffic, has changed the file as it was at that moment by all of the body in the stream at the position in the headers, also where writing the temporary file could have failed; by other bytes only if that file could not be opened |
| RoundTrip.RowHasDigest | src/protocol/actions/action-create.c:32-34 | the row of a create whose body went to a file holds the first 63 hexadecimal digits of the digest of that body |
| RoundTrip.DeleteForgets | src/protocol/actions/action-delete.c:5-22 | an accepted delete gets OK; exactly the rows of its key are gone, and every stored file is as it was |
| RoundTrip.CallsAreAnswered | src/protocol/protocol.c:716-757 | the last response to an accepted packet is OK for headers that call for a login, a notification or a delete, and data for a listing and the server information |
| RoundTrip.UploadServes | src/protocol/protocol.c:399-419 | a confirmed request gets one packet with the file, any other answer of the client an error |
| RoundTrip.FileIsServed | src/protocol/actions/action-request.c:3-43 | a served request, among any other traffic, in any pieces and whatever the clients name, gets one packet with what its name stands for at that moment: the file, if there is one |
| RoundTrip.FileStays | src/protocol/protocol.c:185-249 | a file keeps its bytes over every tame run in which no recorded packet writes it |
| RoundTrip.StoreThenServe | src/protocol/actions/action-create.c:18-38 | after a create with OK whose temporary file was open, all of whose bytes landed and whose rename worked, and any events of any connections of which no recorded packet writes that file, what is served, read back, is exactly the body that came in, for every length below 2^40 |
| Collisions.OtherBodyTakesOver | src/files/filemgmt.c:222-269 | a run from the start in which a create stored under a temporary name replaces the body that another connection has read |
| Collisions.StoredUnderTemporaryName | src/files/filemgmt.c:222-269 | with the program's names there are such file names |
| Collisions.FolderEndsProcess | src/protocol/protocol.c:335-358 | a run from the start in which a file stored below the next temporary name keeps a create from opening its own, and its large body ends the process |
| Collisions.FolderTakesPlace | src/protocol/actions/action-create.c:18-38 | the same with a body that fits in memory: the client gets OK, its body is in no file, and the other file has moved below its name |
| Collisions.StoredBelowTemporaryName | src/files/filemgmt.c:216-269 | with the program's names there are such file names |
| Connections.Connection.HandleResponse | src/protocol/protocol.c:603-632 | one packet more has gone out, as the state machine says |
| Connections.Connection.ResetNewPacket | src/protocol/protocol.c:446-465 | the temporary file is gone, the request is freed, the magic word is awaited |
| Connections.Connection.ResetWithResponse | src/protocol/protocol.h:117-121 | response, reset, and a result that closes for error codes only |
| Connections.Connection.AuthTransaction | src/protocol/auth.c:11-51 | the credentials are asked for exactly when both are there, and the answer follows the outcome |
| Connections.Connection.SetupEnvironment | src/protocol/protocol.c:640-676 | a fresh temporary name, then the client's names, with each failure |
| Connections.Connection.PreprocessUpdate | src/protocol/actions/action-update.c:5-36 | position and trim are taken from the headers, and out of bounds is refused |
| Connections.Connection.PreprocessAction | src/protocol/protocol.c:770-803 | what each action checks before a body is asked for |
| Connections.Connection.HeadersPacket | src/protocol/protocol.c:309-360 | with the header table built and searched in place, exactly the headers callback of the state machine, or the end of the process |
| Connections.Connection.MagicPacket | src/protocol/protocol.c:286-307 | exactly the magic callback, on the bytes of the read buffer |
| Connections.Connection.ConfirmPacket | src/protocol/protocol.c:380-397 | exactly the callback after the body, or the end of the process |
| Connections.Connection.UploadPacket | src/protocol/protocol.c:399-419 | exactly the callback after the confirmation, or the end of the process |
| Connections.Connection.PostProcessPacket | src/protocol/protocol.c:421-437 | exactly the end of a packet, or the end of the process where a notification cannot be opened |
| Connections.Connection.ReadPiece | src/networking/network.c:317-378 | one read: the buffer, the file, the incremental hash and the counters afterwards |
| Connections.Connection.ReadStream | src/networking/network.c:291-382 | the whole loop, in both offset readings, is reading the same bytes at once, and memory phases lie in order at the start of the buffer; or the process ends, exactly where a phase does not fit |
| Connections.Connection.Abort | src/protocol/protocol.c:266-284 | reset and closed |
| Connections.Connection.OnReadable | src/protocol/protocol.c:239-248 | for every way the reads are cut, exactly the event of the state machine, or the end of the process |
| Connections.Connection.OnHangUp | src/protocol/protocol.c:229-236 | exactly the hang-up of the state machine |
| AcceptLoop.ClientLoop.Lookup | src/protocol/protocol.c:223-227 | the table gives the connection that is registered under the descriptor, and no other |
| AcceptLoop.ClientLoop.WrittenLookupIff | src/data/hash_table.c:156-201 | as written, the probe for a descriptor is right if and only if no other live connection lies on the way to the answer |
| AcceptLoop.ClientLoop.OnReadable | src/protocol/protocol.c:223-248 | exactly the step of the many-connection machine, the end of the process included, other connections and their buffers untouched, a closed one out of the table |
| AcceptLoop.ClientLoop.OnHangUp | src/protocol/protocol.c:229-236 | the same for a hang-up |
| AcceptLoop.ClientLoop.OnAccept | src/protocol/protocol.c:188-221 | a new connection under its descriptor, all others unchanged, also when the table grows; or the end of the process |
| AcceptLoop.ClientLoop.TameIsReadied | src/protocol/protocol.c:223-248 | what OnReadable asks for holds in every tame step |
| Hex.StringHexify | src/general/common.c:3-25 | the two passes write two digits per byte and nothing behind them |
| Hex.HexifyReadsBack | src/general/common.c:3-25 | read as lower-case digits in base 16, the text gives the bytes back |
| Hex.HexifyInjective | src/general/common.c:3-25 | different bytes have different texts |
| Rle.RleString | src/main.c:221-258 | for every input of up to 16383 bytes the text unpacks to it, counts are the letters `b` to `z`, and there are as many pairs as its runs need |
| Rle.GreedyPairCount | src/main.c:221-258 | the number of pairs is the sum over maximal runs of their length over 25, rounded up |
| Rle.GreedyIsShortest | src/main.c:221-258 | no encoding with counts 1 to 25 has fewer pairs |
| Rle.GreedyIsUnique | src/main.c:221-258 | the greedy encoding of a text is unique |
| Rle.LettersInjective | src/main.c:221-258 | the pairs can be read off the text |
| Rle.AlternateKeysTellApart | src/main.c:221-313 | encoded hexadecimal texts are equal if and only if the raw bytes are |

## Left out

- HashTables.HashTable.Add: the key must be absent, which `make_hash_table` and the kernel (for descriptors) ensure; the collision counter is not kept, it is never read.
- HashTables.HashTable.Remove: the key must be present, as it is for a live connection; for an absent key see `RemovalKeepsLoadIff`.
- HashTables.GrowthMakesRoom: fill factor and multiplier are a rational and an integer, where the code has floats; rounding of large capacities is not modelled.
- HashTables.HashTable.Get: keys are compared by content, where the code keeps pointers to them; keys that change while they are stored are not modelled.
- Paths.ValidateAndExpand: path and home together must be shorter than 2^15; beyond that the code's `short` positions wrap, which is not modelled. The first byte of a path is looked at, so a path is a terminated string.
- Responses.Response.Write: a response without a text is sent for headers of at most 4080 bytes only; writing to the network always completes.
- FileStore.Store.FileAppend: source and destination are different files; a file that can be opened is read without errors.
- FileStore.Store.PostprocessCreate: as FileAppend.
- FileStore.Store.PostprocessUpdate: as FileAppend.
- Protocol.Say: a response whose serialized header does not fit counts as said, although the writer then sends nothing and the packet ends with an error; with `Fits` there is no such response (`FrameIsSentIff`).
- Rle.RleString: the terminator and the reported length behind the text are not part of the model.
- Protocol.RequestReadAction: a value with a byte behind the terminator of an action name is taken not to match, where the code would compare unknown memory.
- Connections.Connection.OnReadable: with the offsets as written, at most one read of a call in a memory phase may deliver bytes; otherwise the buffer is garbled (`WrittenOffsetsKeepOrderIff`).
- Headers.AttribGet: in place, the table is searched with the documented comparison; the packet and run theorems hold for whatever it answers.
- Headers.IndexAndGet: as AttribGet.
- Headers.AttribsAssert: as AttribGet.
- Connections.Connection.AuthTransaction: as AttribGet.
- Connections.Connection.SetupEnvironment: as AttribGet.
- Connections.Connection.PreprocessUpdate: as AttribGet.
- Connections.Connection.PreprocessAction: as AttribGet.
- Connections.Connection.HeadersPacket: as AttribGet; and a file that it is to write is not stored at its own temporary name, which is the name of no client's file in a tame step (`ProperWritesElsewhere`).
- Connections.Connection.ConfirmPacket: as FileAppend, for its own temporary file.
- Connections.Connection.UploadPacket: as FileAppend, for its own temporary file.
- Connections.Connection.PostProcessPacket: as FileAppend, for its own temporary file.
- AcceptLoop.ClientLoop.Lookup: as OnAccept.
- AcceptLoop.ClientLoop.OnAccept: the client table is the one with the documented comparison; as written, descriptors collide (`ClientKeysCollide`).
- Sockets, TLS, epoll, interfaces, signals, command line, statistics: outside calls. Reads deliver any number of bytes, events come in any order.
- SQLite: metadata is a sequence of rows, the users are a set of pairs of name and hashed secret.
- SHA-256: an arbitrary function of all the bytes fed to a context, so that feeding in pieces is feeding at once.
- The ssbs library: header parsing is an arbitrary function from bytes to a list of pairs; serialized headers are arbitrary bytes.
- Folders are known by the files below them and by the outcomes of calls; that a call fails because of one is an outcome of the call, except where a temporary file is opened.
- An open temporary file is addressed by its name, also after another connection has replaced it, which no tame step does.
- What a listing holds is arbitrary bytes; one that does not fit into the first buffer ends the process.
- Memory can always be allocated; reading an open file delivers its bytes.
- src/memdbg/memory.c, src/data/linked_list.c, src/protocol/download.c: not on the path of a request.
- Logging, desktop notifications, interactive setup, the Python client.

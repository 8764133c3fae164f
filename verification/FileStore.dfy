/** The files and the metadata of the server, and the operations that create, append to and
    update stored files. */
module FileStore {
  import opened Headers
  import opened PathAlgebra
  import opened Wire

  const COPY_BUFFER: nat := 16384

  // ----- byte sequences ----------------------------------------------------------------------

  /** The bytes before a position of a file, with a gap filled with zeroes. */
  function Front(d: seq<byte>, at: nat): (front: seq<byte>)
    ensures |front| == at
  {
    if at <= |d| then d[..at] else d + seq(at - |d|, i => 0)
  }

  /** Writing at a position of a file: bytes after the written part stay, and writing nothing
      changes nothing. */
  function Splice(d: seq<byte>, at: nat, data: seq<byte>): seq<byte>
  {
    if data == [] then d
    else Front(d, at) + data + if at + |data| <= |d| then d[at + |data|..] else []
  }

  lemma BehindFront(front: seq<byte>, back: seq<byte>, b: seq<byte>)
    requires b != []
    ensures Splice(front + back, |front|, b) == front + b + if |b| <= |back| then back[|b|..] else []
  {
    assert (front + back)[..|front|] == front;
    assert |b| <= |back| ==> (front + back)[|front| + |b|..] == back[|b|..];
  }

  lemma SpliceTwice(d: seq<byte>, at: nat, a: seq<byte>, b: seq<byte>)
    ensures Splice(Splice(d, at, a), at + |a|, b) == Splice(d, at, a + b)
  {
    if a == [] {
      assert a + b == b;
    } else if b == [] {
      assert a + b == a;
    } else {
      var back := if at + |a| <= |d| then d[at + |a|..] else [];
      BehindFront(Front(d, at) + a, back, b);
      assert Front(d, at) + a + b == Front(d, at) + (a + b);
      assert |b| <= |back| ==> back[|b|..] == d[at + |a| + |b|..];
    }
  }

  lemma SpliceOn(d: seq<byte>, at: nat, a: seq<byte>, b: seq<byte>, both: seq<byte>, next: nat)
    requires both == a + b && next == at + |a|
    ensures Splice(Splice(d, at, a), next, b) == Splice(d, at, both)
  {
    SpliceTwice(d, at, a, b);
  }

  /** Byte by byte: what is written, what was there before, and zeroes in a gap between the two. */
  lemma SplicedAt(d: seq<byte>, at: nat, data: seq<byte>, i: nat)
    requires data != [] && (i < |d| || i < at + |data|)
    ensures |Splice(d, at, data)| == if at + |data| <= |d| then |d| else at + |data|
    ensures Splice(d, at, data)[i] == if at <= i < at + |data| then data[i - at] else if i < |d| then d[i] else 0
  {
  }

  lemma SpliceAtEnd(d: seq<byte>, data: seq<byte>)
    ensures Splice(d, |d|, data) == d + data
  {
  }

  // ----- the disk ----------------------------------------------------------------------------

  datatype Row = Row(name: string, size: int, hash: seq<byte>)

  /** A length passed as an `int`: cut to 32 bits, with a sign. */
  function AsInt(length: nat): (size: int)
    ensures -0x8000_0000 <= size < 0x8000_0000
  {
    (length + 0x8000_0000) % 0x1_0000_0000 - 0x8000_0000
  }

  /** The size in a row is the length of the file up to multiples of 2^32, and so is the length if and only
      if that is below 2^31. */
  lemma AsIntKeepsIff(length: nat)
    ensures (length - AsInt(length)) % 0x1_0000_0000 == 0
    ensures AsInt(length) == length <==> length < 0x8000_0000
  {
    var m := length + 0x8000_0000;
    assert length - AsInt(length) == 0x1_0000_0000 * (m / 0x1_0000_0000);
  }

  datatype Disk = Disk(files: map<string, seq<byte>>, rows: seq<Row>)

  datatype FileError = FileSuccess | ErrorOpen | ErrorSeek | ReadError | WriteError

  predicate HasRow(disk: Disk, name: string)
  {
    exists row :: row in disk.rows && row.name == name
  }

  /** `filemgmt_remove_meta`: all rows of a name go; the file stays. */
  function WithoutRows(rows: seq<Row>, name: string): (kept: seq<Row>)
    ensures forall row :: row in kept <==> row in rows && row.name != name
  {
    if rows == [] then []
    else
      var kept := WithoutRows(rows[..|rows| - 1], name);
      if rows[|rows| - 1].name == name then kept else kept + [rows[|rows| - 1]]
  }

  /** The other rows stay in their order. */
  lemma {:induction false} WithoutRowsInParts(a: seq<Row>, b: seq<Row>, name: string)
    ensures WithoutRows(a + b, name) == WithoutRows(a, name) + WithoutRows(b, name)
    decreases |b|
  {
    if b == [] {
      assert a + b == a;
    } else {
      var init, last := b[..|b| - 1], b[|b| - 1];
      assert (a + b)[..|a + b| - 1] == a + init && (a + b)[|a + b| - 1] == last;
      WithoutRowsInParts(a, init, name);
    }
  }

  /** A row in the metadata and a file. */
  predicate FileExists(disk: Disk, name: string, path: string)
  {
    HasRow(disk, name) && path in disk.files
  }

  /** The outcome of calls that look at a path: whether they work, and what a folder at that path
      passes for, if there is one. */
  datatype Look = Look(works: bool, folder: Option<seq<byte>>)

  /** What a path that is opened for reading gives. */
  function Seen(files: map<string, seq<byte>>, look: Look, path: string): Option<seq<byte>>
  {
    if !look.works then None else if path in files then Some(files[path]) else look.folder
  }

  /** `filemgmt_file_exists`: a row, and something that can be opened; with it, what is there. */
  function Found(disk: Disk, look: Look, name: string, path: string): Option<seq<byte>>
  {
    if HasRow(disk, name) then Seen(disk.files, look, path) else None
  }

  // ----- copying -----------------------------------------------------------------------------

  /** The outcomes of the calls that copy: opening, seeking, and after how many bytes, if at all,
      writing fails. */
  datatype Copying = Copying(opens: bool, seeks: bool, room: Option<nat>)

  /** The bytes that can be read: all that are asked for, or the full buffers before the short one. */
  function Readable(source: seq<byte>, size: nat): (n: nat)
    ensures n <= |source| && n <= size
  {
    if size <= |source| then size else |source| - |source| % COPY_BUFFER
  }

  /** The bytes that a copy brings over. */
  function Brought(source: seq<byte>, size: nat, copy: Copying): seq<byte>
  {
    var n := Readable(source, size);
    if !copy.opens || !copy.seeks then []
    else if copy.room.Some? && copy.room.value < n then source[..copy.room.value]
    else source[..n]
  }

  function CopyError(source: seq<byte>, size: nat, copy: Copying): FileError
  {
    if !copy.opens then ErrorOpen
    else if !copy.seeks then ErrorSeek
    else if copy.room.Some? && copy.room.value < Readable(source, size) then WriteError
    else if size <= |source| then FileSuccess
    else ReadError
  }

  /** A copy succeeds if and only if it brings over all that was asked for. */
  lemma CopySucceedsIff(source: seq<byte>, size: nat, copy: Copying)
    ensures CopyError(source, size, copy) == FileSuccess
            <==> copy.opens && copy.seeks && |Brought(source, size, copy)| == size
    ensures CopyError(source, size, copy) == FileSuccess ==> Brought(source, size, copy) == source[..size]
  {
  }

  /** The file at a path, if there is one. */
  function At(disk: Disk, path: string): Option<seq<byte>>
  {
    if path in disk.files then Some(disk.files[path]) else None
  }

  function Content(disk: Disk, path: string): seq<byte>
  {
    if path in disk.files then disk.files[path] else []
  }

  /** `file_append` as a whole. A source that is not a file delivers nothing. */
  function Append(disk: Disk, dest: string, src: string, at: nat, size: nat, copy: Copying)
    : (map<string, seq<byte>>, FileError)
  {
    if dest !in disk.files then (disk.files, ErrorOpen)
    else (disk.files[dest := Splice(disk.files[dest], at, Brought(Content(disk, src), size, copy))],
          CopyError(Content(disk, src), size, copy))
  }

  lemma LastFullBuffer(written: nat, length: nat)
    requires written % COPY_BUFFER == 0 && written <= length < written + COPY_BUFFER
    ensures length - length % COPY_BUFFER == written
  {
  }

  // ----- renaming ----------------------------------------------------------------------------

  /** Nothing lies in a folder of that name. */
  predicate Bare(files: map<string, seq<byte>>, folder: string)
  {
    forall path :: path in files ==> !Below(path, folder)
  }

  /** A path under another folder. */
  function Carried(path: string, dest: string, src: string): string
    requires Below(path, src)
  {
    dest + path[|src|..]
  }

  /** A folder under a new name, with all that lies in it. */
  function Moved(files: map<string, seq<byte>>, dest: string, src: string): map<string, seq<byte>>
  {
    var stays := map path | path in files && !Below(path, src) :: files[path];
    var goes := set path | path in files && Below(path, src) :: Carried(path, dest, src);
    stays + map path | path in goes && src + path[|dest|..] in files :: files[src + path[|dest|..]]
  }

  /** `rename`, which leaves everything as it is when it fails. What lies under a name and is not a
      file is a folder. */
  function Renamed(files: map<string, seq<byte>>, dest: string, src: string, works: bool): map<string, seq<byte>>
  {
    if !works then files
    else if src in files then (files - {src})[dest := files[src]]
    else if dest in files then files
    else Moved(files, dest, src)
  }

  // ----- create and update -------------------------------------------------------------------

  /** The outcomes of the calls at the end of a packet. */
  datatype Outcomes = Outcomes(look: Look, copy: Copying, rename: bool, insert: bool, truncate: bool)

  /** `s3_postprocess_create`: appending to an existing file in append mode, where the result of the
      copy is ignored; otherwise moving the temporary file into place and adding a row. A move that
      fails is not noticed, because `rename` says so with -1 and is asked for 1. */
  function PostCreate(disk: Disk, key: string, dest: string, temp: string, append: bool, size: nat, hash: seq<byte>,
                      calls: Outcomes): (Disk, bool)
  {
    var found := Found(disk, calls.look, key, dest);
    if append && found.Some? then
      (Disk(Append(disk, dest, temp, |found.value|, size, calls.copy).0, disk.rows), true)
    else
      var files := Renamed(disk.files, dest, temp, calls.rename);
      if calls.insert then (Disk(files, disk.rows + [Row(key, AsInt(size), hash)]), true)
      else (Disk(files, disk.rows), false)
  }

  /** `s3_postprocess_update`. */
  function PostUpdate(disk: Disk, dest: string, temp: string, at: nat, trim: bool, size: nat, calls: Outcomes)
    : (Disk, bool)
  {
    if trim && (!calls.truncate || dest !in disk.files) then (disk, false)
    else
      var files := if trim then disk.files[dest := Front(disk.files[dest], at)] else disk.files;
      var (after, result) := Append(Disk(files, disk.rows), dest, temp, at, size, calls.copy);
      (Disk(after, disk.rows), result == FileSuccess)
  }

  // ----- the shared store --------------------------------------------------------------------

  /** The disk and the counters that all connections share. */
  class Store {
    var files: map<string, seq<byte>>
    var rows: seq<Row>
    var counter: nat
    var ticks: nat

    constructor (initial: map<string, seq<byte>>)
      ensures files == initial && rows == [] && counter == 0 && ticks == 0
    {
      files, rows, counter, ticks := initial, [], 0, 0;
    }

    function AsDisk(): Disk
      reads this
    {
      Disk(files, rows)
    }

    /** One turn of the copy loop: a piece is read and written, or the reading or writing fails. */
    method CopyPiece(dest: string, src: string, at: nat, written: nat, required: nat, copy: Copying,
                     ghost start: map<string, seq<byte>>, ghost d: seq<byte>, ghost source: seq<byte>)
      returns (result: FileError, ghost end: nat)
      requires dest != src && required > 0 && source == Content(AsDisk(), src) && written <= |source|
      requires files == start[dest := Splice(d, at, source[..written])]
      requires copy.room.Some? ==> written <= copy.room.value
      modifies this`files
      ensures source == Content(AsDisk(), src)
      ensures (result, end) == PieceOutcome(|source|, written, written + required, copy.room) && end <= |source|
      ensures files == start[dest := Splice(d, at, source[..end])]
    {
      var available := |Content(AsDisk(), src)| - written;
      if available < required {
        return ReadError, written;
      }
      var next := written + required;
      var stop := if copy.room.Some? && copy.room.value < next then copy.room.value else next;
      PieceGrows(d, at, source, written, stop);
      files := files[dest := Splice(files[dest], at + written, Content(AsDisk(), src)[written..stop])];
      result, end := if stop < next then WriteError else FileSuccess, stop;
    }

    /** The loop, on a destination that is there. */
    method CopyLoop(dest: string, src: string, at: nat, size: nat, copy: Copying, ghost d: seq<byte>,
                    ghost source: seq<byte>) returns (result: FileError)
      requires dest != src && dest in files && copy.opens && copy.seeks
      requires d == files[dest] && source == Content(AsDisk(), src)
      modifies this`files
      ensures result == CopyError(source, size, copy)
      ensures files == old(files)[dest := Splice(d, at, Brought(source, size, copy))]
    {
      ghost var start := files;
      var written := 0;
      result := FileSuccess;
      assert files == files[dest := Splice(d, at, source[..0])];
      while written < size
        invariant 0 <= written <= size && written <= |source| && Content(AsDisk(), src) == source
        invariant copy.room.Some? ==> written <= copy.room.value
        invariant written == size || written % COPY_BUFFER == 0
        invariant files == start[dest := Splice(d, at, source[..written])]
        decreases size - written
      {
        var required := if size - written < COPY_BUFFER then size - written else COPY_BUFFER;
        ghost var end;
        result, end := CopyPiece(dest, src, at, written, required, copy, start, d, source);
        if result != FileSuccess {
          StopsAt(source, size, copy, written, written + required);
          return;
        }
        written := written + required;
      }
      EndsAt(source, size, copy);
      result := FileSuccess;
    }

    /** `file_append`: the loop copies in pieces of 16 KB, and for every size and every failure on
        the way leaves exactly the destination with the bytes brought over spliced in. */
    method FileAppend(dest: string, src: string, at: nat, size: nat, copy: Copying) returns (result: FileError)
      requires dest != src
      modifies this`files
      ensures (files, result) == Append(old(AsDisk()), dest, src, at, size, copy)
    {
      assert dest in files ==> files == files[dest := files[dest]];
      if dest !in files || !copy.opens {
        return ErrorOpen;
      }
      if !copy.seeks {
        return ErrorSeek;
      }
      result := CopyLoop(dest, src, at, size, copy, files[dest], Content(AsDisk(), src));
    }

    /** `s3_postprocess_create`. */
    method PostprocessCreate(key: string, dest: string, temp: string, append: bool, size: nat, hash: seq<byte>,
                             calls: Outcomes) returns (ok: bool)
      requires dest != temp
      modifies this`files, this`rows
      ensures (AsDisk(), ok) == PostCreate(old(AsDisk()), key, dest, temp, append, size, hash, calls)
    {
      ok := true;
      var found := Found(AsDisk(), calls.look, key, dest);
      if append && found.Some? {
        var ignored := FileAppend(dest, temp, |found.value|, size, calls.copy);
      } else {
        files := Renamed(files, dest, temp, calls.rename);
        if calls.insert {
          rows := rows + [Row(key, AsInt(size), hash)];
        } else {
          ok := false;
        }
      }
    }

    /** `s3_postprocess_update`. */
    method PostprocessUpdate(dest: string, temp: string, at: nat, trim: bool, size: nat, calls: Outcomes)
      returns (ok: bool)
      requires dest != temp
      modifies this`files
      ensures (AsDisk(), ok) == PostUpdate(old(AsDisk()), dest, temp, at, trim, size, calls)
    {
      if trim && (!calls.truncate || dest !in files) {
        return false;
      }
      if trim {
        files := files[dest := Front(files[dest], at)];
      }
      var result := FileAppend(dest, temp, at, size, calls.copy);
      ok := result == FileSuccess;
    }
  }

  /** What comes of one piece, up to `next`, of a source of some length: how far it got. */
  function PieceOutcome(length: nat, written: nat, next: nat, room: Option<nat>): (FileError, nat)
  {
    if length < next then (ReadError, written)
    else if room.Some? && room.value < next then (WriteError, room.value)
    else (FileSuccess, next)
  }

  /** One more piece behind the pieces copied so far. */
  lemma PieceGrows(d: seq<byte>, at: nat, source: seq<byte>, written: nat, end: nat)
    requires written <= end <= |source|
    ensures Splice(Splice(d, at, source[..written]), at + written, source[written..end]) == Splice(d, at, source[..end])
  {
    assert source[..written] + source[written..end] == source[..end];
    SpliceOn(d, at, source[..written], source[written..end], source[..end], at + written);
  }

  /** A piece that fails ends the copy with what has been brought over by then. */
  lemma StopsAt(source: seq<byte>, size: nat, copy: Copying, written: nat, next: nat)
    requires copy.opens && copy.seeks && written <= |source| && written < next <= size && written % COPY_BUFFER == 0
    requires next == written + COPY_BUFFER || next == size < written + COPY_BUFFER
    requires copy.room.Some? ==> written <= copy.room.value
    ensures var (error, end) := PieceOutcome(|source|, written, next, copy.room);
            error != FileSuccess ==>
              end <= |source| && source[..end] == Brought(source, size, copy) && error == CopyError(source, size, copy)
  {
    if |source| < next {
      LastFullBuffer(written, |source|);
    } else if copy.room.Some? && copy.room.value < next {
      if |source| < size {
        FullBuffersReach(next, |source|, written);
      }
    }
  }

  lemma FullBuffersReach(next: nat, length: nat, written: nat)
    requires next <= length && (next == written + COPY_BUFFER && written % COPY_BUFFER == 0)
    ensures next <= length - length % COPY_BUFFER
  {
  }

  lemma EndsAt(source: seq<byte>, size: nat, copy: Copying)
    requires copy.opens && copy.seeks && size <= |source| && (copy.room.Some? ==> size <= copy.room.value)
    ensures source[..size] == Brought(source, size, copy) && CopyError(source, size, copy) == FileSuccess
  {
  }

  // ----- what the operations achieve ---------------------------------------------------------

  /** A trimmed update whose calls all work leaves the old bytes before the position and the new
      data; an untrimmed one also the old bytes after the data. */
  lemma UpdateLeaves(disk: Disk, dest: string, temp: string, at: nat, trim: bool, size: nat, calls: Outcomes)
    requires dest != temp && dest in disk.files && temp in disk.files && calls.truncate
    requires at <= |disk.files[dest]| && size == |disk.files[temp]|
    requires CopyError(disk.files[temp], size, calls.copy) == FileSuccess
    ensures var (after, ok) := PostUpdate(disk, dest, temp, at, trim, size, calls);
            var d, data := disk.files[dest], disk.files[temp];
            && ok && after.rows == disk.rows
            && after.files == disk.files[dest := d[..at] + data +
                                if trim || at + |data| > |d| then [] else d[at + |data|..]]
  {
    var d, data := disk.files[dest], disk.files[temp];
    CopySucceedsIff(data, size, calls.copy);
    assert data[..size] == data;
    if trim {
      SpliceAtEnd(d[..at], data);
      assert d[..at] + data + [] == d[..at] + data;
    } else if data == [] {
      assert d[..at] + data + d[at..] == d;
    }
  }

  /** A folder with nothing in it takes nothing along. */
  lemma BareMoves(files: map<string, seq<byte>>, dest: string, src: string)
    requires Bare(files, src)
    ensures Moved(files, dest, src) == files
  {
  }

  lemma CarriedBack(path: string, dest: string, src: string)
    requires Below(path, src)
    ensures Below(Carried(path, dest, src), dest) && src + Carried(path, dest, src)[|dest|..] == path
  {
    assert path[..|src|] == src;
    assert path[|src|] == (src + "/")[|src|];
  }

  /** Moving a folder touches nothing but what lies in it before or after, and each file in it has
      its bytes under its new name. */
  lemma MovedIs(files: map<string, seq<byte>>, dest: string, src: string)
    ensures forall path :: !Below(path, src) && !Below(path, dest) ==>
              (path in Moved(files, dest, src) <==> path in files)
              && (path in files ==> Moved(files, dest, src)[path] == files[path])
    ensures forall path :: Below(path, src) && !Below(path, dest) ==> path !in Moved(files, dest, src)
    ensures forall path :: path in files && Below(path, src) ==>
              Carried(path, dest, src) in Moved(files, dest, src)
              && Moved(files, dest, src)[Carried(path, dest, src)] == files[path]
  {
    forall path | path in files && Below(path, src)
      ensures Below(Carried(path, dest, src), dest) && src + Carried(path, dest, src)[|dest|..] == path
    {
      CarriedBack(path, dest, src);
    }
  }

  predicate SameAt(a: map<string, seq<byte>>, b: map<string, seq<byte>>, path: string)
  {
    (path in a <==> path in b) && (path in a ==> a[path] == b[path])
  }

  /** A path is the temporary one or the destination, or it lies below one of them where the
      temporary one is a folder. */
  predicate Reached(a: map<string, seq<byte>>, b: map<string, seq<byte>>, dest: string, temp: string, path: string)
  {
    || path == temp
    || (path == dest && path in b)
    || (!Bare(a, temp) && (Below(path, temp) || Below(path, dest)))
  }

  lemma RenameReaches(files: map<string, seq<byte>>, dest: string, src: string, works: bool, path: string)
    ensures var after := Renamed(files, dest, src, works);
            SameAt(files, after, path) || Reached(files, after, dest, src, path)
  {
    MovedIs(files, dest, src);
    if Bare(files, src) {
      BareMoves(files, dest, src);
    }
  }

  /** A rename that works takes a file to its new name, where it replaces what was there, and a folder only
      where no file has its new name. */
  lemma RenameIs(files: map<string, seq<byte>>, dest: string, src: string, works: bool,
                 after: map<string, seq<byte>>)
    requires after == Renamed(files, dest, src, works)
    ensures !works || (src !in files && dest in files) ==> after == files
    ensures works && src in files ==>
              && dest in after && after[dest] == files[src] && (src in after ==> src == dest)
              && forall path :: path != dest && path != src ==> SameAt(files, after, path)
    ensures works && src !in files && dest !in files ==>
              forall path :: path in files && Below(path, src) ==>
                Carried(path, dest, src) in after && after[Carried(path, dest, src)] == files[path]
  {
    MovedIs(files, dest, src);
  }

  lemma CreateReaches(disk: Disk, key: string, dest: string, temp: string, append: bool, size: nat, hash: seq<byte>,
                      calls: Outcomes, path: string)
    ensures var after := PostCreate(disk, key, dest, temp, append, size, hash, calls).0.files;
            SameAt(disk.files, after, path) || Reached(disk.files, after, dest, temp, path)
  {
    RenameReaches(disk.files, dest, temp, calls.rename, path);
  }

  lemma UpdateReaches(disk: Disk, dest: string, temp: string, at: nat, trim: bool, size: nat, calls: Outcomes,
                      path: string)
    ensures var after := PostUpdate(disk, dest, temp, at, trim, size, calls).0.files;
            SameAt(disk.files, after, path) || Reached(disk.files, after, dest, temp, path)
  {
  }

  lemma MovedMakesNoFile(files: map<string, seq<byte>>, dest: string, src: string)
    requires dest !in files
    ensures dest !in Moved(files, dest, src)
  {
    forall path | path in files && Below(path, src)
      ensures Carried(path, dest, src) != dest
    {
      CarriedBack(path, dest, src);
    }
  }
}

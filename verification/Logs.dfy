/** The packets that a run of the server puts on record: the run stores what they store, one after
    the other in the order of their records, whatever else goes on at the same time. */
module Logs {
  import opened Effects
  import opened Exchanges
  import opened FileStore
  import opened Headers
  import opened Permissions
  import opened Protocol
  import opened Servers
  import opened Wire

  /** A packet on record, with its body, what lay under its temporary name at the end, the digest, and
      the outcomes of the calls it made. */
  datatype Entry = Entry(packet: Exchange, body: seq<byte>, temp: Option<seq<byte>>, hash: seq<byte>, env: Env)

  /** What an entry does to a disk. */
  function Apply(d: Disk, x: Entry): Disk
  {
    if Accepted(x.packet.acts) then Effect(x.env, d, x.packet.request, x.temp, x.hash).0 else d
  }

  /** The packet that a step puts on record, if it does. */
  function Recorded(cfg: Config, srv: Hub, e: ServerEvent): seq<Entry>
  {
    if !e.Readable? || e.fd !in srv.conns || Fatal(cfg, srv, e) then []
    else
      var c, t := srv.conns[e.fd], Afterwards(cfg, srv, e);
      if |t.conn.done| <= |c.done| then []
      else
        var packet := t.conn.done[|c.done|];
        var body := BodyAt(c.input, UsedBy(c.done), packet.request.info);
        [Entry(packet, body, LeftBy(cfg, srv.world.disk, packet.request, packet.inFile, body),
               HashAfter(cfg, c.hash, packet.inFile, body), cfg.env(srv.world.ticks))]
  }

  /** The packets that a run puts on record, in the order it does. */
  function Log(cfg: Config, srv: Hub, events: seq<ServerEvent>): seq<Entry>
    decreases events
  {
    if events == [] then []
    else Recorded(cfg, srv, events[0])
         + match ServerStep(cfg, srv, events[0])
           case Down(_) => []
           case Up(next) => Log(cfg, next, events[1..])
  }

  /** The packets of a log, one after the other. */
  function Replay(d: Disk, log: seq<Entry>): Disk
    decreases log
  {
    if log == [] then d else Replay(Apply(d, log[0]), log[1..])
  }

  lemma LastDiskStored(cfg: Config, srv: Hub, e: ServerEvent)
    requires AllSound(srv) && Fatal(cfg, srv, e)
    ensures SameStored(cfg, srv.world.disk, LastDisk(cfg, srv, e))
  {
    if e.Readable? && !Exits(srv.conns[e.fd]) {
      var s := State(srv.conns[e.fd], srv.world);
      ReadKeepsStored(cfg, s, TakenNow(s.conn, e.cuts), AfterReads(cfg, s, e.cuts));
    }
  }

  /** A step does to what is stored exactly what the packet it records does, and if that one
      writes, its last response tells whether there was an error. */
  lemma StepTakes(cfg: Config, srv: Hub, e: ServerEvent)
    requires Distinct(cfg) && ServerInv(cfg, srv) && TameStep(cfg, srv, e)
    ensures SameStored(cfg, Replay(srv.world.disk, Recorded(cfg, srv, e)), ServerStep(cfg, srv, e).DiskOf())
    ensures forall x :: x in Recorded(cfg, srv, e) ==>
              && Took(cfg, x.env, srv.world.disk, x.packet, x.body, x.hash, ServerStep(cfg, srv, e).DiskOf())
              && x.temp == LeftBy(cfg, srv.world.disk, x.packet.request, x.packet.inFile, x.body)
  {
    if Fatal(cfg, srv, e) {
      LastDiskStored(cfg, srv, e);
    } else if e.fd in srv.conns && e.HungUp? {
      ResetKeepsStored(cfg, srv.world.disk, State(srv.conns[e.fd], srv.world));
    } else if e.fd in srv.conns && e.Readable? {
      EventTakes(cfg, State(srv.conns[e.fd], srv.world), e.cuts, Afterwards(cfg, srv, e));
      RecordTakes(cfg, srv, e, srv.conns[e.fd], Afterwards(cfg, srv, e));
    }
  }

  /** The record of an event, as an entry of the log. */
  lemma RecordTakes(cfg: Config, srv: Hub, e: ServerEvent, c: Conn, t: State)
    requires e.Readable? && e.fd in srv.conns && !Fatal(cfg, srv, e) && c == srv.conns[e.fd]
    requires t == Afterwards(cfg, srv, e) && EventTook(cfg, State(c, srv.world), t)
    ensures SameStored(cfg, Replay(srv.world.disk, Recorded(cfg, srv, e)), t.world.disk)
    ensures forall x :: x in Recorded(cfg, srv, e) ==>
              && Took(cfg, x.env, srv.world.disk, x.packet, x.body, x.hash, t.world.disk)
              && x.temp == LeftBy(cfg, srv.world.disk, x.packet.request, x.packet.inFile, x.body)
  {
    if t.conn.done != c.done {
      var x := Recorded(cfg, srv, e)[0];
      assert Recorded(cfg, srv, e) == [x] && [x][1..] == [];
      assert Replay(srv.world.disk, [x]) == Apply(srv.world.disk, x);
    }
  }

  /** No accepted packet of the log writes to a temporary file. */
  ghost predicate RealLog(cfg: Config, log: seq<Entry>)
  {
    forall x :: x in log && Accepted(x.packet.acts) && WritesFile(x.packet.request.action) ==>
      IsReal(cfg, x.packet.request.dest)
  }

  lemma {:induction false} ReplayRespects(cfg: Config, a: Disk, b: Disk, log: seq<Entry>)
    requires SameStored(cfg, a, b) && RealLog(cfg, log)
    ensures SameStored(cfg, Replay(a, log), Replay(b, log))
    decreases log
  {
    if log != [] {
      var x := log[0];
      assert x in log && forall y :: y in log[1..] ==> y in log;
      if Accepted(x.packet.acts) {
        EffectRespects(cfg, x.env, a, b, x.packet.request, x.temp, x.hash);
      }
      ReplayRespects(cfg, Apply(a, x), Apply(b, x), log[1..]);
    }
  }

  lemma {:induction false} ReplayInParts(d: Disk, a: seq<Entry>, b: seq<Entry>)
    ensures Replay(d, a + b) == Replay(Replay(d, a), b)
    decreases a
  {
    if a == [] {
      assert a + b == b;
    } else {
      assert (a + b)[0] == a[0] && (a + b)[1..] == a[1..] + b;
      ReplayInParts(Apply(d, a[0]), a[1..], b);
    }
  }

  lemma RealStep(cfg: Config, srv: Hub, e: ServerEvent)
    requires Distinct(cfg) && ServerInv(cfg, srv) && TameStep(cfg, srv, e)
    ensures RealLog(cfg, Recorded(cfg, srv, e))
  {
    StepTakes(cfg, srv, e);
  }

  lemma RealLogs(cfg: Config, a: seq<Entry>, b: seq<Entry>)
    requires RealLog(cfg, a) && RealLog(cfg, b)
    ensures RealLog(cfg, a + b)
  {
  }

  /** Every run, whatever its connections do at the same time, stores what its recorded packets
      store one after the other, in the order in which they were finished. */
  lemma {:induction false} RunIsReplay(cfg: Config, srv: Hub, events: seq<ServerEvent>)
    requires Distinct(cfg) && ServerInv(cfg, srv) && TameRun(cfg, srv, events)
    ensures RealLog(cfg, Log(cfg, srv, events))
    ensures SameStored(cfg, Replay(srv.world.disk, Log(cfg, srv, events)), RunServer(cfg, srv, events).DiskOf())
    decreases events
  {
    if events != [] {
      var first, step := Recorded(cfg, srv, events[0]), ServerStep(cfg, srv, events[0]);
      StepTakes(cfg, srv, events[0]);
      StepKeepsInv(cfg, srv, events[0]);
      RealStep(cfg, srv, events[0]);
      match step {
        case Down(_) =>
          assert first + [] == first;
        case Up(next) =>
          var rest := Log(cfg, next, events[1..]);
          RunIsReplay(cfg, next, events[1..]);
          RealLogs(cfg, first, rest);
          ReplayInParts(srv.world.disk, first, rest);
          ReplayRespects(cfg, Replay(srv.world.disk, first), next.world.disk, rest);
          StoredTwice(cfg, Replay(srv.world.disk, first + rest), Replay(next.world.disk, rest),
                      RunServer(cfg, next, events[1..]).DiskOf());
      }
    }
  }

  // ----- what a log leaves alone -------------------------------------------------------------

  /** A packet touches no file but the one it names. */
  lemma ApplyTouches(d: Disk, x: Entry, path: string)
    requires !WritesTo(x, path)
    ensures SameAt(d.files, Apply(d, x).files, path)
  {
  }

  /** Rows as they were, without those of a key, or with one more of that key. */
  ghost predicate RowsDiffer(rows: seq<Row>, rows': seq<Row>, key: string)
  {
    rows' == rows || rows' == WithoutRows(rows, key) || exists row: Row :: row.name == key && rows' == rows + [row]
  }

  lemma ApplyDiffers(d: Disk, x: Entry)
    ensures RowsDiffer(d.rows, Apply(d, x).rows, KeyOf(x.packet.request))
  {
    var row := Row(KeyOf(x.packet.request), AsInt(x.packet.request.info.dataLength), StoredHash(x.hash));
    assert row.name == KeyOf(x.packet.request);
  }

  lemma OtherRowsStay(rows: seq<Row>, rows': seq<Row>, key: string)
    requires RowsDiffer(rows, rows', key)
    ensures WithoutRows(rows', key) == WithoutRows(rows, key)
  {
    if rows' == WithoutRows(rows, key) {
      WithoutRowsTwice(rows, key);
    } else if rows' != rows {
      var row: Row :| row.name == key && rows' == rows + [row];
      WithoutRowsSnoc(rows, row, key);
    }
  }

  /** And it touches no rows but those of its key. */
  lemma RowsOfOthersStay(d: Disk, x: Entry)
    ensures WithoutRows(Apply(d, x).rows, KeyOf(x.packet.request)) == WithoutRows(d.rows, KeyOf(x.packet.request))
  {
    ApplyDiffers(d, x);
    OtherRowsStay(d.rows, Apply(d, x).rows, KeyOf(x.packet.request));
  }

  lemma WithoutRowsSnoc(rows: seq<Row>, row: Row, key: string)
    requires row.name == key
    ensures WithoutRows(rows + [row], key) == WithoutRows(rows, key)
  {
    assert (rows + [row])[..|rows|] == rows;
  }

  lemma {:induction false} WithoutRowsTwice(rows: seq<Row>, key: string)
    ensures WithoutRows(WithoutRows(rows, key), key) == WithoutRows(rows, key)
  {
    if rows != [] {
      var init, last := rows[..|rows| - 1], rows[|rows| - 1];
      WithoutRowsTwice(init, key);
      if last.name != key {
        assert (WithoutRows(init, key) + [last])[..|WithoutRows(init, key)|] == WithoutRows(init, key);
      }
    }
  }

  predicate WritesTo(x: Entry, path: string)
  {
    Accepted(x.packet.acts) && WritesFile(x.packet.request.action) && x.packet.request.dest == path
  }

  /** A step touches no stored file but the one that the packet it records writes to, and no rows but
      those of its key; a step that records nothing, or a refusal, touches nothing. */
  lemma StepTouchesOnlyNamed(cfg: Config, srv: Hub, e: ServerEvent, path: string)
    requires Distinct(cfg) && ServerInv(cfg, srv) && TameStep(cfg, srv, e) && IsReal(cfg, path)
    requires NoneWrites(Recorded(cfg, srv, e), path)
    ensures SameAt(srv.world.disk.files, ServerStep(cfg, srv, e).DiskOf().files, path)
    ensures forall x :: x in Recorded(cfg, srv, e) ==>
              WithoutRows(ServerStep(cfg, srv, e).DiskOf().rows, KeyOf(x.packet.request))
              == WithoutRows(srv.world.disk.rows, KeyOf(x.packet.request))
    ensures Recorded(cfg, srv, e) == [] ==> ServerStep(cfg, srv, e).DiskOf().rows == srv.world.disk.rows
  {
    var d, log, after := srv.world.disk, Recorded(cfg, srv, e), ServerStep(cfg, srv, e).DiskOf();
    StepTakes(cfg, srv, e);
    assert SameAt(Replay(d, log).files, after.files, path);
    if log != [] {
      assert log == [log[0]] && Replay(d, log) == Apply(d, log[0]);
      assert log[0] in log;
      RowsOfOthersStay(d, log[0]);
      ApplyTouches(d, log[0], path);
    }
  }

  predicate NoneWrites(log: seq<Entry>, path: string)
  {
    forall x :: x in log ==> !WritesTo(x, path)
  }

  lemma {:induction false} NoWriterNoChange(d: Disk, log: seq<Entry>, path: string)
    requires NoneWrites(log, path)
    ensures SameAt(d.files, Replay(d, log).files, path)
    decreases log
  {
    if log != [] {
      assert log[0] in log && forall y :: y in log[1..] ==> y in log;
      NoWriterNoChange(Apply(d, log[0]), log[1..], path);
    }
  }

  lemma {:induction false} ReplayKeepsFiles(d: Disk, log: seq<Entry>, path: string)
    requires path in d.files
    ensures path in Replay(d, log).files
    decreases log
  {
    if log != [] {
      ReplayKeepsFiles(Apply(d, log[0]), log[1..], path);
    }
  }

  /** No run loses a stored file, whatever it does to its bytes and its rows. */
  lemma StoredFilesStay(cfg: Config, srv: Hub, events: seq<ServerEvent>, path: string)
    requires Distinct(cfg) && ServerInv(cfg, srv) && TameRun(cfg, srv, events) && IsReal(cfg, path)
    requires path in srv.world.disk.files
    ensures path in RunServer(cfg, srv, events).DiskOf().files
  {
    var d, log := srv.world.disk, Log(cfg, srv, events);
    RunIsReplay(cfg, srv, events);
    ReplayKeepsFiles(d, log, path);
    assert SameAt(Replay(d, log).files, RunServer(cfg, srv, events).DiskOf().files, path);
  }

  // ----- appends -----------------------------------------------------------------------------

  predicate Concerns(x: Entry, key: string, path: string)
  {
    WritesTo(x, path) || (Accepted(x.packet.acts) && x.packet.request.action.Delete? && KeyOf(x.packet.request) == key)
  }

  /** An accepted append to a file, which found it when its body was complete. */
  predicate Appends(x: Entry, key: string, path: string)
  {
    var r := x.packet.request;
    Accepted(x.packet.acts) && r.action.Create? && r.append && r.dest == path && r.key == Some(key)
    && x.env.end.look.works
  }

  /** Of the accepted packets of the log, those that concern a file or its key are appends to it. */
  predicate OnlyAppends(log: seq<Entry>, key: string, path: string)
  {
    forall x :: x in log && Concerns(x, key, path) ==> Appends(x, key, path)
  }

  /** What an append adds: what its copy brings over from under its temporary name. */
  function Piece(x: Entry): seq<byte>
  {
    Brought(ValueOr(x.temp), x.packet.request.info.dataLength, x.env.end.copy)
  }

  /** The calls of an append do all of their work. */
  predicate CopiesAll(x: Entry, lands: nat -> bool)
  {
    var copy := x.env.end.copy;
    copy.opens && copy.seeks && (copy.room.Some? ==> |x.body| <= copy.room.value) && AllLand(lands, 0, |x.body|)
  }

  /** An append whose body went to a file adds all of it if and only if every byte landed there and
      the copy opened, sought and wrote without a failure, or there was nothing to add. */
  lemma PieceIsBodyIff(x: Entry, lands: nat -> bool)
    requires x.packet.request.info.dataLength == |x.body| && x.temp == Some(Landed(lands, 0, x.body))
    ensures Piece(x) == x.body <==> x.body == [] || CopiesAll(x, lands)
  {
    LandedAllIff(lands, 0, x.body);
  }

  /** The pieces of the appends of a log, in its order. */
  function Appended(log: seq<Entry>, key: string, path: string): seq<byte>
    decreases log
  {
    if log == [] then []
    else (if Appends(log[0], key, path) then Piece(log[0]) else []) + Appended(log[1..], key, path)
  }

  lemma ApplyAppends(d: Disk, x: Entry, key: string, path: string)
    requires FileExists(d, key, path) && (Concerns(x, key, path) ==> Appends(x, key, path))
    ensures FileExists(Apply(d, x), key, path)
    ensures Apply(d, x).files[path] == d.files[path] + if Appends(x, key, path) then Piece(x) else []
  {
    var row :| row in d.rows && row.name == key;
    assert row in Apply(d, x).rows;
    assert d.files[path] + [] == d.files[path];
  }

  lemma {:induction false} ReplayAppends(d: Disk, log: seq<Entry>, key: string, path: string)
    requires FileExists(d, key, path) && OnlyAppends(log, key, path)
    ensures FileExists(Replay(d, log), key, path)
    ensures Replay(d, log).files[path] == d.files[path] + Appended(log, key, path)
    decreases log
  {
    if log == [] {
      assert d.files[path] + [] == d.files[path];
    } else {
      assert log[0] in log && forall y :: y in log[1..] ==> y in log;
      var next, piece := Apply(d, log[0]), if Appends(log[0], key, path) then Piece(log[0]) else [];
      ApplyAppends(d, log[0], key, path);
      ReplayAppends(next, log[1..], key, path);
      Regroup(d.files[path], piece, Appended(log[1..], key, path));
    }
  }

  lemma Regroup(a: seq<byte>, b: seq<byte>, c: seq<byte>)
    ensures (a + b) + c == a + (b + c)
  {
  }

  /** However uploads to an existing file are interleaved with each other and with anything else,
      as long as only appends concern it, a run leaves its bytes followed by what the appends bring
      over, in the order of their records. */
  lemma AppendsInCompletionOrder(cfg: Config, srv: Hub, events: seq<ServerEvent>, key: string, path: string)
    requires Distinct(cfg) && ServerInv(cfg, srv) && TameRun(cfg, srv, events) && IsReal(cfg, path)
    requires FileExists(srv.world.disk, key, path) && OnlyAppends(Log(cfg, srv, events), key, path)
    ensures var after := RunServer(cfg, srv, events).DiskOf();
            && path in after.files
            && after.files[path] == srv.world.disk.files[path] + Appended(Log(cfg, srv, events), key, path)
  {
    var d, log := srv.world.disk, Log(cfg, srv, events);
    RunIsReplay(cfg, srv, events);
    ReplayAppends(d, log, key, path);
    assert SameAt(Replay(d, log).files, RunServer(cfg, srv, events).DiskOf().files, path);
  }

  /** The bodies of the appends of a log, in its order. */
  function Bodies(log: seq<Entry>, key: string, path: string): seq<byte>
    decreases log
  {
    if log == [] then []
    else (if Appends(log[0], key, path) then log[0].body else []) + Bodies(log[1..], key, path)
  }

  /** Where every append adds all of its body, those are the bodies. */
  lemma {:induction false} WholeAppends(log: seq<Entry>, key: string, path: string)
    requires forall x :: x in log && Appends(x, key, path) ==> Piece(x) == x.body
    ensures Appended(log, key, path) == Bodies(log, key, path)
    decreases log
  {
    if log != [] {
      assert log[0] in log && forall y :: y in log[1..] ==> y in log;
      WholeAppends(log[1..], key, path);
    }
  }
}

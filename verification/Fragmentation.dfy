/** A run does not depend on how the byte stream was cut into events and reads. */
module Fragmentation {
  import opened Exchanges
  import opened FileStore
  import opened Headers
  import opened Network
  import opened Protocol
  import opened Wire

  /** No phase is complete without its callback having run. */
  predicate Settled(c: Conn)
  {
    c.open ==> c.index != c.length
  }

  /** The callback that is still due. Only a headers phase of length zero leaves one over: its
      callback runs at the next event, whatever that brings, unless it ends the process. */
  function Settle(cfg: Config, s: State): State
  {
    if Settled(s.conn) || !HasRequest(s.conn) || CallbackDies(cfg, s) then s else Dispatch(cfg, s)
  }

  /** A state between two events. */
  ghost predicate Between(s: State)
  {
    Sound(s.conn) && (!Settled(s.conn) ==> s.conn.phase.HeadersRead?)
  }

  // ----- repeated steps ----------------------------------------------------------------------

  /** A step, repeated until it has been done `n` times or gets stuck. */
  function Iterate<S>(step: S -> Option<S>, s: S, n: nat): S
  {
    if n == 0 then s
    else match step(s)
         case None => s
         case Some(t) => Iterate(step, t, n - 1)
  }

  lemma {:induction false} IterateSplit<S>(step: S -> Option<S>, s: S, m: nat, n: nat)
    ensures Iterate(step, s, m + n) == Iterate(step, Iterate(step, s, m), n)
  {
    if m > 0 && step(s).Some? {
      IterateSplit(step, step(s).value, m - 1, n);
    }
  }

  lemma IterateSticks<S>(step: S -> Option<S>, s: S, n: nat, more: nat, t: S)
    requires n <= more && Iterate(step, s, n) == t && step(t) == None
    ensures Iterate(step, s, more) == t
  {
    IterateSplit(step, s, n, more - n);
  }

  /** From `s` to `t` the system has done, up to settling, as many steps as its position moved. */
  ghost predicate Follows<S(!new)>(settle: S -> S, step: S -> Option<S>, position: S -> nat, s: S, t: S)
  {
    position(s) <= position(t) && settle(t) == Iterate(step, settle(s), position(t) - position(s))
  }

  lemma FollowsOn<S(!new)>(settle: S -> S, step: S -> Option<S>, position: S -> nat, s: S, t: S, r: S)
    requires Follows(settle, step, position, s, t) && Follows(settle, step, position, t, r)
    ensures Follows(settle, step, position, s, r)
  {
    IterateSplit(step, settle(s), position(t) - position(s), position(r) - position(t));
  }

  lemma FollowsMore<S(!new)>(settle: S -> S, step: S -> Option<S>, position: S -> nat, s: S, t: S, r: S)
    requires Follows(settle, step, position, s, t) && Follows(settle, step, position, s, r)
    requires position(t) <= position(r)
    ensures Follows(settle, step, position, t, r)
  {
    IterateSplit(step, settle(s), position(t) - position(s), position(r) - position(t));
  }

  // ----- reading in pieces -------------------------------------------------------------------

  lemma ReadNothing(cfg: Config, s: State)
    requires s.conn.consumed <= |s.conn.input|
    ensures ReadSome(cfg, s, 0) == s
  {
  }

  /** Reading `m` and then `k` bytes is reading both at once: the file, the hash context and the
      memory do not tell the difference. */
  lemma ReadTwice(cfg: Config, s: State, m: nat, t: State, k: nat, total: nat)
    requires total == m + k && s.conn.consumed + total <= |s.conn.input|
    requires m > 0 && k > 0 && s.conn.index + total <= s.conn.length
    requires t == ReadSome(cfg, s, m)
    ensures ReadSome(cfg, t, k) == ReadSome(cfg, s, total)
  {
    var c, i, j := s.conn, s.conn.consumed, t.conn.consumed;
    var a, b, both := c.input[i..i + m], t.conn.input[j..j + k], c.input[i..i + total];
    SliceTwice(c.input, i, j, i + total, j + k, a, b, both);
    var u, v := ReadSome(cfg, t, k), ReadSome(cfg, s, total);
    ReadAs(cfg, s, m, a, t);
    ReadAs(cfg, t, k, b, u);
    ReadAs(cfg, s, total, both, v);
    AddTwice(cfg, s, a, t, b, both, u, v);
  }

  lemma ReadAs(cfg: Config, s: State, n: nat, bs: seq<byte>, t: State)
    requires s.conn.consumed + n <= |s.conn.input| && bs == s.conn.input[s.conn.consumed..s.conn.consumed + n]
    requires t == ReadSome(cfg, s, n)
    ensures t == AddBytes(cfg, s, bs)
  {
  }

  lemma AddTwice(cfg: Config, s: State, a: seq<byte>, t: State, b: seq<byte>, both: seq<byte>, u: State, v: State)
    requires t == AddBytes(cfg, s, a) && u == AddBytes(cfg, t, b) && v == AddBytes(cfg, s, both)
    requires a != [] && b != [] && s.conn.index + |a| + |b| <= s.conn.length && both == a + b
    ensures u == v
  {
    assert both != [];
    ConnTwice(cfg, s.conn, a, t.conn, b, both);
    DiskTwice(cfg, s.conn, s.world.disk, a, t.conn, b, both);
  }

  lemma ConnTwice(cfg: Config, c: Conn, a: seq<byte>, c': Conn, b: seq<byte>, both: seq<byte>)
    requires c' == WithBytes(cfg, c, a) && a != [] && b != [] && c.index + |a| + |b| <= c.length && both == a + b
    ensures WithBytes(cfg, c', b) == WithBytes(cfg, c, both)
  {
    if !c.fileOpen {
      assert c.got + a + b == c.got + both;
    } else {
      var h: seq<byte> := if c.index == 0 then [] else c.hashed;
      assert h + a + b == h + both;
    }
  }

  lemma DiskTwice(cfg: Config, c: Conn, disk: Disk, a: seq<byte>, c': Conn, b: seq<byte>, both: seq<byte>)
    requires c' == WithBytes(cfg, c, a) && both == a + b
    ensures DiskWith(cfg, c', DiskWith(cfg, c, disk, a), b) == DiskWith(cfg, c, disk, both)
  {
    if c.fileOpen && c.request.Some? && c.request.value.ticket.Some? {
      var n := c.request.value.ticket.value;
      FileTwice(disk, cfg.names.temp(n), cfg.lands(n), c.index, a, c'.index, b, both);
    }
  }

  lemma FileTwice(disk: Disk, path: string, lands: nat -> bool, at: nat, a: seq<byte>, next: nat, b: seq<byte>,
                  both: seq<byte>)
    requires next == at + |a| && both == a + b
    ensures FileWith(FileWith(disk, path, lands, at, a), path, lands, next, b) == FileWith(disk, path, lands, at, both)
  {
    LandedAppend(lands, at, a, next, b, both);
    var d, x, y := Content(disk, path), Landed(lands, at, a), Landed(lands, next, b);
    assert d + x + y == d + (x + y);
    assert disk.files[path := d + x][path := d + x + y] == disk.files[path := d + x + y];
  }

  // ----- byte by byte ------------------------------------------------------------------------

  /** One byte at a time, every due callback at once: the reference that knows nothing of events
      and cuts. It is stuck at a closed connection and where the process ends. */
  function FeedOne(cfg: Config, s: State): Option<State>
  {
    if !CanRead(s.conn) || !Settled(s.conn) || !Running(s.conn) || s.conn.consumed == |s.conn.input| then None
    else if Dies(cfg, ReadSome(cfg, s, 1)) then None
    else Some(Settle(cfg, AfterRead(cfg, ReadSome(cfg, s, 1))))
  }

  predicate CanRead(c: Conn)
  {
    c.open && !Exits(c)
  }

  function FeederOf(cfg: Config): State -> Option<State>
  {
    s => FeedOne(cfg, s)
  }

  function SettlerOf(cfg: Config): State -> State
  {
    s => Settle(cfg, s)
  }

  function Consumed(s: State): nat
  {
    s.conn.consumed
  }

  function Feed(cfg: Config, s: State, n: nat): State
  {
    Iterate(FeederOf(cfg), s, n)
  }

  /** Within one phase, feeding byte by byte is reading in one go. */
  lemma {:induction false} FeedPhase(cfg: Config, s: State, n: nat)
    requires Running(s.conn) && CanRead(s.conn) && n > 0
    requires s.conn.index + n <= s.conn.length && s.conn.consumed + n <= |s.conn.input|
    requires !Dies(cfg, ReadSome(cfg, s, n))
    ensures Feed(cfg, s, n) == Settle(cfg, AfterRead(cfg, ReadSome(cfg, s, n)))
    decreases n
  {
    if n > 1 {
      var s1 := ReadSome(cfg, s, 1);
      ByteIsFed(cfg, s, n, s1);
      FeedPhase(cfg, s1, n - 1);
    }
  }

  /** The first of several bytes of a phase. */
  lemma ByteIsFed(cfg: Config, s: State, n: nat, s1: State)
    requires Running(s.conn) && CanRead(s.conn) && n > 1
    requires s.conn.index + n <= s.conn.length && s.conn.consumed + n <= |s.conn.input|
    requires s1 == ReadSome(cfg, s, 1)
    ensures FeedOne(cfg, s) == Some(s1) && Running(s1.conn) && CanRead(s1.conn)
    ensures s1.conn.consumed == s.conn.consumed + 1 && s1.conn.index + (n - 1) <= s1.conn.length
    ensures s1.conn.consumed + (n - 1) <= |s1.conn.input|
    ensures ReadSome(cfg, s1, n - 1) == ReadSome(cfg, s, n)
  {
    ReadKeepsReading(cfg, s, 1);
    ReadTwice(cfg, s, 1, s1, n - 1, n);
  }

  lemma ReadKeepsReading(cfg: Config, s: State, n: nat)
    requires Running(s.conn) && s.conn.index + n <= s.conn.length && s.conn.consumed + n <= |s.conn.input|
    ensures Running(ReadSome(cfg, s, n).conn)
    ensures CanRead(ReadSome(cfg, s, n).conn) == CanRead(s.conn)
  {
  }

  // ----- the callback that may be left over --------------------------------------------------

  /** After any callback but that of the magic word, the next phase has bytes to wait for. */
  lemma DispatchSettles(cfg: Config, s: State)
    requires Sound(s.conn) && s.conn.open && s.conn.index == s.conn.length && !s.conn.phase.MagicRead?
    ensures Settled(Dispatch(cfg, s).conn)
  {
    DispatchIsSound(cfg, s);
    OneRecordPerPacket(cfg, s);
  }

  lemma DispatchIsBetween(cfg: Config, s: State)
    requires Sound(s.conn) && s.conn.open && s.conn.index == s.conn.length
    ensures Between(Dispatch(cfg, s))
  {
    DispatchIsSound(cfg, s);
    if !s.conn.phase.MagicRead? {
      DispatchSettles(cfg, s);
    } else {
      MagicLeads(cfg, s);
    }
  }

  lemma MagicLeads(cfg: Config, s: State)
    requires s.conn.phase.MagicRead? && s.conn.open
    ensures Dispatch(cfg, s).conn.open ==> Dispatch(cfg, s).conn.phase.HeadersRead?
  {
  }

  lemma DispatchKeepsStream(cfg: Config, s: State)
    requires Sound(s.conn)
    ensures SameStream(s.conn, Dispatch(cfg, s).conn)
  {
    OneRecordPerPacket(cfg, s);
  }

  // ----- events and runs ---------------------------------------------------------------------

  /** From `s` to `s'` the bytes that `s'` has consumed more have been fed. */
  ghost predicate Fed(cfg: Config, s: State, s': State)
  {
    && s.conn.consumed <= s'.conn.consumed
    && Settle(cfg, s') == Feed(cfg, Settle(cfg, s), s'.conn.consumed - s.conn.consumed)
  }

  ghost predicate Feeds(cfg: Config, s: State, s': State)
  {
    Between(s') && Fed(cfg, s, s')
  }

  lemma DueEventFeeds(cfg: Config, s: State, cuts: seq<nat>)
    requires Between(s) && s.conn.open && !Settled(s.conn) && !Ends(cfg, s, cuts)
    ensures Event(cfg, s, cuts) == Dispatch(cfg, s) && Feeds(cfg, s, Dispatch(cfg, s))
  {
    ReadNothing(cfg, s);
    DueCallbackRuns(cfg, s);
  }

  lemma ReadingEventFeeds(cfg: Config, s: State, n: nat)
    requires Between(s) && s.conn.open && Settled(s.conn) && CanRead(s.conn) && n > 0
    requires s.conn.index + n <= s.conn.length && s.conn.consumed + n <= |s.conn.input|
    requires !Dies(cfg, ReadSome(cfg, s, n))
    ensures Feeds(cfg, s, AfterRead(cfg, ReadSome(cfg, s, n)))
  {
    FeedPhase(cfg, s, n);
    ReadSomeIsSound(cfg, s, n);
    AfterReadIsBetween(cfg, ReadSome(cfg, s, n));
  }

  /** An event, followed by the callback it may leave over, feeds the bytes it took. */
  lemma EventFeeds(cfg: Config, s: State, cuts: seq<nat>)
    requires Between(s) && !Ends(cfg, s, cuts)
    ensures Feeds(cfg, s, Event(cfg, s, cuts))
  {
    if !s.conn.open {
    } else if !Settled(s.conn) {
      DueEventFeeds(cfg, s, cuts);
    } else if TakenNow(s.conn, cuts) == 0 {
      ReadNothing(cfg, s);
    } else {
      ReadingEventFeeds(cfg, s, TakenNow(s.conn, cuts));
    }
  }

  lemma DueCallbackRuns(cfg: Config, s: State)
    requires Between(s) && !Settled(s.conn)
    ensures Between(Dispatch(cfg, s)) && Settled(Dispatch(cfg, s).conn)
    ensures SameStream(s.conn, Dispatch(cfg, s).conn)
  {
    DispatchIsBetween(cfg, s);
    DispatchSettles(cfg, s);
    DispatchKeepsStream(cfg, s);
  }

  lemma AfterReadIsBetween(cfg: Config, s: State)
    requires Sound(s.conn) && s.conn.open
    ensures Between(AfterRead(cfg, s)) && SameStream(s.conn, AfterRead(cfg, s).conn)
  {
    if s.conn.index == s.conn.length {
      DispatchIsBetween(cfg, s);
      DispatchKeepsStream(cfg, s);
    }
  }

  /** Readable events one after the other; nothing is left of a run that ends the process. */
  function Run(cfg: Config, s: State, events: seq<seq<nat>>): Option<State>
    decreases events
  {
    if events == [] then Some(s)
    else if Ends(cfg, s, events[0]) then None
    else Run(cfg, Event(cfg, s, events[0]), events[1..])
  }

  lemma FedIsFollows(cfg: Config, s: State, t: State)
    ensures Fed(cfg, s, t) <==> Follows(SettlerOf(cfg), FeederOf(cfg), Consumed, s, t)
  {
  }

  lemma FedOn(cfg: Config, s: State, t: State, r: State)
    requires Fed(cfg, s, t) && Fed(cfg, t, r)
    ensures Fed(cfg, s, r)
  {
    FedIsFollows(cfg, s, t);
    FedIsFollows(cfg, t, r);
    FollowsOn(SettlerOf(cfg), FeederOf(cfg), Consumed, s, t, r);
    FedIsFollows(cfg, s, r);
  }

  lemma FedMore(cfg: Config, s: State, t: State, r: State)
    requires Fed(cfg, s, t) && Fed(cfg, s, r) && t.conn.consumed <= r.conn.consumed
    ensures Fed(cfg, t, r)
  {
    FedIsFollows(cfg, s, t);
    FedIsFollows(cfg, s, r);
    FollowsMore(SettlerOf(cfg), FeederOf(cfg), Consumed, s, t, r);
    FedIsFollows(cfg, t, r);
  }

  /** A run keeps every promise about packets, and feeds the bytes it took. */
  lemma {:induction false} RunFeeds(cfg: Config, s: State, events: seq<seq<nat>>)
    requires Between(s) && Run(cfg, s, events).Some?
    ensures Feeds(cfg, s, Run(cfg, s, events).value)
    decreases events
  {
    if events != [] {
      EventFeeds(cfg, s, events[0]);
      RunFeeds(cfg, Event(cfg, s, events[0]), events[1..]);
      FedOn(cfg, s, Event(cfg, s, events[0]), Run(cfg, s, events).value);
    }
  }

  /** However the stream was cut, two runs that have consumed the same bytes end in the same
      state: phase, request, file contents, hash, responses and records, all of it. */
  lemma FragmentationDoesNotMatter(cfg: Config, s: State, events: seq<seq<nat>>, others: seq<seq<nat>>, t: State,
                                   r: State)
    requires Between(s)
    requires Run(cfg, s, events) == Some(t) && Run(cfg, s, others) == Some(r)
    requires t.conn.consumed == r.conn.consumed
    ensures Settle(cfg, t) == Settle(cfg, r)
  {
    RunFeeds(cfg, s, events);
    RunFeeds(cfg, s, others);
    FedMore(cfg, s, t, r);
  }

  /** So the cuts do not decide either whether the process ends before a read: where it does in one
      run, it does in every run that has consumed the same bytes, at the next event or the one after. */
  lemma CutsDoNotDecideTheEnd(cfg: Config, s: State, events: seq<seq<nat>>, others: seq<seq<nat>>, t: State, r: State)
    requires Between(s)
    requires Run(cfg, s, events) == Some(t) && Run(cfg, s, others) == Some(r)
    requires t.conn.consumed == r.conn.consumed
    ensures Exits(t.conn) ==> Exits(Settle(cfg, r).conn)
  {
    FragmentationDoesNotMatter(cfg, s, events, others, t, r);
    RunFeeds(cfg, s, events);
    if Exits(t.conn) {
      ExitsIff(t.conn);
      assert Settled(t.conn);
    }
  }

  lemma SettleKeepsConsumed(cfg: Config, s: State)
    requires Between(s)
    ensures Settle(cfg, s).conn.consumed == s.conn.consumed
  {
    DispatchKeepsStream(cfg, s);
  }

  lemma LastByteIsNotFed(cfg: Config, s: State)
    requires Running(s.conn) && s.conn.consumed < |s.conn.input| && Dies(cfg, ReadSome(cfg, s, 1))
    ensures FeederOf(cfg)(s) == None
  {
  }

  lemma FedPart(cfg: Config, s: State, n: nat)
    requires Running(s.conn) && CanRead(s.conn) && n > 0
    requires s.conn.index + n < s.conn.length && s.conn.consumed + n <= |s.conn.input|
    ensures Feed(cfg, s, n) == ReadSome(cfg, s, n)
  {
    FeedPhase(cfg, s, n);
  }

  lemma StuckBefore(cfg: Config, s: State, n: nat, t: State)
    requires Running(s.conn) && CanRead(s.conn) && n > 1 && s.conn.consumed + n <= |s.conn.input|
    requires s.conn.index + n == s.conn.length && Dies(cfg, ReadSome(cfg, s, n)) && t == ReadSome(cfg, s, n - 1)
    ensures Feed(cfg, s, n - 1) == t && FeederOf(cfg)(t) == None && t.conn.consumed == s.conn.consumed + n - 1
  {
    FedPart(cfg, s, n - 1);
    ReadKeepsReading(cfg, s, n - 1);
    ReadTwice(cfg, s, n - 1, t, 1, n);
    LastByteIsNotFed(cfg, t);
  }

  /** Feeding gets stuck in front of the last byte of a phase whose callback ends the process. */
  lemma FeedSticks(cfg: Config, s: State, n: nat, more: nat)
    requires Running(s.conn) && CanRead(s.conn) && n > 0
    requires s.conn.index + n <= s.conn.length && s.conn.consumed + n <= |s.conn.input|
    requires Dies(cfg, ReadSome(cfg, s, n))
    ensures Feed(cfg, s, more).conn.consumed < s.conn.consumed + n
  {
    if 0 < more < n {
      FedPart(cfg, s, more);
    } else if more > 0 && n == 1 {
      LastByteIsNotFed(cfg, s);
    } else if more > 0 {
      StuckBefore(cfg, s, n, ReadSome(cfg, s, n - 1));
      IterateSticks(FeederOf(cfg), s, n - 1, more, ReadSome(cfg, s, n - 1));
    }
  }

  /** And nowhere does it get past a state whose next event ends the process. */
  lemma FeedStaysBehind(cfg: Config, s: State, cuts: seq<nat>, more: nat)
    requires Between(s) && Ends(cfg, s, cuts)
    ensures Feed(cfg, Settle(cfg, s), more).conn.consumed <= s.conn.consumed + TakenNow(s.conn, cuts)
  {
    if !Exits(s.conn) {
      var n := TakenNow(s.conn, cuts);
      if n == 0 {
        ReadNothing(cfg, s);
      } else {
        FeedSticks(cfg, s, n, more);
      }
    } else if s.conn.open {
      ExitsIff(s.conn);
    }
  }

  lemma FedIs(cfg: Config, t: State, r: State, more: nat, f: State, g: State)
    requires Fed(cfg, t, r) && more == r.conn.consumed - t.conn.consumed
    requires f == Feed(cfg, Settle(cfg, t), more) && g == Settle(cfg, r)
    ensures f == g
  {
  }

  lemma FedStaysBehind(cfg: Config, t: State, cuts: seq<nat>, r: State, bound: nat, more: nat)
    requires Between(t) && Ends(cfg, t, cuts) && Between(r) && Fed(cfg, t, r)
    requires bound == t.conn.consumed + TakenNow(t.conn, cuts) && more == r.conn.consumed - t.conn.consumed
    ensures r.conn.consumed <= bound
  {
    var f, g := Feed(cfg, Settle(cfg, t), more), Settle(cfg, r);
    SettleKeepsConsumed(cfg, r);
    FeedStaysBehind(cfg, t, cuts, more);
    FedIs(cfg, t, r, more, f, g);
  }

  /** Nor does it help a client to cut its stream in another way: where the process ends in one run,
      no run that the process survives has consumed more. */
  lemma NoRunGetsPastTheEnd(cfg: Config, s: State, events: seq<seq<nat>>, cuts: seq<nat>, others: seq<seq<nat>>,
                            t: State, r: State)
    requires Between(s) && Run(cfg, s, events) == Some(t) && Ends(cfg, t, cuts) && Run(cfg, s, others) == Some(r)
    ensures Between(t) && r.conn.consumed <= t.conn.consumed + TakenNow(t.conn, cuts)
  {
    RunFeeds(cfg, s, events);
    RunFeeds(cfg, s, others);
    if t.conn.consumed < r.conn.consumed {
      FedMore(cfg, s, t, r);
      FedStaysBehind(cfg, t, cuts, r, t.conn.consumed + TakenNow(t.conn, cuts), r.conn.consumed - t.conn.consumed);
    }
  }
}

/** The path normaliser: a buffer that is rewound through a stack of positions, against a plain
    fold over the components of the path. */
module Paths {
  import opened Bits

  // ----- the reference: a fold over components -----------------------------------------------

  function FirstSlash(s: string): (i: nat)
    ensures i <= |s|
    ensures forall j :: 0 <= j < i ==> s[j] != '/'
    ensures i < |s| ==> s[i] == '/'
  {
    if s == "" || s[0] == '/' then 0 else 1 + FirstSlash(s[1..])
  }

  /** The components that a slash follows. */
  function Dirs(s: string): seq<string>
  {
    var i := FirstSlash(s);
    if i == |s| then [] else [s[..i]] + Dirs(s[i + 1..])
  }

  /** What comes after the last slash; it is taken as it is, even when it is `..`. */
  function FileName(s: string): string
  {
    var i := FirstSlash(s);
    if i == |s| then s else FileName(s[i + 1..])
  }

  function Enter(stack: seq<string>, dir: string): seq<string>
  {
    if dir == "" || dir == "." then stack
    else if dir == ".." then if stack == [] then [] else stack[..|stack| - 1]
    else stack + [dir]
  }

  function Walk(stack: seq<string>, dirs: seq<string>): seq<string>
    decreases dirs
  {
    if dirs == [] then stack else Walk(Enter(stack, dirs[0]), dirs[1..])
  }

  function Join(stack: seq<string>): string
  {
    if stack == [] then "" else Join(stack[..|stack| - 1]) + stack[|stack| - 1] + "/"
  }

  function Prefix(path: string, home: string): string
  {
    if path != "" && path[0] == '/' then "/"
    else if path != "" && path[0] == '~' then home + "/"
    else ""
  }

  function Rest(path: string): string
  {
    if path != "" && (path[0] == '/' || path[0] == '~') then path[1..] else path
  }

  /** Starting from the prefix, empty and `.` directories are dropped, `..` leaves a directory
      but never the prefix, and the last component is appended untouched. */
  function Normalize(path: string, home: string): string
  {
    Prefix(path, home) + Join(Walk([], Dirs(Rest(path)))) + FileName(Rest(path))
  }

  // ----- the rewinding buffer ----------------------------------------------------------------

  /** `path_alloc_memory`, for elements of `width` bytes and `spare` elements on top. */
  method Reserve<T(0)>(src: array<T>, currentSize: nat, index: nat, size: nat, width: nat, spare: nat)
    returns (dst: array<T>, newSize: nat)
    requires width == 1 || width == 2
    requires src.Length == currentSize / width + spare
    requires index <= currentSize && currentSize > 0
    ensures newSize == if currentSize <= index + size then currentSize * 2 + size else currentSize
    ensures index + size < newSize && currentSize <= newSize
    ensures dst.Length == newSize / width + spare
    ensures dst == src || fresh(dst)
    ensures dst[..index / width] == src[..index / width]
  {
    if currentSize <= index + size {
      newSize := currentSize * 2 + size;
      assert index / width <= currentSize / width <= newSize / width;
      dst := new T[newSize / width + spare];
      forall i | 0 <= i < src.Length {
        dst[i] := src[i];
      }
      assert forall i :: 0 <= i < index / width ==> dst[i] == src[i];
    } else {
      dst, newSize := src, currentSize;
    }
  }

  method Copy(dst: array<char>, at: nat, s: string)
    requires at + |s| <= dst.Length
    modifies dst
    ensures dst[..at] == old(dst[..at])
    ensures dst[..at + |s|] == old(dst[..at]) + s
  {
    forall i | 0 <= i < |s| {
      dst[at + i] := s[i];
    }
  }

  /** The position stack: the start of every directory on the stack, above the sentinel as long
      as that has not been popped. */
  ghost predicate Positions(positions: seq<int>, sentinel: bool, prefix: nat, stack: seq<string>)
  {
    var s := if sentinel then 1 else 0;
    && |positions| == s + |stack|
    && (sentinel ==> positions[0] == prefix)
    && forall i :: 0 <= i < |stack| ==> positions[s + i] == prefix + |Join(stack[..i])|
  }

  lemma JoinSnoc(stack: seq<string>, dir: string)
    ensures Join(stack + [dir]) == Join(stack) + dir + "/"
  {
    assert (stack + [dir])[..|stack|] == stack;
  }

  lemma PositionsPush(positions: seq<int>, sentinel: bool, prefix: nat, stack: seq<string>, dir: string)
    requires Positions(positions, sentinel, prefix, stack)
    ensures Positions(positions + [prefix + |Join(stack)|], sentinel, prefix, stack + [dir])
  {
    forall i | 0 <= i < |stack| + 1
      ensures (stack + [dir])[..i] == stack[..i]
    {
    }
    assert stack[..|stack|] == stack;
  }

  lemma PositionsPop(positions: seq<int>, sentinel: bool, prefix: nat, stack: seq<string>)
    requires Positions(positions, sentinel, prefix, stack) && stack != []
    ensures Positions(positions[..|positions| - 1], sentinel, prefix, stack[..|stack| - 1])
    ensures positions[|positions| - 1] == prefix + |Join(stack[..|stack| - 1])|
  {
    var rest := stack[..|stack| - 1];
    forall i | 0 <= i < |rest|
      ensures rest[..i] == stack[..i]
    {
    }
  }

  /** Walking on from `stack`, one slash at a time, ends at `last` with file name `name`. */
  ghost predicate LeadsTo(stack: seq<string>, tail: string, last: seq<string>, name: string)
    decreases |tail|
  {
    var i := FirstSlash(tail);
    if i == |tail| then stack == last && tail == name
    else LeadsTo(Enter(stack, tail[..i]), tail[i + 1..], last, name)
  }

  /** What the two buffers hold: the text so far and the saved positions. */
  datatype Written = Written(text: string, saved: seq<int>) {
    /** Ignore the directory, rewind to the last position, or append and save its start. */
    function EnterDir(dir: string): (w: Written)
      ensures |w.text| <= |text| + |dir| + 1 && |w.saved| <= |saved| + 1
    {
      if dir == "" || dir == "." then this
      else if dir == ".." then
        if saved == [] then this
        else
          var last := saved[|saved| - 1];
          Written(text[..if 0 <= last <= |text| then last else 0], saved[..|saved| - 1])
      else Written(text + dir + "/", saved + [|text|])
    }
  }

  predicate Rewindable(w: Written)
  {
    w.saved != [] ==> 0 <= w.saved[|w.saved| - 1] <= |w.text|
  }

  /** The buffers hold `stack`, with the sentinel still below it or popped. */
  ghost predicate Shows(w: Written, prefix: string, sentinel: bool, stack: seq<string>)
  {
    w.text == prefix + Join(stack) && Positions(w.saved, sentinel, |prefix|, stack)
  }

  lemma WalkCons(stack: seq<string>, dir: string, dirs: seq<string>)
    ensures Walk(stack, [dir] + dirs) == Walk(Enter(stack, dir), dirs)
  {
    assert ([dir] + dirs)[1..] == dirs;
  }

  lemma {:induction false} LeadsToWalk(stack: seq<string>, tail: string)
    ensures LeadsTo(stack, tail, Walk(stack, Dirs(tail)), FileName(tail))
    decreases |tail|
  {
    var i := FirstSlash(tail);
    if i < |tail| {
      var dir, rest := tail[..i], tail[i + 1..];
      assert Dirs(tail) == [dir] + Dirs(rest) && FileName(tail) == FileName(rest);
      WalkCons(stack, dir, Dirs(rest));
      LeadsToWalk(Enter(stack, dir), rest);
    }
  }

  lemma ShowsStart(prefix: string)
    ensures Shows(Written(prefix, [|prefix|]), prefix, true, [])
  {
  }

  lemma ShowsPop(w: Written, prefix: string, sentinel: bool, stack: seq<string>)
    requires Shows(w, prefix, sentinel, stack)
    ensures Rewindable(w)
    ensures Shows(w.EnterDir(".."), prefix, sentinel && stack != [], Enter(stack, ".."))
  {
    if stack != [] {
      PositionsPop(w.saved, sentinel, |prefix|, stack);
      var rest := stack[..|stack| - 1];
      assert w.text[..|prefix| + |Join(rest)|] == prefix + Join(rest);
    }
  }

  lemma ShowsPush(w: Written, prefix: string, sentinel: bool, stack: seq<string>, dir: string)
    requires Shows(w, prefix, sentinel, stack)
    requires dir != "" && dir != "." && dir != ".."
    ensures Shows(w.EnterDir(dir), prefix, sentinel, Enter(stack, dir))
  {
    PositionsPush(w.saved, sentinel, |prefix|, stack, dir);
    calc {
      w.text + dir + "/";
      prefix + Join(stack) + dir + "/";
      prefix + (Join(stack) + dir + "/");
      { JoinSnoc(stack, dir); }
      prefix + Join(stack + [dir]);
    }
  }

  /** One turn on the buffers is one step of the fold, also after the sentinel is gone. */
  lemma ShowsStep(w: Written, prefix: string, sentinel: bool, stack: seq<string>, dir: string)
    requires Shows(w, prefix, sentinel, stack)
    ensures Shows(w.EnterDir(dir), prefix, sentinel && (dir == ".." ==> stack != []), Enter(stack, dir))
  {
    if dir == ".." {
      ShowsPop(w, prefix, sentinel, stack);
    } else if dir != "" && dir != "." {
      ShowsPush(w, prefix, sentinel, stack, dir);
    }
  }

  /** The loop invariant: the buffers hold `stack`, and from it the rest of the path leads to
      the result of the fold. */
  ghost predicate Turning(w: Written, prefix: string, tail: string, sentinel: bool, stack: seq<string>,
                          last: seq<string>, name: string)
  {
    Shows(w, prefix, sentinel, stack) && LeadsTo(stack, tail, last, name)
  }

  lemma TurnKeeps(w: Written, prefix: string, tail: string, i: nat, sentinel: bool, stack: seq<string>,
             last: seq<string>, name: string) returns (sentinel': bool, stack': seq<string>)
    requires Turning(w, prefix, tail, sentinel, stack, last, name)
    requires i == FirstSlash(tail) < |tail|
    ensures Rewindable(w)
    ensures Turning(w.EnterDir(tail[..i]), prefix, tail[i + 1..], sentinel', stack', last, name)
  {
    var dir := tail[..i];
    ShowsPop(w, prefix, sentinel, stack);
    ShowsStep(w, prefix, sentinel, stack, dir);
    sentinel', stack' := sentinel && (dir == ".." ==> stack != []), Enter(stack, dir);
  }

  lemma TurnsEnd(w: Written, prefix: string, tail: string, sentinel: bool, stack: seq<string>,
                 last: seq<string>, name: string)
    requires Turning(w, prefix, tail, sentinel, stack, last, name)
    requires FirstSlash(tail) == |tail|
    ensures w.text + tail == prefix + Join(last) + name
  {
  }

  /** The two buffers of the normaliser with the capacities it keeps for them. */
  class Buffers {
    var newPath: array<char>
    var pathSize: nat
    var positions: array<int>
    var positionsSize: nat
    var index: short
    var positionCount: short

    /** Every index is inside the tracked capacity; one byte is spare for the terminator. */
    ghost predicate Valid()
      reads this
    {
      && newPath.Length == pathSize + 1 && 256 <= pathSize
      && positions.Length == positionsSize / 2 && 256 <= positionsSize
      && 0 <= index <= pathSize
      && 0 <= positionCount && 2 * positionCount <= positionsSize
    }

    ghost function Text(): string
      reads this, newPath
      requires Valid()
    {
      newPath[..index]
    }

    ghost function Saved(): seq<int>
      reads this, positions
      requires Valid()
    {
      positions[..positionCount]
    }

    constructor ()
      ensures Valid() && fresh(newPath) && fresh(positions)
      ensures Text() == "" && Saved() == []
    {
      pathSize, positionsSize := 256, 256;
      newPath := new char[257];
      positions := new int[128];
      index, positionCount := 0, 0;
    }

    /** Reserves room for `text` and the slash after it and appends both. */
    method AppendDir(text: string)
      requires Valid() && index + |text| + 1 < 0x8000
      modifies this, newPath
      ensures Valid() && (newPath == old(newPath) || fresh(newPath))
      ensures positions == old(positions) && positionCount == old(positionCount)
      ensures Text() == old(Text()) + text + "/"
    {
      newPath, pathSize := Reserve(newPath, pathSize, index, |text|, 1, 1);
      Copy(newPath, index, text);
      newPath[index + |text|] := '/';
      index := index + |text| + 1;
    }

    method Push(position: short)
      requires Valid() && positionCount + 1 < 0x8000
      modifies this, positions
      ensures Valid() && (positions == old(positions) || fresh(positions))
      ensures newPath == old(newPath) && index == old(index)
      ensures Saved() == old(Saved()) + [position]
    {
      positions, positionsSize := Reserve(positions, positionsSize, positionCount * 2, 2, 2, 0);
      positions[positionCount] := position;
      positionCount := positionCount + 1;
    }

    method Pop()
      requires Valid() && Saved() != []
      requires 0 <= Saved()[|Saved()| - 1] <= index
      modifies this
      ensures Valid() && newPath == old(newPath) && positions == old(positions)
      ensures Saved() == old(Saved()[..|Saved()| - 1])
      ensures Text() == old(Text()[..Saved()[|Saved()| - 1]])
    {
      positionCount := positionCount - 1;
      index := positions[positionCount];
    }

    /** The prefix and the sentinel below the position stack. */
    method Start(path: string, home: string) returns (k: nat)
      requires Valid() && Text() == "" && Saved() == []
      requires |home| + 1 < 0x8000
      modifies this, newPath, positions
      ensures Valid()
      ensures newPath == old(newPath) || fresh(newPath)
      ensures positions == old(positions) || fresh(positions)
      ensures Text() == Prefix(path, home) && Saved() == [|Prefix(path, home)|]
      ensures k <= |path| && k <= 1 && path[k..] == Rest(path)
    {
      k := 0;
      if path != "" && path[0] == '/' {
        newPath[0] := '/';
        k, index := 1, 1;
      } else if path != "" && path[0] == '~' {
        AppendDir(home);
        k := 1;
      }
      assert Text() == Prefix(path, home);
      Push(index);
    }

    /** One turn of the loop. */
    method EnterDir(dir: string)
      requires Valid() && index + |dir| + 1 < 0x8000 && positionCount + 1 < 0x8000
      requires Rewindable(Written(Text(), Saved()))
      modifies this, newPath, positions
      ensures Valid()
      ensures newPath == old(newPath) || fresh(newPath)
      ensures positions == old(positions) || fresh(positions)
      ensures Written(Text(), Saved()) == old(Written(Text(), Saved())).EnterDir(dir)
    {
      if |dir| == 1 && dir[0] == '.' {
        assert dir == ".";
      } else if |dir| == 2 && dir[0] == '.' && dir[1] == '.' {
        assert dir == "..";
        if positionCount > 0 {
          Pop();
        }
      } else if |dir| > 0 {
        var start := index;
        AppendDir(dir);
        Push(start);
      }
    }

    /** The copy of the file name and the terminator. */
    method Finish(fileName: string) returns (result: string)
      requires Valid() && index + |fileName| < 0x8000
      modifies this, newPath
      ensures result == old(Text()) + fileName
    {
      if |fileName| > 0 {
        newPath, pathSize := Reserve(newPath, pathSize, index, |fileName|, 1, 1);
        Copy(newPath, index, fileName);
        index := index + |fileName|;
      }
      newPath[index] := '\0';
      result := newPath[..index];
    }
  }

  /** The loop body: the directory up to the next slash is taken into the buffers. */
  method Turn(b: Buffers, path: string, k: nat, ghost prefix: string, ghost sentinel: bool,
              ghost stack: seq<string>, ghost last: seq<string>, ghost name: string)
    returns (k': nat, ghost sentinel': bool, ghost stack': seq<string>)
    requires k <= |path| && b.Valid() && FirstSlash(path[k..]) < |path[k..]|
    requires Turning(Written(b.Text(), b.Saved()), prefix, path[k..], sentinel, stack, last, name)
    requires b.index + |path| - k < 0x8000 && b.positionCount + |path| - k < 0x8000
    modifies b, b.newPath, b.positions
    ensures b.Valid()
    ensures b.newPath == old(b.newPath) || fresh(b.newPath)
    ensures b.positions == old(b.positions) || fresh(b.positions)
    ensures k < k' <= |path|
    ensures Turning(Written(b.Text(), b.Saved()), prefix, path[k'..], sentinel', stack', last, name)
    ensures b.index <= old(b.index) + k' - k && b.positionCount <= old(b.positionCount) + k' - k
  {
    var length: short := FirstSlash(path[k..]);
    var dir := path[k..][..length];
    ghost var w, tail := Written(b.Text(), b.Saved()), path[k..];
    sentinel', stack' := TurnKeeps(w, prefix, tail, length, sentinel, stack, last, name);
    b.EnterDir(dir);
    assert |b.Text()| <= |w.text| + length + 1 && |b.Saved()| <= |w.saved| + 1;
    k' := k + length + 1;
    assert tail[length + 1..] == path[k'..];
  }

  /** `path_validate_and_expand`. Every store is inside the capacity tracked for its buffer, and
      `index` stays a `short`, because the whole text fits in one. */
  method ValidateAndExpand(path: string, home: string) returns (result: string)
    requires |path| + |home| + 1 < 0x8000
    ensures result == Normalize(path, home)
  {
    var b := new Buffers();
    var k := b.Start(path, home);
    ghost var prefix, rest := Prefix(path, home), Rest(path);
    ghost var last, name := Walk([], Dirs(rest)), FileName(rest);
    ghost var sentinel, stack: seq<string> := true, [];
    ShowsStart(prefix);
    LeadsToWalk(stack, rest);
    while FirstSlash(path[k..]) < |path[k..]|
      invariant k <= |path| && b.Valid() && fresh(b) && fresh(b.newPath) && fresh(b.positions)
      invariant Turning(Written(b.Text(), b.Saved()), prefix, path[k..], sentinel, stack, last, name)
      invariant b.index <= |home| + 1 + k && b.positionCount <= k + 1
      decreases |path| - k
    {
      k, sentinel, stack := Turn(b, path, k, prefix, sentinel, stack, last, name);
    }
    TurnsEnd(Written(b.Text(), b.Saved()), prefix, path[k..], sentinel, stack, last, name);
    result := b.Finish(path[k..]);
  }
}

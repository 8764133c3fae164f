/** Laws of the path normaliser: when it is idempotent, how it treats a path below a base
    directory, and when the result stays below that base. */
module PathAlgebra {
  import opened Paths

  predicate NoSlash(s: string)
  {
    forall i :: 0 <= i < |s| ==> s[i] != '/'
  }

  predicate SlashFree(dirs: seq<string>)
  {
    forall i :: 0 <= i < |dirs| ==> NoSlash(dirs[i])
  }

  /** A component that normalising keeps. */
  predicate Kept(dir: string)
  {
    dir != "" && dir != "." && dir != ".." && NoSlash(dir)
  }

  predicate AllKept(stack: seq<string>)
  {
    forall i :: 0 <= i < |stack| ==> Kept(stack[i])
  }

  /** Nothing, or text that ends with a slash. */
  predicate Closed(s: string)
  {
    s == "" || s[|s| - 1] == '/'
  }

  lemma {:induction false} WalkKeeps(stack: seq<string>, dirs: seq<string>)
    requires AllKept(stack) && SlashFree(dirs)
    ensures AllKept(Walk(stack, dirs))
    decreases dirs
  {
    if dirs != [] {
      WalkKeeps(Enter(stack, dirs[0]), dirs[1..]);
    }
  }

  lemma {:induction false} WalkAppend(stack: seq<string>, a: seq<string>, b: seq<string>)
    ensures Walk(stack, a + b) == Walk(Walk(stack, a), b)
    decreases a
  {
    if a == [] {
      assert a + b == b;
    } else {
      assert (a + b)[1..] == a[1..] + b;
      WalkAppend(Enter(stack, a[0]), a[1..], b);
    }
  }

  lemma {:induction false} WalkOverKept(stack: seq<string>, dirs: seq<string>)
    requires AllKept(dirs)
    ensures Walk(stack, dirs) == stack + dirs
    decreases dirs
  {
    if dirs != [] {
      WalkOverKept(stack + [dirs[0]], dirs[1..]);
      assert stack + [dirs[0]] + dirs[1..] == stack + dirs;
    }
  }

  // ----- splitting and joining ---------------------------------------------------------------

  lemma FirstSlashIs(s: string, i: nat)
    requires i < |s| && s[i] == '/' && NoSlash(s[..i])
    ensures FirstSlash(s) == i
  {
    var before := s[..i];
    assert forall j :: 0 <= j < i ==> before[j] == s[j];
  }

  lemma SplitCons(dir: string, tail: string)
    requires NoSlash(dir)
    ensures Dirs(dir + "/" + tail) == [dir] + Dirs(tail)
    ensures FileName(dir + "/" + tail) == FileName(tail)
  {
    var s := dir + "/" + tail;
    assert s[..|dir|] == dir && s[|dir| + 1..] == tail;
    FirstSlashIs(s, |dir|);
  }

  lemma {:induction false} SplitPlain(s: string)
    requires NoSlash(s)
    ensures Dirs(s) == [] && FileName(s) == s
  {
  }

  /** Every text is a slash-free piece, alone or followed by a slash and a shorter text. */
  lemma CutFirst(s: string) returns (dir: string, tail: string)
    requires FirstSlash(s) < |s|
    ensures NoSlash(dir) && s == dir + "/" + tail && |tail| < |s|
    ensures Closed(s) ==> Closed(tail)
  {
    var i := FirstSlash(s);
    dir, tail := s[..i], s[i + 1..];
  }

  lemma {:induction false} SplitIsSlashFree(s: string)
    ensures SlashFree(Dirs(s)) && NoSlash(FileName(s))
    decreases |s|
  {
    if FirstSlash(s) < |s| {
      var dir, tail := CutFirst(s);
      SplitCons(dir, tail);
      SplitIsSlashFree(tail);
    } else {
      SplitPlain(s);
    }
  }

  lemma Regroup(dir: string, tail: string, b: string)
    ensures dir + "/" + tail + b == dir + "/" + (tail + b)
  {
  }

  lemma RegroupDirs(dir: string, a: seq<string>, b: seq<string>)
    ensures [dir] + a + b == [dir] + (a + b)
  {
  }

  /** Splitting is compositional at a slash. */
  lemma {:induction false} SplitAppend(a: string, b: string)
    requires Closed(a)
    ensures Dirs(a + b) == Dirs(a) + Dirs(b)
    ensures FileName(a + b) == FileName(b)
    decreases |a|
  {
    if a == "" {
      assert a + b == b;
      assert Dirs(a) + Dirs(b) == Dirs(b);
    } else {
      assert FirstSlash(a) < |a|;
      var dir, tail := CutFirst(a);
      SplitAppend(tail, b);
      calc {
        Dirs(a + b);
        { Regroup(dir, tail, b); SplitCons(dir, tail + b); }
        [dir] + Dirs(tail + b);
        { RegroupDirs(dir, Dirs(tail), Dirs(b)); }
        [dir] + Dirs(tail) + Dirs(b);
        { SplitCons(dir, tail); }
        Dirs(a) + Dirs(b);
      }
      assert FileName(a + b) == FileName(b) by {
        Regroup(dir, tail, b);
        SplitCons(dir, tail + b);
      }
    }
  }

  lemma {:induction false} ClosedHasNoName(a: string)
    requires Closed(a)
    ensures FileName(a) == ""
  {
    SplitAppend(a, "");
    assert a + "" == a;
  }

  lemma JoinCloses(stack: seq<string>)
    ensures Closed(Join(stack))
  {
  }

  lemma {:induction false} JoinAppend(a: seq<string>, b: seq<string>)
    ensures Join(a + b) == Join(a) + Join(b)
    decreases |b|
  {
    if b == [] {
      assert a + b == a;
    } else {
      var c, d := b[..|b| - 1], b[|b| - 1];
      JoinAppend(a, c);
      JoinSnoc(a + c, d);
      assert a + b == (a + c) + [d];
      assert Join(a) + Join(c) + d + "/" == Join(a) + (Join(c) + d + "/");
    }
  }

  lemma {:induction false} SplitJoinDirs(stack: seq<string>)
    requires SlashFree(stack)
    ensures Dirs(Join(stack)) == stack
  {
    if stack != [] {
      var init, dir := stack[..|stack| - 1], stack[|stack| - 1];
      SplitJoinDirs(init);
      JoinCloses(init);
      SplitAppend(Join(init), dir + "/");
      SplitCons(dir, "");
      assert dir + "/" + "" == dir + "/";
      assert Join(init) + dir + "/" == Join(init) + (dir + "/");
      assert init + [dir] == stack;
    }
  }

  /** Splitting takes a joined stack and a file name apart again. */
  lemma SplitJoin(stack: seq<string>, name: string)
    requires SlashFree(stack) && NoSlash(name)
    ensures Dirs(Join(stack) + name) == stack && FileName(Join(stack) + name) == name
  {
    SplitJoinDirs(stack);
    JoinCloses(stack);
    SplitAppend(Join(stack), name);
    SplitPlain(name);
  }

  // ----- idempotence -------------------------------------------------------------------------

  /** The text that normalising puts after the prefix. */
  function Body(rest: string): string
  {
    Join(Walk([], Dirs(rest))) + FileName(rest)
  }

  lemma NormalizeIs(path: string, home: string)
    ensures Normalize(path, home) == Prefix(path, home) + Body(Rest(path))
  {
    var j, f := Join(Walk([], Dirs(Rest(path)))), FileName(Rest(path));
    assert Prefix(path, home) + j + f == Prefix(path, home) + (j + f);
  }

  lemma BodySplits(rest: string)
    ensures AllKept(Walk([], Dirs(rest)))
    ensures Dirs(Body(rest)) == Walk([], Dirs(rest)) && FileName(Body(rest)) == FileName(rest)
  {
    SplitIsSlashFree(rest);
    WalkKeeps([], Dirs(rest));
    SplitJoin(Walk([], Dirs(rest)), FileName(rest));
  }

  lemma BodyTwice(rest: string)
    ensures Body(Body(rest)) == Body(rest)
  {
    var stack := Walk([], Dirs(rest));
    BodySplits(rest);
    WalkOverKept([], stack);
    assert [] + stack == stack;
  }

  lemma LeadingSlash(s: string)
    requires s != "" && s[0] == '/'
    ensures Dirs(s) != [] && Dirs(s)[0] == ""
  {
    SplitCons("", s[1..]);
    assert "" + "/" + s[1..] == s;
  }

  lemma BodyStartsWithoutSlash(rest: string)
    ensures Body(rest) != "" ==> Body(rest)[0] != '/'
  {
    BodySplits(rest);
    if Body(rest) != "" && Body(rest)[0] == '/' {
      LeadingSlash(Body(rest));
    }
  }

  lemma JoinAppendName(a: seq<string>, b: seq<string>, name: string)
    ensures Join(a + b) + name == Join(a) + (Join(b) + name)
  {
    JoinAppend(a, b);
  }

  /** What a slash-terminated text in front of a body does to it. */
  lemma BodyAppend(base: string, rest: string)
    requires Closed(base)
    ensures Body(base + Body(rest)) == Body(base) + Body(rest)
  {
    var top, stack, name := Walk([], Dirs(base)), Walk([], Dirs(rest)), FileName(rest);
    BodySplits(rest);
    SplitAppend(base, Body(rest));
    WalkAppend([], Dirs(base), stack);
    WalkOverKept(top, stack);
    ClosedHasNoName(base);
    JoinAppendName(top, stack, name);
    assert Join(top) + "" == Join(top);
  }

  lemma SuffixCancels(a: string, b: string, s: string)
    ensures a + s == b + s <==> a == b
  {
    if a + s == b + s {
      assert a == (a + s)[..|a|] && b == (b + s)[..|b|];
    }
  }

  lemma AbsoluteForm(text: string, home: string)
    ensures Normalize("/" + text, home) == "/" + Body(text)
  {
    NormalizeIs("/" + text, home);
    assert ("/" + text)[1..] == text;
  }

  lemma TildeTwiceIff(rest: string, home: string)
    requires home != "" && home[0] == '/'
    ensures Normalize(home + "/" + Body(rest), home) == home + "/" + Body(rest) <==>
            Normalize(home + "/", home) == home + "/"
  {
    var base, body := home[1..] + "/", Body(rest);
    assert home + "/" == "/" + base;
    AbsoluteForm(base, home);
    AbsoluteForm(base + body, home);
    BodyAppend(base, rest);
    Associate("/", base, body);
    Associate("/", Body(base), body);
    SuffixCancels("/" + Body(base), home + "/", body);
  }

  lemma Associate(a: string, b: string, c: string)
    ensures a + (b + c) == (a + b) + c
  {
  }

  /** The first component that is left of a path: a directory, or the file name if all are gone. */
  function FirstLeft(path: string): string
  {
    var stack := Walk([], Dirs(path));
    if stack != [] then stack[0] else FileName(path)
  }

  predicate StartsWithTilde(s: string)
  {
    s != "" && s[0] == '~'
  }

  lemma {:induction false} JoinStartsWithFirst(stack: seq<string>)
    requires stack != [] && stack[0] != ""
    ensures Join(stack) != "" && Join(stack)[0] == stack[0][0]
  {
    if |stack| > 1 {
      JoinStartsWithFirst(stack[..|stack| - 1]);
    }
  }

  lemma BodyStartsWithFirst(path: string)
    ensures StartsWithTilde(Body(path)) <==> StartsWithTilde(FirstLeft(path))
  {
    var stack := Walk([], Dirs(path));
    if stack != [] {
      SplitIsSlashFree(path);
      WalkKeeps([], Dirs(path));
      JoinStartsWithFirst(stack);
    }
  }

  /** Normalising a path twice is normalising it once if and only if a `~` prefix expands to a
      home that is itself normalised, and of a relative path the first component that is left does
      not start with `~`. Absolute paths always qualify. */
  lemma IdempotentIff(path: string, home: string)
    requires home != "" && home[0] == '/'
    ensures Normalize(Normalize(path, home), home) == Normalize(path, home) <==>
            if path != "" && path[0] == '~' then Normalize(home + "/", home) == home + "/"
            else (path != "" && path[0] == '/') || !StartsWithTilde(FirstLeft(path))
  {
    var rest := Rest(path);
    var body := Body(rest);
    NormalizeIs(path, home);
    if path != "" && path[0] == '/' {
      AbsoluteForm(body, home);
      BodyTwice(rest);
    } else if path != "" && path[0] == '~' {
      TildeTwiceIff(rest, home);
    } else {
      BodyStartsWithoutSlash(path);
      BodyStartsWithFirst(path);
      BodyTwice(path);
      NormalizeIs(body, home);
      assert "" + body == body;
      if body != "" && body[0] == '~' {
        assert Normalize(body, home)[0] == home[0];
      }
    }
  }

  // ----- a relative path below a base directory ----------------------------------------------

  /** The normalised name of an absolute directory. */
  function DirPath(stack: seq<string>): string
  {
    "/" + Join(stack)
  }

  lemma WalkBelow(base: seq<string>, path: string)
    requires AllKept(base)
    ensures Walk([], Dirs(Join(base) + ("/" + path))) == Walk(base, Dirs(path))
    ensures FileName(Join(base) + ("/" + path)) == FileName(path)
  {
    var tail := "/" + path;
    JoinCloses(base);
    SplitAppend(Join(base), tail);
    SplitJoinDirs(base);
    SplitCons("", path);
    assert "" + "/" + path == tail;
    WalkOverKept([], base);
    assert [] + base == base;
    WalkAppend([], base, Dirs(tail));
    WalkCons(base, "", Dirs(path));
  }

  lemma TextBelow(joined: string, path: string)
    ensures "/" + joined + "/" + path == "/" + (joined + ("/" + path))
  {
    Associate("/" + joined, "/", path);
    Associate("/", joined, "/" + path);
  }

  /** `path_concat_and_validate` under a normalised base: the fold goes on from its stack. */
  lemma ConcatContinues(base: seq<string>, path: string, home: string)
    requires AllKept(base)
    ensures Normalize(DirPath(base) + "/" + path, home) == "/" + (Join(Walk(base, Dirs(path))) + FileName(path))
  {
    var text := Join(base) + ("/" + path);
    TextBelow(Join(base), path);
    AbsoluteForm(text, home);
    WalkBelow(base, path);
  }

  /** Going through `dirs` from `depth` levels below a base never leaves that base. */
  predicate StaysBelow(dirs: seq<string>, depth: nat)
    decreases dirs
  {
    if dirs == [] then true
    else if dirs[0] == "" || dirs[0] == "." then StaysBelow(dirs[1..], depth)
    else if dirs[0] == ".." then depth > 0 && StaysBelow(dirs[1..], depth - 1)
    else StaysBelow(dirs[1..], depth + 1)
  }

  lemma {:induction false} StayingKeepsBase(base: seq<string>, stack: seq<string>, dirs: seq<string>)
    requires StaysBelow(dirs, |stack|)
    ensures Walk(base + stack, dirs) == base + Walk(stack, dirs)
    decreases dirs
  {
    if dirs != [] {
      assert Enter(base + stack, dirs[0]) == base + Enter(stack, dirs[0]);
      StayingKeepsBase(base, Enter(stack, dirs[0]), dirs[1..]);
    }
  }

  /** Once the base has been left, the walk from it stays shorter than it would have been. */
  lemma {:induction false} LeavingLosesBase(base: seq<string>, low: seq<string>, stack: seq<string>, dirs: seq<string>)
    requires base != []
    requires |low| < |base| + |stack| || (low == base + stack && !StaysBelow(dirs, |stack|))
    ensures |Walk(low, dirs)| < |base| + |Walk(stack, dirs)|
    decreases dirs
  {
    if dirs != [] {
      LeavingLosesBase(base, Enter(low, dirs[0]), Enter(stack, dirs[0]), dirs[1..]);
    }
  }

  lemma JoinInjective(a: seq<string>, b: seq<string>)
    requires AllKept(a) && AllKept(b)
    ensures Join(a) == Join(b) ==> a == b
  {
    SplitJoinDirs(a);
    SplitJoinDirs(b);
  }

  lemma SlashCancels(a: string, b: string)
    ensures "/" + a == "/" + b <==> a == b
  {
    assert ("/" + a)[1..] == a && ("/" + b)[1..] == b;
  }

  lemma BaseAndOwn(base: seq<string>, own: seq<string>, name: string)
    ensures DirPath(base) + (Join(own) + name) == "/" + (Join(base + own) + name)
  {
    JoinAppendName(base, own, name);
  }

  lemma WalksDiffer(base: seq<string>, dirs: seq<string>)
    requires base != []
    ensures Walk(base, dirs) == base + Walk([], dirs) <==> StaysBelow(dirs, 0)
  {
    assert base + [] == base;
    if StaysBelow(dirs, 0) {
      StayingKeepsBase(base, [], dirs);
    } else {
      LeavingLosesBase(base, base, [], dirs);
    }
  }

  /** A path below a base directory other than the root comes out as that base followed by the
      path's own normal form if and only if no prefix of its directories goes up more than down. */
  lemma BelowBaseIff(base: seq<string>, path: string, home: string)
    requires AllKept(base) && base != []
    ensures Normalize(DirPath(base) + "/" + path, home) == DirPath(base) + Body(path)
            <==> StaysBelow(Dirs(path), 0)
  {
    var dirs, name := Dirs(path), FileName(path);
    var below, own := Walk(base, dirs), Walk([], dirs);
    ConcatContinues(base, path, home);
    BaseAndOwn(base, own, name);
    SlashCancels(Join(below) + name, Join(base + own) + name);
    SuffixCancels(Join(below), Join(base + own), name);
    SplitIsSlashFree(path);
    WalkKeeps(base, dirs);
    WalkKeeps([], dirs);
    JoinInjective(below, base + own);
    WalksDiffer(base, dirs);
  }

  // ----- one path below another --------------------------------------------------------------

  /** A path lies in a folder, at any depth. */
  predicate Below(path: string, folder: string)
  {
    folder + "/" <= path
  }

  predicate AtOrBelow(path: string, folder: string)
  {
    path == folder || Below(path, folder)
  }

  lemma PrefixCut(p: string, q: string)
    requires q <= p
    ensures p == q + p[|q|..]
  {
  }

  lemma {:induction false} JoinOfPrefix(a: seq<string>, b: seq<string>, x: string)
    requires b <= a
    ensures Join(b) <= Join(a) + x
  {
    assert a == b + a[|b|..];
    JoinAppendName(b, a[|b|..], x);
  }

  lemma PrefixOfJoin(a: seq<string>, x: string, b: seq<string>)
    requires SlashFree(a) && NoSlash(x) && SlashFree(b) && Join(b) <= Join(a) + x
    ensures b <= a
  {
    var text := Join(a) + x;
    var tail := text[|Join(b)|..];
    PrefixCut(text, Join(b));
    JoinCloses(b);
    SplitAppend(Join(b), tail);
    SplitJoinDirs(b);
    SplitJoin(a, x);
  }

  /** A path lies below another one if and only if all components of that one come first in its
      directories. */
  lemma BelowIff(a: seq<string>, x: string, b: seq<string>, y: string, p: string, q: string)
    requires SlashFree(a) && NoSlash(x) && SlashFree(b) && NoSlash(y)
    requires p == "/" + (Join(a) + x) && q == "/" + (Join(b) + y)
    ensures Below(p, q) <==> b + [y] <= a
  {
    JoinSnoc(b, y);
    assert q + "/" == "/" + Join(b + [y]);
    SlashPrefix(Join(b + [y]), Join(a) + x);
    if b + [y] <= a {
      JoinOfPrefix(a, b + [y], x);
    }
    if Join(b + [y]) <= Join(a) + x {
      PrefixOfJoin(a, x, b + [y]);
    }
  }

  lemma SlashPrefix(a: string, b: string)
    ensures "/" + a <= "/" + b <==> a <= b
  {
    assert ("/" + a)[1..] == a && ("/" + b)[1..] == b;
    if a <= b {
      assert ("/" + b)[..1 + |a|] == "/" + b[..|a|];
    }
    if "/" + a <= "/" + b {
      assert ("/" + b)[..1 + |a|][1..] == b[..|a|];
    }
  }
}

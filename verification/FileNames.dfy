/** The names the server gives to its files: temporary files by a counter, stored files by the
    name the client sent. */
module FileNames {
  import opened Paths
  import opened PathAlgebra

  const ROOT_FOLDER := "~/s3/contents/"
  const FILES_FOLDER := ROOT_FOLDER + "files/"
  const TEMP_FOLDER := ROOT_FOLDER + "temp/"

  function Digit(d: nat): (c: char)
    requires d < 10
    ensures '0' <= c <= '9'
  {
    "0123456789"[d]
  }

  /** `%ld` for a number that is not negative. */
  function Decimal(n: nat): (s: string)
    ensures s != "" && NoSlash(s)
  {
    if n < 10 then [Digit(n)] else Decimal(n / 10) + [Digit(n % 10)]
  }

  lemma LongerThanOne(n: nat)
    requires n >= 10
    ensures |Decimal(n)| > 1
  {
    assert |Decimal(n)| == |Decimal(n / 10)| + 1;
  }

  lemma {:induction false} DecimalInjective(m: nat, n: nat)
    requires Decimal(m) == Decimal(n)
    ensures m == n
  {
    var s, t := Decimal(m), Decimal(n);
    assert s[|s| - 1] == Digit(m % 10) && t[|t| - 1] == Digit(n % 10);
    assert m % 10 == n % 10;
    if m >= 10 && n >= 10 {
      assert s[..|s| - 1] == Decimal(m / 10) && t[..|t| - 1] == Decimal(n / 10);
      DecimalInjective(m / 10, n / 10);
    } else if m >= 10 {
      LongerThanOne(m);
    } else if n >= 10 {
      LongerThanOne(n);
    }
  }

  /** The part of a value that C takes for a string. */
  function CString(s: string): (r: string)
    ensures |r| <= |s|
  {
    if s == "" || s[0] == '\0' then "" else [s[0]] + CString(s[1..])
  }

  function TempName(n: nat): (s: string)
    ensures NoSlash(s)
  {
    "file(" + Decimal(n) + ").tmp"
  }

  /** `filemgmt_set_tmp_path`: the name of the `n`-th temporary file. */
  function TempPath(n: nat, home: string): string
  {
    Normalize(TEMP_FOLDER + "/" + TempName(n), home)
  }

  /** `filemgmt_set_real_path`: the metadata key and the stored file of a client's name. */
  function KeyPath(name: string, home: string): string
  {
    Normalize(CString(name), home)
  }

  function RealPath(name: string, home: string): string
  {
    Normalize(Normalize(FILES_FOLDER, home) + "/" + CString(name), home)
  }

  /** A home directory that is absolute and already normalised. */
  predicate CleanHome(home: string)
  {
    home != "" && home[0] == '/' && Normalize(home + "/", home) == home + "/"
  }

  // ----- the two folders ---------------------------------------------------------------------

  function FolderDirs(folder: string): seq<string>
  {
    ["s3", "contents", folder]
  }

  function FolderPath(folder: string, home: string): string
  {
    home + "/" + Join(FolderDirs(folder))
  }

  lemma FolderJoins(folder: string)
    ensures Join(FolderDirs(folder)) == "s3/contents/" + folder + "/"
  {
    JoinSnoc([], "s3");
    JoinSnoc(["s3"], "contents");
    JoinSnoc(["s3", "contents"], folder);
    assert [] + ["s3"] == ["s3"] && ["s3"] + ["contents"] == ["s3", "contents"];
    assert ["s3", "contents"] + [folder] == FolderDirs(folder);
  }

  lemma FoldersAreWritten()
    ensures FILES_FOLDER == "~" + ("/" + Join(FolderDirs("files")))
    ensures TEMP_FOLDER == "~" + ("/" + Join(FolderDirs("temp")))
  {
    FolderJoins("files");
    FolderJoins("temp");
    assert ROOT_FOLDER == "~" + ("/" + "s3/contents/");
  }

  lemma TildeForm(rest: string, home: string)
    ensures Normalize("~" + rest, home) == home + "/" + Body(rest)
  {
    NormalizeIs("~" + rest, home);
    assert ("~" + rest)[1..] == rest;
  }

  /** Below `~`, directories that are kept stay, and a doubled slash changes nothing. */
  lemma FolderBody(dirs: seq<string>, tail: string, name: string)
    requires AllKept(dirs) && NoSlash(name)
    requires tail == name || tail == "/" + name
    ensures Body("/" + (Join(dirs) + tail)) == Join(dirs) + name
  {
    JoinCloses(dirs);
    SplitJoinDirs(dirs);
    SplitAppend(Join(dirs), tail);
    SplitCons("", Join(dirs) + tail);
    assert "" + "/" + (Join(dirs) + tail) == "/" + (Join(dirs) + tail);
    SplitPlain(name);
    SplitCons("", name);
    assert "" + "/" + name == "/" + name;
    WalkCons([], "", dirs + Dirs(tail));
    WalkAppend([], dirs, Dirs(tail));
    WalkOverKept([], dirs);
    assert [] + dirs == dirs;
  }

  lemma FolderDirsKept(folder: string)
    requires Kept(folder)
    ensures AllKept(FolderDirs(folder))
  {
  }

  lemma UnderFolder(dirs: seq<string>, tail: string, name: string, home: string)
    requires AllKept(dirs) && NoSlash(name)
    requires tail == name || tail == "/" + name
    ensures Normalize("~" + ("/" + (Join(dirs) + tail)), home) == home + "/" + Join(dirs) + name
  {
    TildeForm("/" + (Join(dirs) + tail), home);
    FolderBody(dirs, tail, name);
    Associate(home + "/", Join(dirs), name);
  }

  lemma RegroupFolder(folder: string, name: string)
    ensures ("~" + ("/" + folder)) + "/" + name == "~" + ("/" + (folder + ("/" + name)))
  {
  }

  lemma TempPathIs(n: nat, home: string)
    ensures TempPath(n, home) == FolderPath("temp", home) + TempName(n)
  {
    FoldersAreWritten();
    FolderDirsKept("temp");
    RegroupFolder(Join(FolderDirs("temp")), TempName(n));
    UnderFolder(FolderDirs("temp"), "/" + TempName(n), TempName(n), home);
  }

  lemma FilesFolderIs(home: string)
    ensures Normalize(FILES_FOLDER, home) == FolderPath("files", home)
  {
    FoldersAreWritten();
    FolderDirsKept("files");
    assert Join(FolderDirs("files")) + "" == Join(FolderDirs("files"));
    UnderFolder(FolderDirs("files"), "", "", home);
  }

  lemma PrefixCancels(p: string, a: string, b: string)
    ensures p + a == p + b <==> a == b
  {
    assert (p + a)[|p|..] == a && (p + b)[|p|..] == b;
  }

  /** Temporary names never repeat: the counter can be read off the name. */
  lemma TempPathsDistinct(m: nat, n: nat, home: string)
    ensures TempPath(m, home) == TempPath(n, home) <==> m == n
  {
    TempPathIs(m, home);
    TempPathIs(n, home);
    PrefixCancels(FolderPath("temp", home), TempName(m), TempName(n));
    SuffixCancels("file(" + Decimal(m), "file(" + Decimal(n), ").tmp");
    PrefixCancels("file(", Decimal(m), Decimal(n));
    if Decimal(m) == Decimal(n) {
      DecimalInjective(m, n);
    }
  }

  /** A folder of the program as a stack of directories. */
  function FolderStack(folder: string, home: string): seq<string>
  {
    Walk([], Dirs(Rest(home + "/"))) + FolderDirs(folder)
  }

  lemma CleanHomeIsDir(home: string, stack: seq<string>)
    requires CleanHome(home) && stack == Walk([], Dirs(Rest(home + "/")))
    ensures AllKept(stack) && home + "/" == DirPath(stack)
  {
    var rest := Rest(home + "/");
    SplitIsSlashFree(rest);
    WalkKeeps([], Dirs(rest));
    ClosedHasNoName(rest);
  }

  lemma FolderUnder(stack: seq<string>, dirs: seq<string>, home: string)
    requires home + "/" == DirPath(stack)
    ensures DirPath(stack + dirs) == home + "/" + Join(dirs)
  {
    JoinAppend(stack, dirs);
    Associate("/", Join(stack), Join(dirs));
  }

  lemma FolderStackIs(folder: string, home: string)
    requires CleanHome(home) && Kept(folder)
    ensures AllKept(FolderStack(folder, home)) && FolderStack(folder, home) != []
    ensures DirPath(FolderStack(folder, home)) == FolderPath(folder, home)
  {
    var stack := Walk([], Dirs(Rest(home + "/")));
    CleanHomeIsDir(home, stack);
    FolderDirsKept(folder);
    FolderUnder(stack, FolderDirs(folder), home);
  }

  /** Every name, whatever it does, is stored where the walk from the files folder leads. */
  lemma RealPathIs(name: string, home: string)
    requires CleanHome(home)
    ensures RealPath(name, home) ==
            "/" + (Join(Walk(FolderStack("files", home), Dirs(CString(name)))) + FileName(CString(name)))
  {
    FolderStackIs("files", home);
    FilesFolderIs(home);
    ConcatContinues(FolderStack("files", home), CString(name), home);
  }

  /** It is stored below the files folder, in its own normal form, if and only if it never climbs
      above that folder. */
  lemma RealPathIsBelowIff(name: string, home: string)
    requires CleanHome(home)
    ensures RealPath(name, home) == FolderPath("files", home) + Body(CString(name))
            <==> StaysBelow(Dirs(CString(name)), 0)
  {
    FolderStackIs("files", home);
    FilesFolderIs(home);
    BelowBaseIff(FolderStack("files", home), CString(name), home);
  }

  // ----- stored names and temporary names ----------------------------------------------------

  /** A walk from a folder ends in another one, at a file of some name. */
  predicate Meets(base: seq<string>, path: string, folder: seq<string>, file: string)
  {
    Walk(base, Dirs(path)) == folder && FileName(path) == file
  }

  /** It passes through a path, taken for a folder. */
  predicate Passes(base: seq<string>, path: string, folder: seq<string>, file: string)
  {
    folder + [file] <= Walk(base, Dirs(path))
  }

  /** The walk of a name from the files folder ends in the folder of temporary files, at one. */
  predicate LandsOn(name: string, n: nat, home: string)
  {
    Meets(FolderStack("files", home), name, FolderStack("temp", home), TempName(n))
  }

  /** It passes through the name of a temporary file, taken for a folder. */
  predicate LandsBelow(name: string, n: nat, home: string)
  {
    Passes(FolderStack("files", home), name, FolderStack("temp", home), TempName(n))
  }

  lemma PathsEqualIff(a: seq<string>, x: string, b: seq<string>, y: string)
    requires SlashFree(a) && SlashFree(b) && NoSlash(x) && NoSlash(y)
    ensures "/" + (Join(a) + x) == "/" + (Join(b) + y) <==> a == b && x == y
  {
    JoinsEqualIff(a, x, b, y);
    SlashCancels(Join(a) + x, Join(b) + y);
  }

  lemma JoinsEqualIff(a: seq<string>, x: string, b: seq<string>, y: string)
    requires SlashFree(a) && SlashFree(b) && NoSlash(x) && NoSlash(y)
    ensures Join(a) + x == Join(b) + y <==> a == b && x == y
  {
    SplitJoin(a, x);
    SplitJoin(b, y);
  }

  lemma TempPathFrom(n: nat, home: string, temp: seq<string>, q: string)
    requires CleanHome(home) && temp == FolderStack("temp", home) && q == TempPath(n, home)
    ensures AllKept(temp) && q == "/" + (Join(temp) + TempName(n))
  {
    TempPathIs(n, home);
    FolderStackIs("temp", home);
    Associate("/", Join(temp), TempName(n));
  }

  lemma RealPathFrom(name: string, home: string, path: string, files: seq<string>, p: string)
    requires CleanHome(home) && path == CString(name) && files == FolderStack("files", home)
    requires p == RealPath(name, home)
    ensures AllKept(files) && files != [] && p == "/" + (Join(Walk(files, Dirs(path))) + FileName(path))
  {
    RealPathIs(name, home);
    FolderStackIs("files", home);
  }

  lemma WalksMeetIff(base: seq<string>, path: string, stack: seq<string>, name: string, p: string, q: string)
    requires AllKept(base) && AllKept(stack) && NoSlash(name)
    requires p == "/" + (Join(Walk(base, Dirs(path))) + FileName(path)) && q == "/" + (Join(stack) + name)
    ensures p == q <==> Meets(base, path, stack, name)
    ensures Below(p, q) <==> Passes(base, path, stack, name)
  {
    SplitIsSlashFree(path);
    WalkKeeps(base, Dirs(path));
    PathsEqualIff(Walk(base, Dirs(path)), FileName(path), stack, name);
    BelowIff(Walk(base, Dirs(path)), FileName(path), stack, name, p, q);
  }

  /** A stored name is the name of a temporary file if and only if its walk ends there, and lies
      below it if and only if the walk passes there. */
  lemma RealIsTempIff(name: string, n: nat, home: string)
    requires CleanHome(home)
    ensures RealPath(name, home) == TempPath(n, home) <==> LandsOn(CString(name), n, home)
    ensures Below(RealPath(name, home), TempPath(n, home)) <==> LandsBelow(CString(name), n, home)
  {
    var files, temp, path := FolderStack("files", home), FolderStack("temp", home), CString(name);
    var p, q := RealPath(name, home), TempPath(n, home);
    RealPathFrom(name, home, path, files, p);
    TempPathFrom(n, home, temp, q);
    WalksMeetIff(files, path, temp, TempName(n), p, q);
  }

  /** No temporary name is another one, or lies below it. */
  lemma TempPathsApart(m: nat, n: nat, home: string)
    requires CleanHome(home) && AtOrBelow(TempPath(m, home), TempPath(n, home))
    ensures m == n
  {
    var temp, p, q := FolderStack("temp", home), TempPath(m, home), TempPath(n, home);
    TempPathsDistinct(m, n, home);
    TempPathFrom(m, home, temp, p);
    TempPathFrom(n, home, temp, q);
    BelowIff(temp, TempName(m), temp, TempName(n), p, q);
  }

  lemma TempNameIsKept(n: nat)
    ensures Kept(TempName(n))
  {
    assert |TempName(n)| > 5;
  }

  lemma TwoDirs(a: string, b: string, name: string, path: string)
    requires NoSlash(a) && NoSlash(b) && NoSlash(name) && path == a + "/" + (b + "/" + name)
    ensures Dirs(path) == [a, b] && FileName(path) == name
  {
    SplitPlain(name);
    SplitCons(b, name);
    SplitCons(a, b + "/" + name);
  }

  lemma UpAndInto(stack: seq<string>, a: string, b: string)
    requires Kept(b)
    ensures Walk(stack + FolderDirs(a), ["..", b]) == stack + FolderDirs(b)
  {
    var up := stack + ["s3", "contents"];
    assert stack + FolderDirs(a) == up + [a] && stack + FolderDirs(b) == up + [b];
    assert [".."] + [b] == ["..", b] && [b] + [] == [b];
    WalkCons(up + [a], "..", [b]);
    assert Enter(up + [a], "..") == up;
    WalkCons(up, b, []);
  }

  /** Some names do: up one directory and down into the other folder. */
  lemma NameThatLands(name: string, n: nat, home: string)
    requires name == ".." + "/" + ("temp" + "/" + TempName(n))
    ensures LandsOn(name, n, home)
  {
    TwoDirs("..", "temp", TempName(n), name);
    UpAndInto(Walk([], Dirs(Rest(home + "/"))), "files", "temp");
  }

  lemma ThreeDirs(a: string, b: string, c: string, name: string, path: string)
    requires NoSlash(a) && NoSlash(b) && NoSlash(c) && NoSlash(name) && path == a + "/" + (b + "/" + (c + "/" + name))
    ensures Dirs(path) == [a, b] + [c] && FileName(path) == name
  {
    SplitPlain(name);
    SplitCons(c, name);
    SplitCons(b, c + "/" + name);
    SplitCons(a, b + "/" + (c + "/" + name));
  }

  lemma UpIntoAndOn(stack: seq<string>, a: string, b: string, c: string, dirs: seq<string>)
    requires Kept(b) && Kept(c) && dirs == ["..", b] + [c]
    ensures Walk(stack + FolderDirs(a), dirs) == stack + FolderDirs(b) + [c]
  {
    UpAndInto(stack, a, b);
    WalkAppend(stack + FolderDirs(a), ["..", b], [c]);
    WalkOverKept(stack + FolderDirs(b), [c]);
  }

  /** And some pass through: such a name makes a folder where a temporary file belongs. */
  lemma NameThatPasses(name: string, n: nat, x: string, home: string, path: string)
    requires CleanHome(home) && NoSlash(x)
    requires path == CString(name) && path == ".." + "/" + ("temp" + "/" + (TempName(n) + "/" + x))
    ensures LandsBelow(path, n, home) && RealPath(name, home) == TempPath(n, home) + "/" + x
  {
    var files, temp := FolderStack("files", home), FolderStack("temp", home);
    var p, q := RealPath(name, home), TempPath(n, home);
    TempNameIsKept(n);
    RealPathFrom(name, home, path, files, p);
    TempPathFrom(n, home, temp, q);
    WalkPasses(Walk([], Dirs(Rest(home + "/"))), "files", "temp", TempName(n), x, path, files, temp);
    PassesTo(files, path, temp, TempName(n), x, p, q);
  }

  lemma WalkPasses(up: seq<string>, a: string, b: string, c: string, x: string, path: string, files: seq<string>,
                   temp: seq<string>)
    requires Kept(b) && Kept(c) && NoSlash(x) && path == ".." + "/" + (b + "/" + (c + "/" + x))
    requires files == up + FolderDirs(a) && temp == up + FolderDirs(b)
    ensures Walk(files, Dirs(path)) == temp + [c] && FileName(path) == x
  {
    ThreeDirs("..", b, c, x, path);
    UpIntoAndOn(up, a, b, c, Dirs(path));
  }

  lemma PassesTo(files: seq<string>, path: string, temp: seq<string>, dir: string, x: string, p: string, q: string)
    requires Walk(files, Dirs(path)) == temp + [dir] && FileName(path) == x
    requires p == "/" + (Join(Walk(files, Dirs(path))) + FileName(path)) && q == "/" + (Join(temp) + dir)
    ensures Passes(files, path, temp, dir) && p == q + "/" + x
  {
    JoinFile(temp, dir, x);
  }

  lemma JoinFile(stack: seq<string>, dir: string, x: string)
    ensures "/" + (Join(stack + [dir]) + x) == "/" + (Join(stack) + dir) + "/" + x
  {
    JoinSnoc(stack, dir);
  }

  lemma DifferentFolders(a: string, b: string, x: string, y: string)
    requires Kept(a) && Kept(b) && a != b
    ensures Join(FolderDirs(a)) + x != Join(FolderDirs(b)) + y
  {
    FolderDirsKept(a);
    FolderDirsKept(b);
    JoinCloses(FolderDirs(a));
    JoinCloses(FolderDirs(b));
    SplitJoinDirs(FolderDirs(a));
    SplitJoinDirs(FolderDirs(b));
    SplitAppend(Join(FolderDirs(a)), x);
    SplitAppend(Join(FolderDirs(b)), y);
    assert (FolderDirs(a) + Dirs(x))[2] == a && (FolderDirs(b) + Dirs(y))[2] == b;
  }

  lemma InDifferentFolders(a: string, b: string, x: string, y: string, home: string)
    requires Kept(a) && Kept(b) && a != b
    ensures FolderPath(a, home) + x != FolderPath(b, home) + y
  {
    var p, f, g := home + "/", Join(FolderDirs(a)), Join(FolderDirs(b));
    assert p + f + x == p + (f + x) && p + g + y == p + (g + y);
    PrefixCancels(p, f + x, g + y);
    DifferentFolders(a, b, x, y);
  }

  lemma PathsDiffer(p: string, q: string, a: string, b: string, x: string, y: string, home: string)
    requires Kept(a) && Kept(b) && a != b && p == FolderPath(a, home) + x && q == FolderPath(b, home) + y
    ensures p != q
  {
    InDifferentFolders(a, b, x, y, home);
  }

  /** A name that never climbs above the files folder does not. */
  lemma RealIsNotTemp(name: string, n: nat, home: string)
    requires CleanHome(home) && StaysBelow(Dirs(CString(name)), 0)
    ensures RealPath(name, home) != TempPath(n, home)
  {
    RealPathIsBelowIff(name, home);
    BelowFilesIsNotTemp(RealPath(name, home), Body(CString(name)), n, home);
  }

  lemma BelowFilesIsNotTemp(p: string, x: string, n: nat, home: string)
    requires p == FolderPath("files", home) + x
    ensures p != TempPath(n, home)
  {
    TempPathIs(n, home);
    assert "files"[0] != "temp"[0];
    PathsDiffer(p, TempPath(n, home), "files", "temp", x, TempName(n), home);
  }

  // ----- metadata keys and stored names ------------------------------------------------------

  predicate Rooted(name: string)
  {
    name != "" && (name[0] == '/' || name[0] == '~')
  }

  /** The directories of a metadata key. */
  function KeyStack(name: string, home: string): seq<string>
  {
    (if name != "" && name[0] == '~' then Walk([], Dirs(Rest(home + "/"))) else []) + Walk([], Dirs(Rest(name)))
  }

  lemma KeyPathIs(text: string, home: string, name: string, stack: seq<string>, file: string)
    requires CleanHome(home) && name == CString(text) && stack == KeyStack(name, home) && file == FileName(Rest(name))
    ensures KeyPath(text, home) == (if Rooted(name) then "/" else "") + (Join(stack) + file)
  {
    var own, base := Walk([], Dirs(Rest(name))), Walk([], Dirs(Rest(home + "/")));
    NormalizeIs(name, home);
    if name != "" && name[0] == '~' {
      CleanHomeIsDir(home, base);
      PrefixedKey(home, base, own, file, stack, KeyPath(text, home));
    } else {
      assert [] + own == own;
    }
  }

  lemma PrefixedKey(home: string, base: seq<string>, own: seq<string>, file: string, stack: seq<string>, key: string)
    requires home + "/" == DirPath(base) && stack == base + own && key == (home + "/") + (Join(own) + file)
    ensures key == "/" + (Join(stack) + file)
  {
    BaseAndOwn(base, own, file);
  }

  lemma RootedOrNot(a: string, x: string, b: string, y: string)
    requires a == "" || a == "/"
    requires b == "" || b == "/"
    requires (x != "" ==> x[0] != '/') && (y != "" ==> y[0] != '/')
    ensures a + x == b + y <==> a == b && x == y
  {
    assert if a == "" then a + x == x else (a + x)[0] == '/' && (a + x)[1..] == x;
    assert if b == "" then b + y == y else (b + y)[0] == '/' && (b + y)[1..] == y;
  }

  lemma NoLeadingSlash(stack: seq<string>, file: string)
    requires AllKept(stack) && NoSlash(file)
    ensures Join(stack) + file != "" ==> (Join(stack) + file)[0] != '/'
  {
    if stack != [] {
      JoinStartsWithFirst(stack);
    }
  }

  lemma KeyStackIsKept(name: string, home: string)
    requires CleanHome(home)
    ensures AllKept(KeyStack(name, home)) && NoSlash(FileName(Rest(name)))
  {
    BodySplits(Rest(name));
    SplitIsSlashFree(Rest(name));
    CleanHomeIsDir(home, Walk([], Dirs(Rest(home + "/"))));
  }

  /** Two names have one metadata key if and only if both are rooted or neither is, and they have
      the same directories and the same file name. */
  lemma SameKeyIff(a: string, b: string, home: string)
    requires CleanHome(home)
    ensures KeyPath(a, home) == KeyPath(b, home)
            <==> && Rooted(CString(a)) == Rooted(CString(b))
                 && KeyStack(CString(a), home) == KeyStack(CString(b), home)
                 && FileName(Rest(CString(a))) == FileName(Rest(CString(b)))
  {
    var m, n := CString(a), CString(b);
    var s, t, x, y := KeyStack(m, home), KeyStack(n, home), FileName(Rest(m)), FileName(Rest(n));
    KeyPathIs(a, home, m, s, x);
    KeyPathIs(b, home, n, t, y);
    KeyStackIsKept(m, home);
    KeyStackIsKept(n, home);
    NoLeadingSlash(s, x);
    NoLeadingSlash(t, y);
    RootedOrNot(if Rooted(m) then "/" else "", Join(s) + x, if Rooted(n) then "/" else "", Join(t) + y);
    JoinsEqualIff(s, x, t, y);
  }

  predicate SameWalk(base: seq<string>, a: string, b: string)
  {
    Walk(base, Dirs(a)) == Walk(base, Dirs(b)) && FileName(a) == FileName(b)
  }

  lemma WalkEndsIff(base: seq<string>, a: string, b: string, p: string, q: string)
    requires AllKept(base)
    requires p == "/" + (Join(Walk(base, Dirs(a))) + FileName(a))
    requires q == "/" + (Join(Walk(base, Dirs(b))) + FileName(b))
    ensures p == q <==> SameWalk(base, a, b)
  {
    SplitIsSlashFree(a);
    SplitIsSlashFree(b);
    WalkKeeps(base, Dirs(a));
    WalkKeeps(base, Dirs(b));
    PathsEqualIff(Walk(base, Dirs(a)), FileName(a), Walk(base, Dirs(b)), FileName(b));
  }

  /** Two names have one stored file if and only if their walks from the files folder end at one. */
  lemma SameFileIff(a: string, b: string, home: string)
    requires CleanHome(home)
    ensures RealPath(a, home) == RealPath(b, home) <==> SameWalk(FolderStack("files", home), CString(a), CString(b))
  {
    var files, p, q := FolderStack("files", home), RealPath(a, home), RealPath(b, home);
    RealPathFrom(a, home, CString(a), files, p);
    RealPathFrom(b, home, CString(b), files, q);
    WalkEndsIff(files, CString(a), CString(b), p, q);
  }

  lemma WalkFromBaseIff(base: seq<string>, a: string, b: string)
    requires base != [] && StaysBelow(Dirs(a), 0) && StaysBelow(Dirs(b), 0)
    ensures SameWalk(base, a, b) <==> SameWalk([], a, b)
  {
    WalksDiffer(base, Dirs(a));
    WalksDiffer(base, Dirs(b));
    BaseCancels(base, Walk([], Dirs(a)), Walk([], Dirs(b)));
  }

  lemma BaseCancels(base: seq<string>, a: seq<string>, b: seq<string>)
    ensures base + a == base + b <==> a == b
  {
    assert (base + a)[|base|..] == a && (base + b)[|base|..] == b;
  }

  lemma RelativeKeyIs(name: string, home: string)
    requires !Rooted(name)
    ensures KeyStack(name, home) == Walk([], Dirs(name)) && Rest(name) == name
  {
    var own := Walk([], Dirs(name));
    assert [] + own == own;
  }

  lemma RelativeKeyIff(a: string, b: string, home: string)
    requires CleanHome(home) && !Rooted(CString(a)) && !Rooted(CString(b))
    ensures KeyPath(a, home) == KeyPath(b, home) <==> SameWalk([], CString(a), CString(b))
  {
    RelativeKeyIs(CString(a), home);
    RelativeKeyIs(CString(b), home);
    SameKeyIff(a, b, home);
  }

  /** For relative names that never climb the two go together. */
  lemma KeyDecidesFile(a: string, b: string, home: string)
    requires CleanHome(home) && !Rooted(CString(a)) && !Rooted(CString(b))
    requires StaysBelow(Dirs(CString(a)), 0) && StaysBelow(Dirs(CString(b)), 0)
    ensures KeyPath(a, home) == KeyPath(b, home) <==> RealPath(a, home) == RealPath(b, home)
  {
    var files, m, n := FolderStack("files", home), CString(a), CString(b);
    FolderStackIs("files", home);
    WalkFromBaseIff(files, m, n);
    RelativeKeyIff(a, b, home);
    SameFileIff(a, b, home);
  }

  lemma DirInFront(base: seq<string>, dir: string, x: string, path: string)
    requires NoSlash(dir) && NoSlash(x) && path == dir + "/" + x
    ensures Walk(base, Dirs(x)) == base && Walk(base, Dirs(path)) == Enter(base, dir)
    ensures FileName(x) == x && FileName(path) == x
  {
    SplitPlain(x);
    SplitCons(dir, x);
    WalkCons(base, dir, []);
    assert [dir] + [] == [dir];
  }

  /** For other names they do not: a leading slash gives another key and the same file. */
  lemma OtherKeySameFile(x: string, a: string, b: string, home: string)
    requires CleanHome(home) && NoSlash(x) && !Rooted(x) && CString(a) == x && CString(b) == "" + "/" + x
    ensures KeyPath(a, home) != KeyPath(b, home) && RealPath(a, home) == RealPath(b, home)
  {
    SameKeyIff(a, b, home);
    SameFileIff(a, b, home);
    DirInFront(FolderStack("files", home), "", x, CString(b));
  }

  lemma UpDiffers(base: seq<string>, x: string, path: string)
    requires base != [] && NoSlash(x) && path == ".." + "/" + x
    ensures SameWalk([], x, path) && !SameWalk(base, x, path)
  {
    DirInFront(base, "..", x, path);
    DirInFront([], "..", x, path);
  }

  /** And a name that climbs may have the key of another one and another file. */
  lemma SameKeyOtherFile(x: string, a: string, b: string, home: string)
    requires CleanHome(home) && NoSlash(x) && !Rooted(x) && CString(a) == x && CString(b) == ".." + "/" + x
    ensures KeyPath(a, home) == KeyPath(b, home) && RealPath(a, home) != RealPath(b, home)
  {
    FolderStackIs("files", home);
    UpDiffers(FolderStack("files", home), x, CString(b));
    RelativeKeyIff(a, b, home);
    SameFileIff(a, b, home);
  }

  // ----- the methods that make names ---------------------------------------------------------

  lemma {:induction false} DecimalIsShort(n: nat, digits: nat)
    requires n < Pow10(digits) && digits > 0
    ensures |Decimal(n)| <= digits
  {
    if n >= 10 {
      DecimalIsShort(n / 10, digits - 1);
    }
  }

  function Pow10(digits: nat): nat
  {
    if digits == 0 then 1 else 10 * Pow10(digits - 1)
  }

  lemma FilesFolderLength(home: string)
    ensures |Normalize(FILES_FOLDER, home)| == |home| + 19
  {
    FilesFolderIs(home);
    FolderJoins("files");
  }

  /** `filemgmt_set_real_path`, with the same normaliser for both names. */
  method SetRealPath(filename: string, home: string) returns (key: string, realName: string)
    requires |filename| + 2 * |home| + 32 < 0x8000
    ensures key == KeyPath(filename, home) && realName == RealPath(filename, home)
  {
    var full := ValidateAndExpand(FILES_FOLDER, home);
    FilesFolderLength(home);
    var name := CString(filename);
    key := ValidateAndExpand(name, home);
    realName := ValidateAndExpand(full + "/" + name, home);
  }

  /** `filemgmt_set_tmp_path`, for the counter it has just raised. */
  method SetTmpPath(counter: nat, home: string) returns (temp: string)
    requires counter < Pow10(19) && |home| + 64 < 0x8000
    ensures temp == TempPath(counter, home)
    ensures forall n: nat :: n != counter ==> temp != TempPath(n, home)
  {
    DecimalIsShort(counter, 19);
    temp := ValidateAndExpand(TEMP_FOLDER + "/" + TempName(counter), home);
    forall n: nat | n != counter
      ensures temp != TempPath(n, home)
    {
      TempPathsDistinct(n, counter, home);
    }
  }
}

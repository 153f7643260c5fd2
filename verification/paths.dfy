/** Paths as filepath.Join and filepath.Clean treat them on Unix. */
module Paths {

  /** One character more: a slash begins a new part, anything else extends the last one. */
  function Extended(parts: seq<string>, c: char): (more: seq<string>)
    requires parts != []
    ensures more != []
  {
    if c == '/' then parts + [[]] else parts[|parts| - 1 := parts[|parts| - 1] + [c]]
  }

  /** The parts of a path between slashes. */
  function Split(s: string): (parts: seq<string>)
    ensures parts != []
  {
    if s == [] then [[]] else Extended(Split(s[..|s| - 1]), s[|s| - 1])
  }

  /** One part more: "" and "." are dropped, ".." removes the part before it. */
  function Next(rooted: bool, done: seq<string>, part: string): seq<string> {
    if part == "" || part == "." then done
    else if part == ".." then
      if done != [] && done[|done| - 1] != ".." then done[..|done| - 1]
      else if rooted then done
      else done + [".."]
    else done + [part]
  }

  /** filepath.Clean on parts. */
  function Normalize(rooted: bool, parts: seq<string>): seq<string> {
    if parts == [] then [] else Next(rooted, Normalize(rooted, parts[..|parts| - 1]), parts[|parts| - 1])
  }

  function Unsplit(parts: seq<string>): string {
    if parts == [] then ""
    else if |parts| == 1 then parts[0]
    else Unsplit(parts[..|parts| - 1]) + "/" + parts[|parts| - 1]
  }

  function Clean(path: string): string {
    if path == "" then "."
    else
      var rooted := path[0] == '/';
      var parts := Normalize(rooted, Split(path));
      if rooted then "/" + Unsplit(parts) else if parts == [] then "." else Unsplit(parts)
  }

  /** filepath.Join of two elements: empty ones are left out. */
  function JoinPath(dir: string, name: string): string {
    if dir == "" && name == "" then ""
    else if dir == "" then Clean(name)
    else if name == "" then Clean(dir)
    else Clean(dir + "/" + name)
  }

  lemma {:induction false} SplitPlain(name: string)
    requires '/' !in name
    ensures Split(name) == [name]
  {
    if name != [] {
      SplitPlain(name[..|name| - 1]);
      assert name == name[..|name| - 1] + [name[|name| - 1]];
    }
  }

  lemma {:induction false} SplitJoined(dir: string, name: string)
    requires '/' !in name
    ensures Split(dir + "/" + name) == Split(dir) + [name]
  {
    var s := dir + "/" + name;
    if name == [] {
      assert s[..|s| - 1] == dir;
    } else {
      var front := name[..|name| - 1];
      SplitJoined(dir, front);
      assert s[..|s| - 1] == dir + "/" + front;
      assert name == front + [name[|name| - 1]];
    }
  }

  /** What a plain file name is appended to: the cleaned directory and a slash. */
  function Parent(dir: string): string {
    var cleaned := Clean(dir);
    if cleaned == "." then "" else if cleaned == "/" then "/" else cleaned + "/"
  }

  /** The parts that are left of a path: names without a slash. */
  ghost predicate Parts(parts: seq<string>) {
    forall part :: part in parts ==> '/' !in part && part != "" && part != "."
  }

  lemma {:induction false} SplitHasNoSlash(s: string)
    ensures forall part :: part in Split(s) ==> '/' !in part
  {
    if s != [] {
      SplitHasNoSlash(s[..|s| - 1]);
    }
  }

  lemma {:induction false} NormalizeLeavesParts(rooted: bool, parts: seq<string>)
    requires forall part :: part in parts ==> '/' !in part
    ensures Parts(Normalize(rooted, parts))
  {
    if parts != [] {
      NormalizeLeavesParts(rooted, parts[..|parts| - 1]);
    }
  }

  lemma UnsplitIsLong(parts: seq<string>)
    requires Parts(parts) && parts != []
    ensures Unsplit(parts) != "" && Unsplit(parts) != "." && Unsplit(parts) != "/"
  {
    if |parts| == 1 {
      assert parts[0] in parts;
    } else {
      assert parts[|parts| - 1] in parts;
    }
  }

  /** The cleaned directory in terms of its parts. */
  lemma ParentForm(dir: string)
    ensures Clean(dir) != ""
    ensures Parent(dir) ==
      if dir == "" then ""
      else
        var parts := Normalize(dir[0] == '/', Split(dir));
        (if dir[0] == '/' then "/" else "") + (if parts == [] then "" else Unsplit(parts) + "/")
  {
    hide Normalize, Unsplit, Split;
    if dir != "" {
      var parts := Normalize(dir[0] == '/', Split(dir));
      SplitHasNoSlash(dir);
      NormalizeLeavesParts(dir[0] == '/', Split(dir));
      UnsplitNothing();
      if parts != [] {
        UnsplitIsLong(parts);
      }
    }
  }

  lemma UnsplitNothing()
    ensures Unsplit([]) == ""
  {
  }

  predicate PlainName(name: string) {
    '/' !in name && name != "" && name != "." && name != ".."
  }

  lemma NormalizeAppends(rooted: bool, parts: seq<string>, name: string)
    requires PlainName(name)
    ensures Normalize(rooted, parts + [name]) == Normalize(rooted, parts) + [name]
  {
    assert (parts + [name])[..|parts|] == parts;
  }

  lemma UnsplitAppends(parts: seq<string>, name: string)
    ensures Unsplit(parts + [name]) == (if parts == [] then "" else Unsplit(parts) + "/") + name
  {
    assert (parts + [name])[..|parts|] == parts;
  }

  /** Joining a plain name to a directory appends it. */
  lemma JoinAppends(dir: string, name: string)
    requires PlainName(name)
    ensures JoinPath(dir, name) == Parent(dir) + name
  {
    hide Parent, Clean;
    ParentForm(dir);
    if dir == "" {
      CleanAppends(false, [], name, name);
    } else {
      SplitJoined(dir, name);
      assert (dir + "/" + name)[0] == dir[0];
      CleanAppends(dir[0] == '/', Split(dir), name, dir + "/" + name);
    }
  }

  lemma CleanAppends(rooted: bool, parts: seq<string>, name: string, path: string)
    requires PlainName(name) && path != "" && rooted == (path[0] == '/')
    requires Split(path) == parts + [name] || (parts == [] && path == name)
    ensures
      var front := Normalize(rooted, parts);
      Clean(path) == (if rooted then "/" else "") + (if front == [] then "" else Unsplit(front) + "/") + name
  {
    hide Normalize, Unsplit, Split;
    if path == name {
      SplitPlain(name);
      assert [] + [name] == [name];
    }
    NormalizeAppends(rooted, parts, name);
    UnsplitAppends(Normalize(rooted, parts), name);
    NormalizeNothing(rooted);
  }

  lemma NormalizeNothing(rooted: bool)
    ensures Normalize(rooted, []) == []
  {
  }

  /** The position of the last slash, or -1. */
  function LastSlash(s: string): (k: int)
    ensures -1 <= k < |s| && (k >= 0 ==> s[k] == '/')
    ensures forall i :: k < i < |s| ==> s[i] != '/'
  {
    if s == [] then -1 else if s[|s| - 1] == '/' then |s| - 1 else LastSlash(s[..|s| - 1])
  }

  /** What follows the last slash. */
  function Tail(token: string): string {
    token[LastSlash(token) + 1..]
  }

  lemma JoinAtRoot(name: string)
    requires PlainName(name)
    ensures Clean("/" + name) == "/" + name && Parent("/") == "/"
  {
    hide Normalize, Unsplit, Split;
    SplitName(name);
    SplitPlain("");
    SplitJoined("", name);
    SplitJoined("", "");
    assert "" + "/" + name == "/" + name && "" + "/" + "" == "/";
    CleanAppends(true, [""], name, "/" + name);
    NothingAtRoot();
    UnsplitNothing();
  }

  lemma NothingAtRoot()
    ensures Normalize(true, [""]) == [] && Normalize(true, [""] + [""]) == []
  {
    assert [""][..0] == [] && ([""] + [""])[..1] == [""];
  }

  /** Joining a name with a slash is joining its last part to a longer directory. */
  lemma JoinThrough(dir: string, head: string, base: string)
    requires PlainName(base)
    ensures JoinPath(dir, head + "/" + base)
      == Parent(if dir != "" then dir + "/" + head else if head == "" then "/" else head) + base
  {
    hide Clean, Parent;
    if dir != "" {
      JoinAppends(dir + "/" + head, base);
      assert dir + "/" + (head + "/" + base) == dir + "/" + head + "/" + base;
    } else if head == "" {
      JoinAtRoot(base);
      assert head + "/" + base == "/" + base;
    } else {
      JoinAppends(head, base);
    }
  }

  lemma LastSlashIsUnique(s: string, k: int)
    requires -1 <= k < |s| && (k >= 0 ==> s[k] == '/') && forall i :: k < i < |s| ==> s[i] != '/'
    ensures LastSlash(s) == k
  {
    hide LastSlash;
  }

  lemma LastSlashAfter(p: string, m: string)
    requires '/' !in m && (p != "" ==> p[|p| - 1] == '/')
    ensures LastSlash(p + m) == |p| - 1
  {
    var s := p + m;
    forall i | |p| <= i < |s|
      ensures s[i] != '/'
    {
      assert s[i] == m[i - |p|];
    }
    LastSlashIsUnique(s, |p| - 1);
  }

  lemma ParentEndsInSlash(d: string)
    ensures Parent(d) != "" ==> Parent(d)[|Parent(d)| - 1] == '/'
  {
    hide Clean;
  }

  /** A path determines its directory and its name. */
  lemma PathsCompareInParts(d: string, m: string, e: string, n: string)
    requires '/' !in m && '/' !in n
    ensures Parent(d) + m == Parent(e) + n <==> Parent(d) == Parent(e) && m == n
  {
    hide Parent;
    var p, q := Parent(d), Parent(e);
    ParentEndsInSlash(d);
    ParentEndsInSlash(e);
    LastSlashAfter(p, m);
    LastSlashAfter(q, n);
    assert (p + m)[|p|..] == m && (q + n)[|q|..] == n;
    assert (p + m)[..|p|] == p && (q + n)[..|q|] == q;
  }

  lemma ParentsCompareCleaned(d: string, e: string)
    ensures Parent(d) == Parent(e) <==> Clean(d) == Clean(e)
  {
    ParentForm(d);
    ParentForm(e);
    hide Clean;
    var x, y := Clean(d), Clean(e);
    assert x == (x + "/")[..|x|] && y == (y + "/")[..|y|];
  }

  lemma DetourIsClean(dir: string, name: string)
    requires PlainName(name)
    ensures Clean(if dir == "" then name + "/.." else dir + "/" + (name + "/..")) == Clean(dir)
  {
    hide Clean, PlainName;
    DetourTexts(dir, name);
    if dir == "" {
      DetourFromNowhere(name);
    } else {
      DetourFrom(dir, name);
    }
  }

  lemma DetourTexts(dir: string, name: string)
    ensures name + "/" + ".." == name + "/.."
    ensures dir + "/" + name + "/" + ".." == dir + "/" + (name + "/..")
  {
    assert dir + "/" + name + "/" + ".." == dir + "/" + (name + "/" + "..");
  }

  lemma DetourFromNowhere(name: string)
    requires PlainName(name)
    ensures Clean(name + "/" + "..") == Clean("")
  {
    SplitName(name);
    hide PlainName, Normalize, Split, Unsplit;
    SplitJoined(name, "..");
    assert [name] + [".."] == [] + [name] + [".."];
    DetourNormalizes(false, [], name);
    NormalizeNothing(false);
  }

  lemma DetourFrom(dir: string, name: string)
    requires PlainName(name) && dir != ""
    ensures Clean(dir + "/" + name + "/" + "..") == Clean(dir)
  {
    SplitName(name);
    hide PlainName, Normalize, Split, Unsplit;
    SplitJoined(dir, name);
    SplitJoined(dir + "/" + name, "..");
    DetourNormalizes(dir[0] == '/', Split(dir), name);
  }

  lemma DetourNormalizes(rooted: bool, parts: seq<string>, name: string)
    requires PlainName(name)
    ensures Normalize(rooted, parts + [name] + [".."]) == Normalize(rooted, parts)
  {
    NormalizeAppends(rooted, parts, name);
    assert (parts + [name] + [".."])[..|parts| + 1] == parts + [name];
  }

  lemma SplitName(name: string)
    requires PlainName(name)
    ensures '/' !in name && Split(name) == [name] && name != "" && name[0] != '/'
  {
    SplitPlain(name);
  }

  // ----- what Clean does, part by part -----

  /** Where going into `part` leads from the cleaned path `c`. */
  function Entered(c: string, part: string): string {
    if part == "" || part == "." then c
    else if part != ".." then
      if c == "." then part else if c == "/" then "/" + part else c + "/" + part
    else if c == "/" then "/"
    else if c == "." then ".."
    else if Tail(c) == ".." then c + "/.."
    else
      var k := LastSlash(c);
      if k < 0 then "." else if k == 0 then "/" else c[..k]
  }

  /** The path walked part by part, from "/" or from ".". */
  function Walked(path: string): string {
    var k := LastSlash(path);
    if k < 0 then Entered(".", path)
    else if k == 0 then Entered("/", path[1..])
    else Entered(Walked(path[..k]), path[k + 1..])
  }

  lemma {:induction false} RootedHasNoDots(parts: seq<string>)
    ensures ".." !in Normalize(true, parts)
  {
    if parts != [] {
      RootedHasNoDots(parts[..|parts| - 1]);
    }
  }

  lemma CutsAfter(before: string, last: string)
    requires '/' !in last && (before != "" ==> before[|before| - 1] == '/')
    ensures LastSlash(before + last) == |before| - 1 && Tail(before + last) == last
    ensures before != "" ==> (before + last)[..|before| - 1] == before[..|before| - 1]
  {
    hide LastSlash;
    LastSlashAfter(before, last);
    assert (before + last)[|before|..] == last;
  }

  lemma Regroups(root: string, front: string, last: string)
    ensures root + (front + "/" + last) == root + front + "/" + last
    ensures (root + front + "/")[..|root + front|] == root + front
  {
  }

  lemma CutsBehind(root: string, front: string, last: string)
    requires '/' !in last && front != ""
    ensures
      var c := root + (front + "/" + last);
      Tail(c) == last && LastSlash(c) > 0 && c[..LastSlash(c)] == root + front
  {
    hide LastSlash, Tail;
    Regroups(root, front, last);
    var before := root + front + "/";
    assert before[|before| - 1] == '/';
    CutsAfter(before, last);
  }

  lemma UnsplitOne(parts: seq<string>)
    requires |parts| == 1
    ensures Unsplit(parts) == parts[0]
  {
  }

  /** The last part of a path is what follows its last slash. */
  lemma CutsAtLast(root: string, parts: seq<string>)
    requires Parts(parts) && parts != [] && root in {"", "/"}
    ensures
      var c, n := root + Unsplit(parts), |parts| - 1;
      && Tail(c) == parts[n]
      && (if n == 0 then LastSlash(c) == |root| - 1 else LastSlash(c) > 0 && c[..LastSlash(c)] == root + Unsplit(parts[..n]))
  {
    hide LastSlash, Tail, Unsplit;
    var n := |parts| - 1;
    assert parts[n] in parts;
    if n == 0 {
      UnsplitOne(parts);
      CutsAfter(root, parts[n]);
    } else {
      FrontHasParts(parts);
      UnsplitIsLong(parts[..n]);
      UnsplitSplits(parts);
      CutsBehind(root, Unsplit(parts[..n]), parts[n]);
    }
  }

  lemma UnsplitSplits(parts: seq<string>)
    requires |parts| > 1
    ensures Unsplit(parts) == Unsplit(parts[..|parts| - 1]) + "/" + parts[|parts| - 1]
  {
  }

  lemma NormalizeOne(rooted: bool, parts: seq<string>, part: string)
    ensures Normalize(rooted, parts + [part]) == Next(rooted, Normalize(rooted, parts), part)
  {
    hide Next;
    assert (parts + [part])[..|parts|] == parts;
  }

  /** A cleaned path in terms of its parts. */
  function Shown(rooted: bool, parts: seq<string>): string {
    if rooted then "/" + Unsplit(parts) else if parts == [] then "." else Unsplit(parts)
  }

  lemma ShowsLong(rooted: bool, parts: seq<string>)
    requires Parts(parts) && parts != []
    ensures Shown(rooted, parts) == (if rooted then "/" else "") + Unsplit(parts)
    ensures Shown(rooted, parts) != "." && Shown(rooted, parts) != "/"
  {
    hide Unsplit;
    UnsplitIsLong(parts);
    assert "" + Unsplit(parts) == Unsplit(parts);
  }

  /** Going down. */
  lemma ShowsMore(rooted: bool, parts: seq<string>, part: string)
    requires Parts(parts)
    ensures Shown(rooted, parts + [part]) ==
      var c := Shown(rooted, parts);
      if parts == [] then (if rooted then "/" + part else part) else c + "/" + part
  {
    hide Unsplit;
    UnsplitNothing();
    UnsplitAppends(parts, part);
    if parts == [] {
      assert "" + part == part;
    } else {
      Regroups(if rooted then "/" else "", Unsplit(parts), part);
    }
  }

  /** Going up. */
  lemma ShowsLess(rooted: bool, parts: seq<string>)
    requires Parts(parts) && parts != []
    ensures var c := Shown(rooted, parts);
      && Tail(c) == parts[|parts| - 1]
      && Shown(rooted, parts[..|parts| - 1])
           == if LastSlash(c) < 0 then "." else if LastSlash(c) == 0 then "/" else c[..LastSlash(c)]
  {
    hide Unsplit, LastSlash, Tail, Parts;
    ShowsLong(rooted, parts);
    CutsAtLast(if rooted then "/" else "", parts);
    UnsplitNothing();
    var front := parts[..|parts| - 1];
    if front != [] {
      FrontHasParts(parts);
      ShowsLong(rooted, front);
    }
  }

  lemma FrontHasParts(parts: seq<string>)
    requires Parts(parts) && parts != []
    ensures Parts(parts[..|parts| - 1])
  {
    var front := parts[..|parts| - 1];
    forall part | part in front
      ensures '/' !in part && part != "" && part != "."
    {
      var i :| 0 <= i < |front| && front[i] == part;
      assert parts[i] in parts;
    }
  }

  lemma ShowsNothing(rooted: bool)
    ensures Shown(rooted, []) == if rooted then "/" else "."
  {
    UnsplitNothing();
    assert "/" + "" == "/";
  }

  lemma DotsAppend(c: string)
    ensures c + "/" + ".." == c + "/.."
  {
  }

  lemma EnteredShows(rooted: bool, parts: seq<string>, part: string)
    requires Parts(parts) && '/' !in part && (rooted ==> ".." !in parts)
    ensures Entered(Shown(rooted, parts), part) == Shown(rooted, Next(rooted, parts, part))
  {
    hide Unsplit, Parts, Tail, LastSlash, Shown;
    ShowsNothing(rooted);
    DotsAppend(Shown(rooted, parts));
    ShowsMore(rooted, parts, part);
    if parts != [] {
      ShowsLong(rooted, parts);
      ShowsLess(rooted, parts);
      assert parts[|parts| - 1] in parts;
    }
  }

  /** Going into one more part. */
  lemma CleanStep(d: string, part: string)
    requires d != "" && '/' !in part
    ensures Clean(d + "/" + part) == Entered(Clean(d), part)
  {
    hide Normalize, Unsplit, Split, Entered;
    var rooted := d[0] == '/';
    SplitJoined(d, part);
    assert (d + "/" + part)[0] == d[0];
    NormalizeOne(rooted, Split(d), part);
    SplitHasNoSlash(d);
    NormalizeLeavesParts(rooted, Split(d));
    if rooted {
      RootedHasNoDots(Split(d));
    }
    EnteredShows(rooted, Normalize(rooted, Split(d)), part);
  }

  /** The first part. */
  lemma CleanStarts(part: string)
    requires '/' !in part
    ensures Clean(part) == Entered(".", part) && Clean("/" + part) == Entered("/", part)
  {
    hide Normalize, Unsplit, Split, Entered;
    SplitPlain(part);
    SplitPlain("");
    SplitJoined("", part);
    assert "" + "/" + part == "/" + part;
    assert [] + [part] == [part] && [] + [""] == [""];
    NormalizeNothing(false);
    NormalizeNothing(true);
    NormalizeOne(false, [], part);
    NormalizeOne(true, [], "");
    NormalizeOne(true, [""], part);
    UnsplitNothing();
    EnteredShows(false, [], part);
    EnteredShows(true, [], part);
    assert "/" + "" == "/";
    if part == "" {
      assert Clean("") == ".";
    }
  }

  /** Clean is the walk: empty parts and "." stay where they are, ".." goes up, but not above "/", and any other part goes down. */
  lemma {:induction false} CleanWalks(path: string)
    ensures Clean(path) == Walked(path)
    decreases |path|
  {
    hide Clean, Entered;
    var k := LastSlash(path);
    if k < 0 {
      CleanStarts(path);
    } else if k == 0 {
      assert path == "/" + path[1..];
      CleanStarts(path[1..]);
    } else {
      assert path == path[..k] + "/" + path[k + 1..];
      CleanWalks(path[..k]);
      CleanStep(path[..k], path[k + 1..]);
    }
  }

  // ----- laws of Clean and JoinPath -----

  lemma SplitOne(s: string, c: char)
    ensures Split(s + [c]) == Extended(Split(s), c)
  {
    hide Extended;
    assert (s + [c])[..|s|] == s;
  }

  lemma ExtendedBehind(a: seq<string>, b: seq<string>, c: char)
    requires b != []
    ensures Extended(a + b, c) == a + Extended(b, c)
  {
  }

  lemma {:induction false} SplitAppends(x: string, y: string)
    ensures Split(x + "/" + y) == Split(x) + Split(y)
    decreases |y|
  {
    hide Split, Extended;
    if y == [] {
      SplitSlash(x);
      assert x + "/" + y == x + "/";
    } else {
      var front, c := y[..|y| - 1], y[|y| - 1];
      assert y == front + [c];
      SplitAppends(x, front);
      SplitOne(front, c);
      SplitOne(x + "/" + front, c);
      ExtendedBehind(Split(x), Split(front), c);
      assert x + "/" + y == x + "/" + front + [c];
    }
  }

  lemma SplitSlash(x: string)
    ensures Split(x + "/") == Split(x) + Split([])
  {
    SplitOne(x, '/');
    assert x + "/" == x + ['/'];
  }

  /** What follows depends on what precedes it only through its normal form. */
  lemma {:induction false} NormalizeGoesOn(rooted: bool, a: seq<string>, b: seq<string>, rest: seq<string>)
    requires Normalize(rooted, a) == Normalize(rooted, b)
    ensures Normalize(rooted, a + rest) == Normalize(rooted, b + rest)
    decreases |rest|
  {
    hide Normalize, Next;
    if rest == [] {
      assert a + rest == a && b + rest == b;
    } else {
      var front, last := rest[..|rest| - 1], rest[|rest| - 1];
      NormalizeGoesOn(rooted, a, b, front);
      assert rest == front + [last];
      PartsRegroup(a, front, [last]);
      PartsRegroup(b, front, [last]);
      NormalizeOne(rooted, a + front, last);
      NormalizeOne(rooted, b + front, last);
    }
  }

  lemma PartsRegroup(a: seq<string>, b: seq<string>, c: seq<string>)
    ensures a + (b + c) == a + b + c
  {
  }

  lemma StillStandHere(d: string, part: string, e: string)
    requires d != "" && part in {"", "."}
    ensures Clean(d + "/" + part + "/" + e) == Clean(d + "/" + e)
  {
    hide Normalize, Unsplit, Split;
    var rooted := d[0] == '/';
    SplitPlain(part);
    SplitAppends(d, part);
    SplitAppends(d + "/" + part, e);
    SplitAppends(d, e);
    NormalizeOne(rooted, Split(d), part);
    NormalizeGoesOn(rooted, Split(d) + [part], Split(d), Split(e));
    assert (d + "/" + part + "/" + e)[0] == d[0] && (d + "/" + e)[0] == d[0];
  }

  lemma SlashTexts(d: string, e: string)
    ensures d + "/" + "" + "/" + e == d + "//" + e
    ensures d + "/" + "." + "/" + e == d + "/./" + e
  {
    assert "/" + "" + "/" == "//" && "/" + "." + "/" == "/./";
  }

  /** Double slashes and "." parts do not matter, whatever follows. */
  lemma EmptyPartsVanish(d: string, e: string)
    requires d != ""
    ensures Clean(d + "//" + e) == Clean(d + "/" + e) && Clean(d + "/./" + e) == Clean(d + "/" + e)
  {
    hide Clean;
    StillStandHere(d, "", e);
    StillStandHere(d, ".", e);
    SlashTexts(d, e);
  }

  /** A slash or "/." at the end of the directory makes no difference. */
  lemma TrailingSlashIgnored(dir: string, name: string)
    requires dir != ""
    ensures JoinPath(dir + "/", name) == JoinPath(dir, name) && JoinPath(dir + "/.", name) == JoinPath(dir, name)
  {
    hide Clean;
    if name == "" {
      CleanStep(dir, "");
      CleanStep(dir, ".");
      assert dir + "/" + "" == dir + "/";
      assert dir + "/" + "." == dir + "/.";
    } else {
      EmptyPartsVanish(dir, name);
      assert dir + "/" + "/" + name == dir + "//" + name;
      assert dir + "/." + "/" + name == dir + "/./" + name;
    }
  }

  /** A path of plain names, rooted or relative, is clean. */
  lemma PlainPathsStay(d: string, name: string)
    requires PlainName(name)
    ensures Clean(name) == name && Clean("/" + name) == "/" + name
    ensures d != "" && d != "." && d != "/" && Clean(d) == d ==> Clean(d + "/" + name) == d + "/" + name
  {
    SplitName(name);
    hide Clean, PlainName;
    CleanStarts(name);
    if d != "" && d != "." && d != "/" {
      CleanStep(d, name);
    }
  }

  /** A leading ".." of a relative path stays, also before plain names, and one at the root goes, whatever follows. */
  lemma LeadingDots(name: string, e: string)
    requires PlainName(name)
    ensures Clean("..") == ".." && Clean("../..") == "../.." && Clean("../" + name) == "../" + name
    ensures Clean("/..") == "/" && Clean("/../" + e) == Clean("/" + e)
  {
    hide PlainName, Clean, Entered;
    DotTexts(name);
    DotEntries();
    CleanStarts("..");
    CleanStep("..", "..");
    PlainPathsStay("..", name);
    DotsAtRoot(e);
  }

  lemma DotTexts(name: string)
    ensures ".." + "/" + ".." == "../.." && "/" + ".." == "/.." && ".." + "/" + name == "../" + name
  {
  }

  lemma DotEntries()
    ensures Entered(".", "..") == ".." && Entered("/", "..") == "/" && Entered("..", "..") == "../.."
  {
    CutsAfter("", "..");
    assert "" + ".." == "..";
  }

  lemma DotsAtRoot(e: string)
    ensures Clean("/../" + e) == Clean("/" + e)
  {
    hide Normalize, Unsplit, Split;
    SplitPlain("");
    SplitPlain("..");
    SplitAppends("", "..");
    SplitAppends("" + "/" + "..", e);
    SplitAppends("", e);
    assert "" + "/" + ".." + "/" + e == "/../" + e && "" + "/" + e == "/" + e;
    NormalizeNothing(true);
    assert [] + [""] == [""];
    NormalizeOne(true, [], "");
    NormalizeOne(true, [""], "..");
    NormalizeGoesOn(true, [""] + [".."], [""], Split(e));
  }
}

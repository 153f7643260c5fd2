/**
  Which metadata file belongs to which job: the name derived from the runner data,
  and the path derived from the name.
 */
module Identity {
  import opened Decimal
  import opened Paths

  datatype RunnerData = RunnerData(shortToken: string, projectUrl: string, pipelineId: int, jobId: int)

  /** SHA-256 in hexadecimal, of which only the form is known: 64 hexadecimal digits. */
  ghost predicate HexDigest(hash: string -> string) {
    forall s :: |hash(s)| == 64 && '/' !in hash(s)
  }

  function LongId(d: RunnerData): string {
    d.projectUrl + "-" + Print(d.pipelineId) + "-" + Print(d.jobId)
  }

  function GenerateFilename(hash: string -> string, d: RunnerData): string {
    d.shortToken + "-" + hash(LongId(d))
  }

  // ----- the long ID -----

  /** The digits at the end of a string, the character before them, and the rest are unique. */
  lemma DigitsAtEndAreUnique(x: string, c: char, m: string, y: string, d: char, n: string)
    requires AllDigits(m) && AllDigits(n) && !IsDigit(c) && !IsDigit(d)
    requires x + [c] + m == y + [d] + n
    ensures x == y && c == d && m == n
  {
    var s := x + [c] + m;
    assert !IsDigit(s[|x|]) && !IsDigit(s[|y|]);
    assert forall i :: |x| < i < |s| ==> IsDigit(s[i]) by {
      assert forall i :: |x| < i < |s| ==> s[i] == m[i - |x| - 1];
    }
    assert forall i :: |y| < i < |s| ==> IsDigit(s[i]) by {
      assert forall i :: |y| < i < |s| ==> s[i] == n[i - |y| - 1];
    }
    assert |x| == |y|;
    assert x == s[..|x|] == y;
    assert m == s[|x| + 1..] == n;
  }

  /** `x-n` for a number `n`, taken apart: a minus sign of `n` stays with `x`. */
  function Stem(x: string, n: int): string {
    if n < 0 then x + "-" else x
  }

  lemma DashedForm(x: string, n: int)
    ensures var k := if n < 0 then -n else n;
      AllDigits(Digits(k)) && Value(Digits(k)) == k && x + "-" + Print(n) == Stem(x, n) + ['-'] + Digits(k)
  {
    DigitsAreDigits(if n < 0 then -n else n);
    if n < 0 {
      assert x + "-" + ("-" + Digits(-n)) == x + "-" + ['-'] + Digits(-n);
    }
  }

  /** Two texts `x-n` agree when they are equal in both parts, or differ by a dash that is taken for a sign. */
  lemma DashedIsAlmostInjective(x: string, m: int, y: string, n: int)
    ensures x + "-" + Print(m) == y + "-" + Print(n)
      <==> (x == y && m == n) || (m == -n && m > 0 && x == y + "-") || (n == -m && n > 0 && y == x + "-")
  {
    var k, l := if m < 0 then -m else m, if n < 0 then -n else n;
    DashedForm(x, m);
    DashedForm(y, n);
    if x + "-" + Print(m) == y + "-" + Print(n) {
      DigitsAtEndAreUnique(Stem(x, m), '-', Digits(k), Stem(y, n), '-', Digits(l));
      assert k == l;
      if m < 0 && n < 0 {
        assert x == (x + "-")[..|x|] && y == (y + "-")[..|y|];
      }
    }
    if m == -n && m > 0 && x == y + "-" {
      assert Stem(x, m) == Stem(y, n);
    }
    if n == -m && n > 0 && y == x + "-" {
      assert Stem(x, m) == Stem(y, n);
    }
  }

  /** The job IDs agree, and the project URLs and pipeline IDs agree or differ by a dash that is taken for a sign. */
  predicate SameLongId(a: RunnerData, b: RunnerData) {
    && a.jobId == b.jobId
    && (|| (a.projectUrl == b.projectUrl && a.pipelineId == b.pipelineId)
        || (a.pipelineId == -b.pipelineId && a.pipelineId > 0 && a.projectUrl == b.projectUrl + "-")
        || (b.pipelineId == -a.pipelineId && b.pipelineId > 0 && b.projectUrl == a.projectUrl + "-"))
  }

  /** Exactly when two jobs have the same long ID, for arbitrary URLs and IDs of any sign. */
  lemma LongIdCollisions(a: RunnerData, b: RunnerData)
    ensures LongId(a) == LongId(b) <==> SameLongId(a, b)
  {
    var x, y := a.projectUrl + "-" + Print(a.pipelineId), b.projectUrl + "-" + Print(b.pipelineId);
    DashedIsAlmostInjective(x, a.jobId, y, b.jobId);
    DashedIsAlmostInjective(a.projectUrl, a.pipelineId, b.projectUrl, b.pipelineId);
    PrintIsCanonical(a.pipelineId);
    PrintIsCanonical(b.pipelineId);
    assert x[|x| - 1] == Print(a.pipelineId)[|Print(a.pipelineId)| - 1];
    assert y[|y| - 1] == Print(b.pipelineId)[|Print(b.pipelineId)| - 1];
    assert (x + "-")[|x|] == '-' && (y + "-")[|y|] == '-';
  }

  /** With non-negative pipeline IDs the long ID determines URL, pipeline and job. */
  lemma LongIdIsInjective(a: RunnerData, b: RunnerData)
    requires a.pipelineId >= 0 && b.pipelineId >= 0 && LongId(a) == LongId(b)
    ensures a.projectUrl == b.projectUrl && a.pipelineId == b.pipelineId && a.jobId == b.jobId
  {
    LongIdCollisions(a, b);
  }

  /** A negative pipeline ID can take over the file of another project. */
  lemma NegativePipelineCollides()
    ensures LongId(RunnerData("t", "a-", 1, 2)) == LongId(RunnerData("t", "a", -1, 2))
  {
    LongIdCollisions(RunnerData("t", "a-", 1, 2), RunnerData("t", "a", -1, 2));
  }

  /** Two file names are equal exactly when the tokens are and the digests are. */
  lemma FilenameCollisions(hash: string -> string, a: RunnerData, b: RunnerData)
    requires HexDigest(hash)
    ensures GenerateFilename(hash, a) == GenerateFilename(hash, b)
      <==> a.shortToken == b.shortToken && hash(LongId(a)) == hash(LongId(b))
  {
    var m, n := GenerateFilename(hash, a), GenerateFilename(hash, b);
    assert m[|m| - 64..] == hash(LongId(a)) && n[|n| - 64..] == hash(LongId(b));
    assert m[..|m| - 65] == a.shortToken && n[..|n| - 65] == b.shortToken;
  }

  // ----- the path -----

  function MetadataPath(dir: string, hash: string -> string, d: RunnerData): string {
    JoinPath(dir, GenerateFilename(hash, d) + ".json")
  }

  /** The part of a job's file name that its token cannot move to another directory. */
  function BaseName(hash: string -> string, d: RunnerData): string {
    GenerateFilename(hash, d.(shortToken := Tail(d.shortToken))) + ".json"
  }

  /** The directory that a token selects: its own slashes extend the configured one. */
  function Dir(dir: string, token: string): string {
    var k := LastSlash(token);
    if k < 0 then dir
    else if dir != "" then dir + "/" + token[..k]
    else if k == 0 then "/"
    else token[..k]
  }

  lemma BaseNameIsPlain(hash: string -> string, d: RunnerData)
    requires HexDigest(hash)
    ensures PlainName(BaseName(hash, d))
  {
    assert |hash(LongId(d))| == 64;
  }

  lemma Regroup(x: string, y: string, z: string)
    ensures x + y + z == x + (y + z)
  {
  }

  lemma CutAt(token: string, k: nat)
    requires k < |token| && token[k] == '/'
    ensures token == token[..k] + "/" + token[k + 1..]
  {
  }

  /** What every file name ends with. */
  function Suffix(hash: string -> string, d: RunnerData): string {
    "-" + hash(LongId(d)) + ".json"
  }

  lemma NameIs(hash: string -> string, d: RunnerData)
    ensures GenerateFilename(hash, d) + ".json" == d.shortToken + Suffix(hash, d)
    ensures BaseName(hash, d) == Tail(d.shortToken) + Suffix(hash, d)
  {
    var h, t := hash(LongId(d)), Tail(d.shortToken);
    hide LongId, Tail;
    TokenIsNotInLongId(d, t);
    Regroup(d.shortToken, "-", h);
    Regroup(d.shortToken, "-" + h, ".json");
    Regroup(t, "-", h);
    Regroup(t, "-" + h, ".json");
  }

  /** The file name that a token yields: the token as far as its last slash, then the plain name. */
  lemma NameSplits(hash: string -> string, d: RunnerData)
    ensures var k, name := LastSlash(d.shortToken), GenerateFilename(hash, d) + ".json";
      name == if k < 0 then BaseName(hash, d) else d.shortToken[..k] + "/" + BaseName(hash, d)
  {
    hide LastSlash, LongId, GenerateFilename, BaseName, Suffix;
    var k, token := LastSlash(d.shortToken), d.shortToken;
    NameIs(hash, d);
    if k >= 0 {
      CutAt(token, k);
      Regroup(token[..k] + "/", token[k + 1..], Suffix(hash, d));
    }
  }

  /** The metadata path of any job: the directory its token selects, and a plain name in it. */
  lemma PathShape(dir: string, hash: string -> string, d: RunnerData)
    requires HexDigest(hash)
    ensures MetadataPath(dir, hash, d) == Parent(Dir(dir, d.shortToken)) + BaseName(hash, d)
  {
    hide JoinPath, Parent, PlainName, BaseName, GenerateFilename, LastSlash, HexDigest;
    var k, base := LastSlash(d.shortToken), BaseName(hash, d);
    BaseNameIsPlain(hash, d);
    NameSplits(hash, d);
    if k < 0 {
      JoinAppends(dir, base);
    } else {
      JoinThrough(dir, d.shortToken[..k], base);
    }
  }

  lemma SuffixCancels(m: string, n: string, suffix: string)
    ensures m + suffix == n + suffix <==> m == n
  {
    assert m == (m + suffix)[..|m + suffix| - |suffix|] && n == (n + suffix)[..|n + suffix| - |suffix|];
  }

  /** The digest tells apart the two long IDs in play. */
  ghost predicate Separates(hash: string -> string, a: RunnerData, b: RunnerData) {
    hash(LongId(a)) == hash(LongId(b)) ==> LongId(a) == LongId(b)
  }

  /** Two jobs meet in one file: same long ID, same end of the token, and the tokens select the same directory. */
  predicate SameFile(dir: string, a: RunnerData, b: RunnerData) {
    && SameLongId(a, b)
    && Tail(a.shortToken) == Tail(b.shortToken)
    && Clean(Dir(dir, a.shortToken)) == Clean(Dir(dir, b.shortToken))
  }

  /** Exactly when two jobs use the same metadata file, for arbitrary tokens, URLs and directories, and IDs of any sign. */
  lemma PathCollisions(dir: string, hash: string -> string, a: RunnerData, b: RunnerData)
    requires HexDigest(hash) && Separates(hash, a, b)
    ensures MetadataPath(dir, hash, a) == MetadataPath(dir, hash, b) <==> SameFile(dir, a, b)
  {
    hide PlainName, JoinPath, Parent, GenerateFilename, LongId, SameLongId, Clean, Tail, Dir;
    var x, y := a.(shortToken := Tail(a.shortToken)), b.(shortToken := Tail(b.shortToken));
    var d, e := Dir(dir, a.shortToken), Dir(dir, b.shortToken);
    PathShape(dir, hash, a);
    PathShape(dir, hash, b);
    BaseNameHasNoSlash(hash, a);
    BaseNameHasNoSlash(hash, b);
    PathsCompareInParts(d, BaseName(hash, a), e, BaseName(hash, b));
    ParentsCompareCleaned(d, e);
    SuffixCancels(GenerateFilename(hash, x), GenerateFilename(hash, y), ".json");
    FilenameCollisions(hash, x, y);
    LongIdCollisions(a, b);
    TokenIsNotInLongId(a, x.shortToken);
    TokenIsNotInLongId(b, y.shortToken);
  }

  lemma BaseNameHasNoSlash(hash: string -> string, d: RunnerData)
    requires HexDigest(hash)
    ensures '/' !in BaseName(hash, d)
  {
    BaseNameIsPlain(hash, d);
  }

  lemma TokenIsNotInLongId(d: RunnerData, token: string)
    ensures LongId(d.(shortToken := token)) == LongId(d)
  {
  }

  lemma PlainTokenStays(dir: string, token: string)
    requires '/' !in token
    ensures Tail(token) == token && Dir(dir, token) == dir
  {
  }

  /** The metadata path of a job whose token has no slash, written out. */
  lemma PathSpelledOut(dir: string, hash: string -> string, d: RunnerData)
    requires HexDigest(hash) && '/' !in d.shortToken
    ensures
      var name := d.shortToken + "-" + hash(d.projectUrl + "-" + Print(d.pipelineId) + "-" + Print(d.jobId)) + ".json";
      MetadataPath(dir, hash, d) ==
        if Clean(dir) == "." then name else if Clean(dir) == "/" then "/" + name else Clean(dir) + "/" + name
  {
    hide Clean, HexDigest, Tail, Dir;
    PathShape(dir, hash, d);
    PlainTokenStays(dir, d.shortToken);
    TokenIsNotInLongId(d, d.shortToken);
    assert d.(shortToken := d.shortToken) == d;
    assert "" + BaseName(hash, d) == BaseName(hash, d);
  }

  /** With tokens without a slash and non-negative pipeline IDs, two jobs use the same metadata file only if they are the same job. */
  lemma PathIsInjective(dir: string, hash: string -> string, a: RunnerData, b: RunnerData)
    requires HexDigest(hash) && Separates(hash, a, b)
    requires '/' !in a.shortToken && '/' !in b.shortToken && a.pipelineId >= 0 && b.pipelineId >= 0
    ensures MetadataPath(dir, hash, a) == MetadataPath(dir, hash, b) <==> a == b
  {
    hide Clean, Tail, Dir, MetadataPath, HexDigest, Separates;
    PathCollisions(dir, hash, a, b);
    PlainTokenStays(dir, a.shortToken);
    PlainTokenStays(dir, b.shortToken);
  }

  /** In any directory, a token with a slash takes over the file of the token it ends with, when what precedes it leads nowhere. */
  lemma TokenWithSlashCollides(dir: string, hash: string -> string, name: string, a: RunnerData)
    requires HexDigest(hash) && PlainName(name) && '/' !in a.shortToken
    ensures MetadataPath(dir, hash, a.(shortToken := name + "/../" + a.shortToken)) == MetadataPath(dir, hash, a)
  {
    hide Clean, Tail, Dir, LongId;
    var b := a.(shortToken := name + "/../" + a.shortToken);
    TokenIsNotInLongId(a, b.shortToken);
    DetourTail(dir, name, a.shortToken);
    DetourIsClean(dir, name);
    PlainTokenStays(dir, a.shortToken);
    PathCollisions(dir, hash, b, a);
  }

  lemma DetourTail(dir: string, name: string, token: string)
    requires PlainName(name) && '/' !in token
    ensures Tail(name + "/../" + token) == token
    ensures Dir(dir, name + "/../" + token) == if dir == "" then name + "/.." else dir + "/" + (name + "/..")
  {
    var s := name + "/../" + token;
    assert s[|name| + 4..] == token && s[..|name| + 3] == name + "/..";
    LastSlashIsUnique(s, |name| + 3);
  }
}

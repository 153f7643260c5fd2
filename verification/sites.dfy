/** The jobs of a site get distinct files: what the interleaving results rest on. */
module Sites {
  import opened Identity
  import opened Protocol
  import opened System

  /** The job can be told apart by its file: a token without a slash, and a non-negative pipeline ID. */
  predicate Regular(d: RunnerData) {
    '/' !in d.shortToken && d.pipelineId >= 0
  }

  function SiteOf(codec: Codec, user: string, port: int, dir: string, hash: string -> string, jobs: set<RunnerData>): Site {
    Site(codec, user, port, map j | j in jobs :: MetadataPath(dir, hash, j))
  }

  /** A site is valid exactly when no two of its jobs meet in one file. */
  lemma SiteIsValid(codec: Codec, user: string, port: int, dir: string, hash: string -> string, jobs: set<RunnerData>)
    requires codec.Lawful() && HexDigest(hash)
    requires forall j, k :: j in jobs && k in jobs ==> Separates(hash, j, k)
    ensures SiteOf(codec, user, port, dir, hash, jobs).Valid()
      <==> forall j, k {:trigger SameFile(dir, j, k)} :: j in jobs && k in jobs && SameFile(dir, j, k) ==> j == k
  {
    hide SameFile, HexDigest, Separates, MetadataPath;
    var site := SiteOf(codec, user, port, dir, hash, jobs);
    forall j, k | j in jobs && k in jobs
      ensures site.paths[j] == site.paths[k] <==> SameFile(dir, j, k)
    {
      PathCollisions(dir, hash, j, k);
    }
  }

  /** In particular a site of regular jobs, in any directory. */
  lemma RegularSiteIsValid(codec: Codec, user: string, port: int, dir: string, hash: string -> string, jobs: set<RunnerData>)
    requires codec.Lawful() && HexDigest(hash)
    requires forall j :: j in jobs ==> Regular(j)
    requires forall j, k :: j in jobs && k in jobs ==> Separates(hash, j, k)
    ensures SiteOf(codec, user, port, dir, hash, jobs).Valid()
  {
    hide MetadataPath;
    var site := SiteOf(codec, user, port, dir, hash, jobs);
    forall j, k | j in site.paths && k in site.paths && site.paths[j] == site.paths[k]
      ensures j == k
    {
      PathIsInjective(dir, hash, j, k);
    }
  }
}

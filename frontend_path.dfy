/** The frontend project's fixed locations (`frontendPath`). Neither function
    reads any state or takes any input, so every call gives the same answer. */
module FrontendPath {

  /** The host's flavour of Node's `path` module: path.join uses `/` on Posix
      and `\` on Windows. */
  datatype Platform = Posix | Windows

  function Separator(platform: Platform): char
  {
    if platform.Posix? then '/' else '\\'
  }

  /** A path segment path.join passes through unchanged: not empty, without
      a separator of either kind, and neither `.` nor `..`. */
  predicate PlainSegment(s: string)
  {
    s != [] && '/' !in s && '\\' !in s && s != "." && s != ".."
  }

  /** path.join of two plain segments: the segments with the platform's
      separator between them. */
  function Join(platform: Platform, a: string, b: string): string
  {
    a + [Separator(platform)] + b
  }

  /** upath.toUnix: every backslash becomes a forward slash, and nothing else
      changes. */
  function ToUnix(p: string): (r: string)
    ensures |r| == |p|
    ensures '\\' !in r
    ensures forall i :: 0 <= i < |p| ==> r[i] == (if p[i] == '\\' then '/' else p[i])
  {
    if p == [] then []
    else [if p[0] == '\\' then '/' else p[0]] + ToUnix(p[1..])
  }

  /** frontendPath.projectDir(): one relative path segment. */
  function ProjectDir(): (r: string)
    ensures PlainSegment(r)
  {
    "frontend"
  }

  /** Joining two plain segments and normalising gives the same `/`-joined
      path on every platform. */
  lemma ToUnixJoin(platform: Platform, a: string, b: string)
    requires PlainSegment(a) && PlainSegment(b)
    ensures ToUnix(Join(platform, a, b)) == a + "/" + b
    ensures a <= ToUnix(Join(platform, a, b))
  {
    var p := Join(platform, a, b);
    var r := ToUnix(p);
    assert |r| == |a + "/" + b|;
    forall i | 0 <= i < |r|
      ensures r[i] == (a + "/" + b)[i]
    {
      if i < |a| {
        assert p[i] == a[i];
      } else if i > |a| {
        assert p[i] == b[i - |a| - 1];
      }
    }
  }

  /** frontendPath.publishDir(): the project directory joined with `build`
      by the host's path.join, then normalised to `/` separators. */
  function PublishDir(platform: Platform): string
  {
    ToUnix(Join(platform, ProjectDir(), "build"))
  }

  /** The publish directory is the project directory, `/` and `build`, with
      `/` as its separator whatever the platform. */
  lemma PublishDirShape(platform: Platform)
    ensures PublishDir(platform) == ProjectDir() + "/" + "build"
    ensures ProjectDir() <= PublishDir(platform)
    ensures '\\' !in PublishDir(platform)
  {
    ToUnixJoin(platform, ProjectDir(), "build");
  }

  /** The release folder is `frontend/build` on every platform. */
  lemma PublishDirOnEveryPlatform(p1: Platform, p2: Platform)
    ensures PublishDir(p1) == PublishDir(p2) == "frontend/build"
  {
    PublishDirShape(p1);
    PublishDirShape(p2);
    FrontendBuildSpelled();
  }

  /** The project directory, `/` and `build` spell `frontend/build`. */
  lemma FrontendBuildSpelled()
    ensures ProjectDir() + "/" + "build" == "frontend/build"
  {
    var r := ProjectDir() + "/" + "build";
    assert |r| == |"frontend/build"|;
    forall i | 0 <= i < |r|
      ensures r[i] == "frontend/build"[i]
    {
      if i < 8 {
        assert r[i] == "frontend"[i];
      } else if i > 8 {
        assert r[i] == "build"[i - 9];
      }
    }
  }
}

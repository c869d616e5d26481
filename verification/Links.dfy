/** The link in a notification and the download route that it leads to
    (internal/httpapi/handler.go): what a recipient fetches is the archive that
    was published. */
module Links {
  import opened Basics
  import opened Texts
  import opened Releases
  import opened Publishers
  import opened PublicationGuarantees
  import opened Blocking
  import opened Uninterrupted
  import Batches
  import Versions

  const MAX_VERSION_SEGMENT := 96
  const MAX_FILE_SEGMENT := 128

  /** What the download route takes from a path. */
  datatype Target = Target(version: string, file: string)

  // ---- The route ------------------------------------------------------------------

  predicate SegmentChar(c: char) {
    'A' <= c <= 'Z' || 'a' <= c <= 'z' || IsDigit(c) || c == '.' || c == '_' || c == '-'
  }

  /** Short enough, of the allowed characters, and not of dots alone. */
  predicate IsSegment(value: string, limit: nat) {
    && |value| <= limit
    && (forall i | 0 <= i < |value| :: SegmentChar(value[i]))
    && (exists i | 0 <= i < |value| :: value[i] != '.')
  }

  predicate AllDots(s: string) { forall i | 0 <= i < |s| :: s[i] == '.' }

  /** validDownloadSegment: one pass over the characters. */
  method ValidDownloadSegment(value: string, limit: nat) returns (valid: bool)
    ensures valid <==> IsSegment(value, limit)
  {
    if value == "" || |value| > limit || AllDots(value) { return false; }
    for index := 0 to |value|
      invariant forall i | 0 <= i < index :: SegmentChar(value[i])
    {
      var c := value[index];
      if !('A' <= c <= 'Z') && !('a' <= c <= 'z') && !('0' <= c <= '9') && c != '.' && c != '_' && c != '-' {
        return false;
      }
    }
    return true;
  }

  function Route(path: string): Option<Target> {
    var parts := Split('/', path);
    if |parts| != 6 || parts[0] != "" || parts[1] != "v1" || parts[2] != "releases" || parts[4] != "download"
       || !IsSegment(parts[3], MAX_VERSION_SEGMENT) || !IsSegment(parts[5], MAX_FILE_SEGMENT)
    then None
    else Some(Target(parts[3], parts[5]))
  }

  /** The route takes exactly the paths of its form, and takes their two segments
      from where they stand. */
  lemma RouteIsExact(path: string, t: Target)
    ensures Route(path) == Some(t) <==>
      && path == "/v1/releases/" + t.version + "/download/" + t.file
      && IsSegment(t.version, MAX_VERSION_SEGMENT) && IsSegment(t.file, MAX_FILE_SEGMENT)
  {
    hide IsSegment, Split, Join;
    var parts := ["", "v1", "releases", t.version, "download", t.file];
    Spelled(t);
    if Route(path) == Some(t) {
      JoinOfSplit('/', path);
      assert Split('/', path) == parts;
    }
    if path == Join('/', parts) && IsSegment(t.version, MAX_VERSION_SEGMENT) && IsSegment(t.file, MAX_FILE_SEGMENT) {
      NoSlash(t.version, MAX_VERSION_SEGMENT);
      NoSlash(t.file, MAX_FILE_SEGMENT);
      SplitOfJoin('/', parts);
    }
  }

  lemma NoSlash(s: string, limit: nat)
    requires IsSegment(s, limit)
    ensures '/' !in s
  {}

  lemma JoinFront(first: string, rest: seq<string>)
    requires rest != []
    ensures Join('/', [first] + rest) == first + "/" + Join('/', rest)
  {
    assert ([first] + rest)[1..] == rest;
  }

  lemma Spelled(t: Target)
    ensures Join('/', ["", "v1", "releases", t.version, "download", t.file])
         == "/v1/releases/" + t.version + "/download/" + t.file
  {
    hide Join;
    var d := [t.file];
    var c := ["download"] + d;
    var b := [t.version] + c;
    JoinOne(t.file);
    JoinFront("download", d);
    JoinFront(t.version, c);
    JoinFront("releases", b);
    JoinFront("v1", ["releases"] + b);
    JoinFront("", ["v1"] + (["releases"] + b));
    assert [""] + (["v1"] + (["releases"] + b)) == ["", "v1", "releases", t.version, "download", t.file];
    Prefixed(t.version + "/" + ("download" + "/" + t.file));
    assert t.version + "/" + ("download" + "/" + t.file) == t.version + "/download/" + t.file;
  }

  lemma JoinOne(s: string)
    ensures Join('/', [s]) == s
  {}

  lemma Prefixed(s: string)
    ensures "" + "/" + ("v1" + "/" + ("releases" + "/" + s)) == "/v1/releases/" + s
  {}

  // ---- Versions and download names are segments ----------------------------------------

  lemma VersionChars(v: string)
    requires Versions.MatchesPattern(v)
    ensures v != "" && v[0] == 'v' && forall i | 0 <= i < |v| :: SegmentChar(v[i])
  {
    hide Split;
    var rest := v[1..];
    forall i | 0 <= i < |v|
      ensures SegmentChar(v[i])
    {
      if i > 0 {
        SplitChars('.', rest, i - 1);
        assert rest[i - 1] == v[i];
      }
    }
  }

  lemma DownloadChars(v: string, d: string)
    requires v != "" && (forall i | 0 <= i < |v| :: SegmentChar(v[i])) && d == "dar-" + v[1..] + ".zip"
    ensures d[0] == 'd' && forall i | 0 <= i < |d| :: SegmentChar(d[i])
  {
    forall i | 0 <= i < |d|
      ensures SegmentChar(d[i])
    {
      if i < 4 {
        assert d[i] == "dar-"[i];
      } else if i < |v| + 3 {
        assert d[i] == v[i - 3];
      } else {
        assert d[i] == ".zip"[i - |v| - 3];
      }
    }
  }

  /** The two segments of a valid plan's link fit the route if and only if they are
      short enough. */
  lemma PlanSegments(cfg: Config, p: Plan)
    requires ValidPlan(cfg, p)
    ensures IsSegment(p.source.version, MAX_VERSION_SEGMENT) <==> |p.source.version| <= MAX_VERSION_SEGMENT
    ensures IsSegment(p.source.download, MAX_FILE_SEGMENT) <==> |p.source.download| <= MAX_FILE_SEGMENT
    ensures '/' !in p.source.version && '/' !in p.source.download
  {
    hide Versions.MatchesPattern, BatchesOf, Ascending;
    VersionChars(p.source.version);
    DownloadChars(p.source.version, p.source.download);
  }

  // ---- Every link leads to its archive ----------------------------------------------------

  function LinkPath(version: string, file: string): string { "/v1/releases/" + version + "/download/" + file }

  /** A path of a plan's link is taken apart in only one way, if it is taken. */
  lemma RouteOfPlan(cfg: Config, p: Plan)
    requires ValidPlan(cfg, p) && |p.source.download| <= MAX_DOWNLOAD_NAME
    ensures Route(LinkPath(p.source.version, p.source.download)) ==
      if |p.source.version| <= MAX_VERSION_SEGMENT then Some(Target(p.source.version, p.source.download)) else None
  {
    hide ValidPlan, IsSegment, Split, Join;
    var t := Target(p.source.version, p.source.download);
    var path := LinkPath(t.version, t.file);
    PlanSegments(cfg, p);
    Spelled(t);
    SplitOfJoin('/', ["", "v1", "releases", t.version, "download", t.file]);
  }

  /** The target's blob is stored, and it is the archive that the manifest of the
      message refers to. */
  ghost predicate Fetches(cfg: Config, s: State, t: Target, m: Message) {
    var name := ArchiveName(t.version, t.file);
    && name in s.blobs && m.manifest.name in s.blobs
    && s.blobs[m.manifest.name].body.ManifestBody?
    && s.blobs[m.manifest.name].body.manifest.dar
       == RefOf(cfg, name, s.blobs[name].body, s.blobs[name].version)
    && Sha(s.blobs[name].body) == m.op.source.dar
  }

  lemma ArchiveIsThere(cfg: Config, s: State, k: nat)
    requires Inv(cfg, s) && k < |s.queue| && SentInv(cfg, s, s.queue[k])
    ensures var p := s.runs[s.queue[k].run].plan;
      Fetches(cfg, s, Target(p.source.version, p.source.download), s.queue[k].message)
  {
    hide BatchesOf, AllObtained, PcInv, CellInv, CommitInv, RowsOf, Versions.MatchesPattern, Ascending;
    var sent := s.queue[k];
    var r := s.runs[sent.run];
    assert RunInv(cfg, s, r, sent.run);
    StagesAreBacked(cfg, s.blobs, r);
  }

  /** Every message ever queued: behind its publisher's origin, its link is a path
      that the download route takes if and only if the version has at most 96
      characters; the route then looks for exactly the name under which the
      archive of the message's manifest is stored. */
  lemma LinkLeadsToArchive(cfg: Config, run: seq<State>, i: nat, k: nat) returns (origin: string, path: string)
    requires IsRun(cfg, run) && i < |run| && k < |run[i].queue|
    ensures var s, m := run[i], run[i].queue[k].message;
      && s.queue[k].run < |s.runs| && origin == s.runs[s.queue[k].run].plan.settings.origin
      && m.url == origin + path
      && (Route(path).Some? <==> |m.version| <= MAX_VERSION_SEGMENT)
      && (Route(path).Some? ==> Fetches(cfg, s, Route(path).value, m))
  {
    hide IsRun, BatchesOf, AllObtained, PcInv, CellInv, CommitInv, RowsOf, Route, ValidPlan, Fetches;
    Reachable(cfg, run, i);
    var s, sent := run[i], run[i].queue[k];
    assert SentInv(cfg, s, sent) && MessageAccepted(cfg, sent.message);
    var r := s.runs[sent.run];
    assert RunInv(cfg, s, r, sent.run);
    origin, path := r.plan.settings.origin, LinkPath(r.plan.source.version, r.plan.source.download);
    RouteOfPlan(cfg, r.plan);
    ArchiveIsThere(cfg, s, k);
  }

  /** Longer versions are published all the same, with links that lead nowhere. */
  lemma LongVersionHasDeadLink(v: string) returns (run: seq<State>, k: nat, path: string)
    requires Versions.MatchesPattern(v) && MAX_VERSION_SEGMENT < |v| <= 120
    ensures IsRun(SMALL, run)
    ensures var queue := run[|run| - 1].queue;
      && k < |queue| && queue[k].message.version == v
      && queue[k].message.url == ORIGIN + path && Route(path) == None
  {
    hide Inv, CanStep, ReplayStep, ValidPlan, BatchesOf, Blocked, Route, Versions.MatchesPattern, IsPublished;
    PatternIsSome(v);
    var one := [Batches.Recipient("a@x.io", "A", "B")];
    var p := PlanOf(v, ORIGIN, one);
    PlanIsValid(v, ORIGIN, one);
    SmallIsBlockedOnlyByBodies(v, ORIGIN, one, INITIAL);
    EmptyIsInvariant(SMALL);
    var r;
    run, r := UnblockedCompletes(SMALL, p, INITIAL, ONE_ID);
    ReplayIsPath(SMALL, p, run);
    k := FirstIsSent(SMALL, run[|run| - 1], r);
    QueuedIsDeliverable(SMALL, run[|run| - 1], k);
    path := LinkPath(p.source.version, p.source.download);
    RouteOfPlan(SMALL, p);
  }
}

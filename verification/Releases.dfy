/** What a publication is made of (internal/publication/publisher.go): the plan,
    the blobs it writes, the references it hands on and the queue messages.
    JSON documents are their contents, digests and operation identifiers are
    injective, and a blob name is its parts. */
module Releases {
  import opened Basics
  import opened Batches
  import Versions

  datatype Source = Source(path: string, dar: Digest, darSize: int, download: string, release: string, version: string)

  /** The digest of repository, commit and source. */
  datatype OperationId = OperationId(repository: string, commit: string, source: Source)

  datatype Digest = Sha(body: Body)

  datatype Name =
    | IdentityName(release: string, version: string)
    | ArchiveName(version: string, download: string)
    | ManifestName(release: string, op: OperationId)
    | BatchBlobName(op: OperationId, index: nat)
    | CurrentName(release: string)

  datatype Body =
    | IdentityBody(commit: string, op: OperationId, repository: string, source: Source)
    | ArchiveBody(bytes: string)
    | ManifestBody(manifest: Manifest)
    | BatchBody(rows: seq<Recipient>)

  datatype Ref = Ref(name: Name, digest: Digest, size: int, version: string)

  datatype Manifest = Manifest(
    dar: Ref, download: string, op: OperationId, publishedAt: string, release: string, version: string,
    repository: string, commit: string)

  datatype MessageId = MessageId(op: OperationId, index: nat)

  datatype Message = Message(
    url: string, createdAt: string, manifest: Ref, id: MessageId, op: OperationId,
    batchCount: nat, batchIndex: nat, batch: Ref, recipientCount: int,
    release: string, version: string, commit: string)

  const MAX_BATCHES := 10000
  const MAX_BATCH_SIZE := 10
  const MAX_ARCHIVE_BYTES := 256 * 1024 * 1024
  const MAX_MANIFEST_BYTES := 64 * 1024
  const MAX_MESSAGE_BYTES := 64 * 1024
  const MAX_ARTIFACT_BYTES := 1024 * 1024 * 1024
  const MAX_DOWNLOAD_NAME := 127
  const MAX_VERSION_ID := 128

  /** How long documents are when they are encoded, and the verdict of the text
      patterns on settings, commit, creation time, release id and recipients. */
  datatype Config = Config(sizeOf: Body -> int, messageSize: Message -> int, wellFormed: Plan -> bool)

  type BatchSize = n: nat | 1 <= n <= MAX_BATCH_SIZE witness 1

  /** What a publisher is configured with; publishers may differ. The repository is
      taken in lower case and the origin without its final slash, as they are used. */
  datatype Settings = Settings(repository: string, origin: string, batchSize: BatchSize)

  /** A request to a publisher, with the bytes of the archive file it names. */
  datatype Plan = Plan(
    settings: Settings, source: Source, commit: string, createdAt: string, recipients: seq<Recipient>, archive: string)

  function BatchesOf(p: Plan): nat {
    BatchCount(|p.recipients|, p.settings.batchSize)
  }

  /** The byte order of texts. */
  predicate Before(s: string, t: string) {
    t != "" && (s == "" || s[0] < t[0] || (s[0] == t[0] && Before(s[1..], t[1..])))
  }

  /** Each address comes after the one before it. */
  predicate Ascending(rs: seq<Recipient>) { forall i | 0 < i < |rs| :: Before(rs[i - 1].email, rs[i].email) }

  /** What the plan step verifies about source, archive file and recipients. */
  predicate ValidPlan(cfg: Config, p: Plan) {
    && cfg.wellFormed(p)
    && Versions.MatchesPattern(p.source.version)
    && p.source.download == "dar-" + p.source.version[1..] + ".zip"
    && p.source.path == "releases/" + p.source.version + "/" + p.source.download
    && p.source.dar == Sha(ArchiveBody(p.archive))
    && p.source.darSize == cfg.sizeOf(ArchiveBody(p.archive))
    && 1 <= p.source.darSize <= MAX_ARCHIVE_BYTES
    && p.recipients != [] && Ascending(p.recipients)
    && BatchesOf(p) <= MAX_BATCHES
  }

  function OperationOf(p: Plan): OperationId { OperationId(p.settings.repository, p.commit, p.source) }

  /** An operation is one repository, commit and source. */
  lemma OperationIsInjective(p: Plan, q: Plan)
    ensures OperationOf(p) == OperationOf(q) <==>
      p.settings.repository == q.settings.repository && p.commit == q.commit && p.source == q.source
  {}

  function IdentityOf(p: Plan): Body {
    IdentityBody(p.commit, OperationOf(p), p.settings.repository, p.source)
  }

  function ManifestOf(p: Plan, dar: Ref): Body {
    ManifestBody(Manifest(dar, p.source.download, OperationOf(p), p.createdAt, p.source.release, p.source.version,
                          p.settings.repository, p.commit))
  }

  function RowsOf(p: Plan, k: nat): seq<Recipient>
    requires k < BatchesOf(p)
  {
    BatchStarts(|p.recipients|, p.settings.batchSize, k);
    Slice(p.recipients, p.settings.batchSize, k)
  }

  /** The reference under which a blob of this name and body is handed on. */
  function RefOf(cfg: Config, name: Name, body: Body, version: string): Ref {
    Ref(name, Sha(body), cfg.sizeOf(body), version)
  }

  // ---- The stages of a publication -------------------------------------------------

  datatype Blob = Blob(name: Name, body: Body)

  /** Identity, archive, manifest and batches come before any message. */
  function Stages(p: Plan): nat {
    3 + BatchesOf(p)
  }

  /** The blob that is due once the earlier ones are stored as `got`; after the
      batches it is the release's current manifest. */
  function Due(p: Plan, got: seq<Ref>): Blob
    requires |got| <= Stages(p)
  {
    var k, op := |got|, OperationOf(p);
    if k == 0 then Blob(IdentityName(p.source.release, p.source.version), IdentityOf(p))
    else if k == 1 then Blob(ArchiveName(p.source.version, p.source.download), ArchiveBody(p.archive))
    else if k == 2 then Blob(ManifestName(p.source.release, op), ManifestOf(p, got[1]))
    else if k < Stages(p) then Blob(BatchBlobName(op, k - 3), BatchBody(RowsOf(p, k - 3)))
    else Blob(CurrentName(p.source.release), ManifestOf(p, got[1]))
  }

  function UrlAt(origin: string, version: string, download: string): string {
    origin + ("/v1/releases/" + version + "/download/" + download)
  }

  /** queueRequest: the message of batch `i`. */
  function MessageOf(p: Plan, got: seq<Ref>, i: nat): Message
    requires i < BatchesOf(p) && Stages(p) <= |got|
  {
    var op := OperationOf(p);
    Message(UrlAt(p.settings.origin, p.source.version, p.source.download),
            p.createdAt, got[2], MessageId(op, i), op,
            BatchesOf(p), i, got[3 + i], BatchRecipientCount(i, |p.recipients|, p.settings.batchSize),
            p.source.release, p.source.version, p.commit)
  }

  // ---- The contracts of generated documents --------------------------------------------

  predicate ManifestSized(size: int) { 1 <= size <= MAX_MANIFEST_BYTES }

  predicate ValidVersionId(v: string) { 1 <= |v| <= MAX_VERSION_ID && ControlFree(v) }

  /** What ParsePublishedManifest can still refuse in a manifest made from a plan:
      the download name and the archive's version id have limits of their own. */
  predicate ManifestAccepted(cfg: Config, m: Manifest) {
    && |m.download| <= MAX_DOWNLOAD_NAME && ValidVersionId(m.dar.version)
    && ManifestSized(cfg.sizeOf(ManifestBody(m)))
  }

  predicate RefAccepted(ref: Ref) { ValidVersionId(ref.version) && 1 <= ref.size <= MAX_ARTIFACT_BYTES }

  /** What ParseQueueMessage can still refuse in a message made from a plan. */
  predicate MessageAccepted(cfg: Config, m: Message) {
    && |m.op.source.download| <= MAX_DOWNLOAD_NAME && RefAccepted(m.manifest) && RefAccepted(m.batch)
    && 1 <= cfg.messageSize(m) <= MAX_MESSAGE_BYTES
  }

  // ---- The contents a completed publication stands for ------------------------------

  /** The body that plan `p` puts at `name`, if any, once the store has given the
      archive the version `version`. */
  function Wanted(cfg: Config, p: Plan, version: string, name: Name): Option<Body> {
    var s, op := p.source, OperationOf(p);
    var dar := RefOf(cfg, ArchiveName(s.version, s.download), ArchiveBody(p.archive), version);
    match name
    case IdentityName(r, v) => if r == s.release && v == s.version then Some(IdentityOf(p)) else None
    case ArchiveName(v, d) => if v == s.version && d == s.download then Some(ArchiveBody(p.archive)) else None
    case ManifestName(r, o) => if r == s.release && o == op then Some(ManifestOf(p, dar)) else None
    case BatchBlobName(o, i) => if o == op && i < BatchesOf(p) then Some(BatchBody(RowsOf(p, i))) else None
    case CurrentName(r) => if r == s.release then Some(ManifestOf(p, dar)) else None
  }

  /** The archive reference inside `got`, once there is one, is this version. */
  predicate DarIs(cfg: Config, p: Plan, got: seq<Ref>, version: string) {
    |got| > 1 ==>
      got[1] == RefOf(cfg, ArchiveName(p.source.version, p.source.download), ArchiveBody(p.archive), version)
  }

  lemma DueIsWanted(cfg: Config, p: Plan, got: seq<Ref>, version: string)
    requires |got| <= Stages(p) && DarIs(cfg, p, got, version)
    ensures var b := Due(p, got); Wanted(cfg, p, version, b.name) == Some(b.body)
  {}

  /** The stage at which a wanted name falls due. */
  function StageOf(cfg: Config, p: Plan, name: Name): (k: nat)
    requires exists v :: Wanted(cfg, p, v, name).Some?
    ensures k <= Stages(p)
    ensures forall got: seq<Ref> | |got| == k :: Due(p, got).name == name
  {
    match name
    case IdentityName(_, _) => 0
    case ArchiveName(_, _) => 1
    case ManifestName(_, _) => 2
    case BatchBlobName(_, i) => 3 + i
    case CurrentName(_) => Stages(p)
  }

  lemma CountIsRows(p: Plan, k: nat)
    requires k < BatchesOf(p)
    ensures |RowsOf(p, k)| == BatchRecipientCount(k, |p.recipients|, p.settings.batchSize)
  {
    BatchStarts(|p.recipients|, p.settings.batchSize, k);
    StartIsProduct(k, p.settings.batchSize);
  }

  // ---- The messages it stands for ------------------------------------------------------

  /** The version ids under which blobs are stored, or will be. */
  type Ids = Name -> string

  /** The message of batch `i` of plan `p`, once its blobs have these ids. */
  function WantedMessage(cfg: Config, p: Plan, ids: Ids, i: nat): Message
    requires i < BatchesOf(p)
  {
    var s, op := p.source, OperationOf(p);
    var archive, manifest := ArchiveName(s.version, s.download), ManifestName(s.release, op);
    var batch := BatchBlobName(op, i);
    var dar := RefOf(cfg, archive, ArchiveBody(p.archive), ids(archive));
    Message(UrlAt(p.settings.origin, s.version, s.download), p.createdAt,
            RefOf(cfg, manifest, ManifestOf(p, dar), ids(manifest)), MessageId(op, i), op,
            BatchesOf(p), i, RefOf(cfg, batch, BatchBody(RowsOf(p, i)), ids(batch)), |RowsOf(p, i)|,
            s.release, s.version, p.commit)
  }

  // ---- Recipients are listed once ----------------------------------------------------------

  lemma {:induction false} BeforeIsStrict(a: string, b: string, c: string)
    ensures !Before(a, a)
    ensures Before(a, b) && Before(b, c) ==> Before(a, c)
  {
    if a != "" && b != "" && c != "" { BeforeIsStrict(a[1..], b[1..], c[1..]); }
    if a != "" && (b == "" || c == "") { BeforeIsStrict(a[1..], "", ""); }
  }

  lemma {:induction false} AscendingIsOrdered(rs: seq<Recipient>, i: nat, j: nat)
    requires Ascending(rs) && i < j < |rs|
    ensures Before(rs[i].email, rs[j].email)
  {
    hide Before;
    if i + 1 < j {
      AscendingIsOrdered(rs, i, j - 1);
      BeforeIsStrict(rs[i].email, rs[j - 1].email, rs[j].email);
    }
  }

  lemma RowIsListed(p: Plan, i: nat, a: nat)
    requires i < BatchesOf(p) && a < |RowsOf(p, i)|
    ensures var x := Start(i, p.settings.batchSize) + a;
      && x < |p.recipients| && a < p.settings.batchSize && RowsOf(p, i)[a] == p.recipients[x]
  {
    hide BatchCount, Start;
    BatchStarts(|p.recipients|, p.settings.batchSize, i);
  }

  /** No address is in two batches of one plan. */
  lemma BatchesAreDisjoint(p: Plan, i: nat, j: nat, a: nat, b: nat)
    requires Ascending(p.recipients) && i < j < BatchesOf(p) && a < |RowsOf(p, i)| && b < |RowsOf(p, j)|
    ensures RowsOf(p, i)[a].email != RowsOf(p, j)[b].email
  {
    hide Before, Ascending, BatchesOf, RowsOf, Start;
    var size := p.settings.batchSize;
    RowIsListed(p, i, a);
    RowIsListed(p, j, b);
    StartsAscend(i, j, size);
    var x, y := Start(i, size) + a, Start(j, size) + b;
    AscendingIsOrdered(p.recipients, x, y);
    BeforeIsStrict(p.recipients[x].email, "", "");
  }
}

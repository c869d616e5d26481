/** From the publisher to the mailbox: what a publisher puts into the queue is
    what a worker makes a delivery of, recipient by recipient. Publication and
    notification share the blob store, the queue and the document encodings. */
module EndToEnd {
  import opened Basics
  import opened Batches
  import Rows
  import R = Releases
  import P = Publishers
  import opened PublicationGuarantees
  import Receipts
  import Mail
  import RowProtocol
  import Ledgers
  import J = Journal
  import Guarantees

  /** How documents look on the wire: message and operation identifiers, messages
      and blob bodies as text, and exact blob versions as keys. */
  datatype Wire = Wire(
    id: R.MessageId -> string,
    operation: R.OperationId -> string,
    message: R.Message -> string,
    body: R.Body -> string,
    ref: R.Ref -> nat,
    rows: Codec)

  /** The message as a worker reads it. */
  function Received(wire: Wire, m: R.Message): J.QueueMessage {
    J.QueueMessage(RowProtocol.Message(wire.operation(m.op), m.release, m.version, wire.id(m.id), true),
                   m.commit, wire.ref(m.manifest), wire.ref(m.batch), m.recipientCount)
  }

  /** The encodings are lossless: what was written is what is read. */
  ghost predicate Lossless(env: J.Env, wire: Wire) {
    && (forall m :: env.parseMessage(wire.message(m), wire.id(m.id)) == Some(Received(wire, m)))
    && (forall mf: R.Manifest :: env.parseManifest(wire.body(R.ManifestBody(mf)))
                      == Some(J.Manifest(wire.operation(mf.op), mf.release, mf.version, mf.commit)))
    && (forall rows :: wire.body(R.BatchBody(rows)) == Body(wire.rows, rows))
    && env.parseRecipient == wire.rows.parse
  }

  /** The workers read the publishers' store. */
  ghost predicate SharedStore(cfg: R.Config, blobs: map<R.Name, P.Cell>, env: J.Env, wire: Wire) {
    forall ref, body | P.Backed(cfg, blobs, ref, body) ::
      wire.ref(ref) in env.content && env.content[wire.ref(ref)] == wire.body(body)
  }

  lemma SentIsBacked(cfg: R.Config, s: P.State, k: nat)
    requires P.Inv(cfg, s) && k < |s.queue|
    ensures var m := s.queue[k].message;
      && P.Backed(cfg, s.blobs, m.batch, R.BatchBody(RowsSent(cfg, s, k)))
      && |RowsSent(cfg, s, k)| == m.recipientCount && RowsSent(cfg, s, k) != []
      && exists mf :: P.Backed(cfg, s.blobs, m.manifest, R.ManifestBody(mf))
                      && Describes(cfg, s.blobs, mf, m)
  {
    hide R.BatchesOf, R.RowsOf, P.AllObtained, P.CellInv, P.CommitInv;
    var sent := s.queue[k];
    assert P.SentInv(cfg, s, sent);
    var run := s.runs[sent.run];
    assert P.RunInv(cfg, s, run, sent.run);
    BatchIsBacked(cfg, s.blobs, run, sent.index);
    QueuedIsDeliverable(cfg, s, k);
    R.CountIsRows(run.plan, sent.index);
    RowsAreSome(run.plan, sent.index);
  }

  lemma RowsAreSome(p: R.Plan, i: nat)
    requires i < R.BatchesOf(p)
    ensures R.RowsOf(p, i) != []
  {
    BatchStarts(|p.recipients|, p.settings.batchSize, i);
  }

  /** Every message ever queued, in every run of any publishers: a worker that
      receives it and can read its blobs makes of it a delivery to exactly the
      recipients of the plan's slice, in order, if and only if every encoded row
      leaves room for its newline; otherwise the message is dead-lettered. */
  lemma QueuedIsReady(cfg: R.Config, run: seq<P.State>, i: nat, k: nat, env: J.Env, wire: Wire,
                      options: RowProtocol.Options, key: string)
    requires P.IsRun(cfg, run) && i < |run| && k < |run[i].queue|
    requires Lossless(env, wire) && SharedStore(cfg, run[i].blobs, env, wire)
    requires AllEncode(wire.rows, RowsSent(cfg, run[i], k))
    ensures var m, rows := run[i].queue[k].message, RowsSent(cfg, run[i], k);
      var d := J.Delivery(wire.id(m.id), wire.message(m), options, key);
      J.Prepare(env, d, J.Arrived, J.Arrived, true, true) ==
        if RowsFit(wire.rows, rows)
        then J.Ready(J.Job(Received(wire, m), options, key, J.Identify(env.mac, key, rows), 0, 0, 0))
        else J.Refuse(Mail.DeadLetter, Receipts.ReferencedBlobInvalid, 0)
  {
    hide P.IsRun, P.Inv, ScanBatch, Body, AllEncode, RowsFit, RowsSent, J.Prepare;
    P.Reachable(cfg, run, i);
    var s := run[i];
    SentIsBacked(cfg, s, k);
    var m, rows := s.queue[k].message, RowsSent(cfg, s, k);
    var mf :| P.Backed(cfg, s.blobs, m.manifest, R.ManifestBody(mf))
              && Describes(cfg, s.blobs, mf, m);
    assert env.content[wire.ref(m.batch)] == Body(wire.rows, rows);
    assert env.content[wire.ref(m.manifest)] == wire.body(R.ManifestBody(mf));
    ReadBackNeedsRoom(wire.rows, rows);
    PrepareReads(env, J.Delivery(wire.id(m.id), wire.message(m), options, key), Received(wire, m),
                 J.Manifest(wire.operation(mf.op), mf.release, mf.version, mf.commit), rows, RowsFit(wire.rows, rows));
  }

  /** What Process prepares when every document can be read. */
  lemma PrepareReads(env: J.Env, d: J.Delivery, q: J.QueueMessage, mf: J.Manifest, rows: seq<Recipient>, fit: bool)
    requires env.parseMessage(d.body, d.brokerId) == Some(q) && J.ManifestMatches(mf, q)
    requires q.manifest in env.content && env.parseManifest(env.content[q.manifest]) == Some(mf)
    requires q.batch in env.content && |rows| == q.recipientCount
    requires ScanBatch(env.parseRecipient, env.content[q.batch]) == if fit then Some(rows) else None
    ensures J.Prepare(env, d, J.Arrived, J.Arrived, true, true) ==
      if fit then J.Ready(J.Job(q, d.options, d.key, J.Identify(env.mac, d.key, rows), 0, 0, 0))
      else J.Refuse(Mail.DeadLetter, Receipts.ReferencedBlobInvalid, 0)
  {
    hide ScanBatch, J.Identify;
  }

  /** With the canonical rows that the publisher accepts, there is nothing left to
      assume: the delivery is ready if and only if no row has exactly 1024 bytes. */
  lemma AcceptedIsReady(cfg: R.Config, run: seq<P.State>, i: nat, k: nat, env: J.Env, wire: Wire,
                        options: RowProtocol.Options, key: string)
    requires P.IsRun(cfg, run) && i < |run| && k < |run[i].queue|
    requires Lossless(env, wire) && SharedStore(cfg, run[i].blobs, env, wire) && wire.rows == Rows.RowCodec()
    requires forall r | 0 <= r < |RowsSent(cfg, run[i], k)| :: Rows.Accepted(RowsSent(cfg, run[i], k)[r])
    ensures var m, rows := run[i].queue[k].message, RowsSent(cfg, run[i], k);
      var d := J.Delivery(wire.id(m.id), wire.message(m), options, key);
      J.Prepare(env, d, J.Arrived, J.Arrived, true, true) ==
        if exists r :: 0 <= r < |rows| && |Rows.EncodeRow(rows[r])| == Rows.MAX_ROW
        then J.Refuse(Mail.DeadLetter, Receipts.ReferencedBlobInvalid, 0)
        else J.Ready(J.Job(Received(wire, m), options, key, J.Identify(env.mac, key, rows), 0, 0, 0))
  {
    hide P.IsRun, Lossless, SharedStore, RowsSent, J.Prepare, Encodes, Rows.Accepted, Rows.EncodeRow, Rows.IsRecipient;
    var rows := RowsSent(cfg, run[i], k);
    forall r | 0 <= r < |rows|
      ensures Encodes(wire.rows, rows[r]) && |Rows.EncodeRow(rows[r])| <= Rows.MAX_ROW
    {
      Rows.AcceptedExactly(rows[r]);
    }
    QueuedIsReady(cfg, run, i, k, env, wire, options, key);
  }

  /** The receipt path of a recipient under a message. */
  function PathFor(env: J.Env, wire: Wire, m: R.Message, keyVersion: string, key: string, r: Recipient)
    : RowProtocol.Path
  {
    RowProtocol.Path(m.release, wire.operation(m.op), keyVersion, env.mac(key, r.email))
  }

  /** And when some worker, in any run of any workers, reports a delivery of that
      message Complete, every recipient of the plan's slice has a delivered
      receipt, and keeps it in every later state. */
  lemma CompleteReachesThePlan(cfg: R.Config, run: seq<P.State>, i: nat, k: nat, env: J.Env, wire: Wire,
                               work: seq<J.State>, a: nat, b: nat, w: Ledgers.WorkerId)
    requires P.IsRun(cfg, run) && i < |run| && k < |run[i].queue|
    requires Lossless(env, wire) && SharedStore(cfg, run[i].blobs, env, wire)
    requires AllEncode(wire.rows, RowsSent(cfg, run[i], k)) && RowsFit(wire.rows, RowsSent(cfg, run[i], k))
    requires J.ValidEnv(env) && J.IsRun(env, work) && a <= b < |work|
    requires var x := J.WorkerAt(work[a], w);
      && x.Settled? && x.result.disposition == Mail.Complete
      && x.finished.Some? && x.finished.value.message == Received(wire, run[i].queue[k].message)
    ensures var m, rows := run[i].queue[k].message, RowsSent(cfg, run[i], k);
      var job := J.WorkerAt(work[a], w).finished.value;
      forall r | 0 <= r < |rows| ::
        Ledgers.Delivered(J.At(work[b], PathFor(env, wire, m, job.options.keyVersion, job.key, rows[r])))
  {
    hide P.IsRun, P.Inv, J.IsRun, ScanBatch, Body, AllEncode, RowsFit, RowsSent, Ledgers.Delivered;
    P.Reachable(cfg, run, i);
    var s := run[i];
    SentIsBacked(cfg, s, k);
    var m, rows := s.queue[k].message, RowsSent(cfg, s, k);
    var job := J.WorkerAt(work[a], w).finished.value;
    assert env.content[wire.ref(m.batch)] == Body(wire.rows, rows);
    ReadBackNeedsRoom(wire.rows, rows);
    forall r | 0 <= r < |rows|
      ensures Ledgers.Delivered(J.At(work[b], PathFor(env, wire, m, job.options.keyVersion, job.key, rows[r])))
    {
      Guarantees.CompleteMeansDelivered(env, work, a, b, w, r);
      assert job.recipients == J.Identify(env.mac, job.key, rows);
      assert J.JobPath(job, r) == PathFor(env, wire, m, job.options.keyVersion, job.key, rows[r]);
      SameCellSameDelivery(J.At(work[a], J.JobPath(job, r)), J.At(work[b], J.JobPath(job, r)));
    }
  }

  lemma SameCellSameDelivery(l: Ledgers.Ledger, l': Ledgers.Ledger)
    requires Ledgers.Delivered(l) && l'.cell == l.cell
    ensures Ledgers.Delivered(l')
  {}
}

/** Everything that ever happened at one receipt path: the blob itself, the
    writes that committed, and the mail calls that were made. The invariants
    here are about one path; Journal.dfy composes them over all paths and all
    interleavings. */
module Ledgers {
  import opened Basics
  import opened Receipts
  import opened Mail
  import opened RowProtocol

  type WorkerId = nat

  /** A committed write and the worker that made it. */
  datatype Commit = Commit(receipt: Receipt, etag: ETag, author: WorkerId)

  /** A mail call made on the authority of the SEND_STARTED receipt with the
      given version; `result` stays None while, or if ever, it is unanswered. */
  datatype Send = Send(version: int, author: WorkerId, result: Option<MailResult>)

  datatype Ledger = Ledger(cell: Option<Stored>, commits: seq<Commit>, sends: seq<Send>)

  const EMPTY := Ledger(None, [], [])

  // ---- The store's conditional write and the mail call -------------------

  predicate ConditionHolds(l: Ledger, base: Option<Stored>) { Admits(l.cell, TagOf(base)) }

  predicate FreshTag(l: Ledger, etag: ETag) {
    forall i | 0 <= i < |l.commits| :: l.commits[i].etag != etag
  }

  function Write(l: Ledger, next: Receipt, etag: ETag, author: WorkerId): Ledger {
    Ledger(Some(Stored(next, etag)), l.commits + [Commit(next, etag, author)], l.sends)
  }

  function CallMailer(l: Ledger, version: int, author: WorkerId): Ledger {
    l.(sends := l.sends + [Send(version, author, None)])
  }

  function AnswerCall(l: Ledger, ticket: nat, m: MailResult): Ledger {
    if ticket < |l.sends| then l.(sends := l.sends[ticket := l.sends[ticket].(result := Some(m))]) else l
  }

  // ---- Invariant of one path ---------------------------------------------

  ghost predicate IntentAt(p: Path, i: Intent) {
    && i.releaseId == p.releaseId && i.operationId == p.operationId
    && i.keyVersion == p.keyVersion && i.recipientId == p.recipientId
  }

  /** The committed receipts walk the transition graph from version 1. */
  ghost predicate Chain(p: Path, limit: int, c: seq<Commit>) {
    && (forall i | 0 <= i < |c| :: Shape(c[i].receipt, limit) && c[i].receipt.version == i + 1)
    && (forall i | 0 <= i < |c| :: IntentAt(p, c[i].receipt.intent))
    && (|c| > 0 ==> First(c[0].receipt))
    && (forall i | 0 < i < |c| :: Edge(c[i - 1].receipt, c[i].receipt))
    && (forall i, j | 0 <= i < j < |c| :: c[i].etag != c[j].etag)
  }

  ghost predicate CellIsLast(l: Ledger) {
    if l.commits == [] then l.cell == None
    else var c := l.commits[|l.commits| - 1]; l.cell == Some(Stored(c.receipt, c.etag))
  }

  /** Each mail call has its own committed SEND_STARTED, made by its caller. */
  ghost predicate OwnStart(l: Ledger, s: Send) {
    && 1 <= s.version <= |l.commits|
    && l.commits[s.version - 1].receipt.status == SendStarted
    && l.commits[s.version - 1].author == s.author
  }

  ghost predicate SendsOrdered(l: Ledger) {
    && (forall k | 0 <= k < |l.sends| :: OwnStart(l, l.sends[k]))
    && (forall j, k | 0 <= j < k < |l.sends| :: l.sends[j].version < l.sends[k].version)
  }

  /** Some mail call for `version` was answered with what `r` records. */
  ghost predicate AnsweredAs(l: Ledger, version: int, r: Receipt) {
    exists k :: 0 <= k < |l.sends| && l.sends[k].version == version
                && l.sends[k].result.Some? && Records(r, l.sends[k].result.value)
  }

  predicate NeedsAnswer(s: Status) { s == Retryable || s == Accepted || s == Simulated }

  /** No answer is journaled that the provider did not give. */
  ghost predicate Backed(l: Ledger) {
    forall i | 0 < i < |l.commits| && NeedsAnswer(l.commits[i].receipt.status) ::
      AnsweredAs(l, i, l.commits[i].receipt)
  }

  ghost predicate LedgerInv(p: Path, limit: int, l: Ledger) {
    Chain(p, limit, l.commits) && CellIsLast(l) && SendsOrdered(l) && Backed(l)
  }

  // ---- What a worker in the middle of a row may rely on ------------------

  ghost predicate Known(l: Ledger, s: Stored) {
    && 1 <= s.receipt.version <= |l.commits|
    && l.commits[s.receipt.version - 1].receipt == s.receipt
    && l.commits[s.receipt.version - 1].etag == s.etag
  }

  ghost predicate Unsent(l: Ledger, version: int) {
    forall k | 0 <= k < |l.sends| :: l.sends[k].version != version
  }

  /** The right to make the one mail call of a SEND_STARTED receipt. */
  ghost predicate MaySend(l: Ledger, w: WorkerId, s: Stored) {
    && Known(l, s) && s.receipt.status == SendStarted
    && l.commits[s.receipt.version - 1].author == w
    && Unsent(l, s.receipt.version)
  }

  /** The recipient's journal says, finally, that the mail was taken. */
  ghost predicate Delivered(l: Ledger) { l.cell.Some? && IsDelivered(l.cell.value.receipt.status) }

  /** What an upload's purpose says about the versions it connects. */
  ghost predicate Fits(l: Ledger, purpose: Purpose, base: Option<Stored>, next: Receipt) {
    match purpose
    case Claiming => base.None? && First(next)
    case Exhausting => base.Some? && next.status == Failed
    case Reclaiming => base.Some? && next.status == Claimed
    case Recovering => base.Some? && (next.status == Claimed || next.status == Unknown)
    case Starting => base.Some? && next.status == SendStarted
    case Finishing(disposition, _, _) =>
      && base.Some? && base.value.receipt.status == SendStarted
      && AnsweredAs(l, base.value.receipt.version, next)
      && (disposition == Complete ==> IsDelivered(next.status))
  }

  ghost predicate PcInv(p: Path, limit: int, l: Ledger, w: WorkerId, pc: Pc) {
    match pc
    case Fetching(_) => true
    case Refetching(_) => true
    case Uploading(_, purpose, base, next) =>
      && Shape(next, limit) && IntentAt(p, next.intent)
      && (base.Some? ==> Known(l, base.value) && Edge(base.value.receipt, next))
      && Fits(l, purpose, base, next)
    case Confirming(_, purpose, next, own) =>
      && Known(l, Stored(next, own)) && l.commits[next.version - 1].author == w
      && (purpose.Claiming? ==> next.status == Claimed)
      && (purpose.Starting? ==> MaySend(l, w, Stored(next, own)))
      && (purpose.Reclaiming? ==> next.status == Claimed)
      && (purpose.Recovering? ==> next.status == Claimed || next.status == Unknown)
      && (purpose.Finishing? && purpose.disposition == Complete ==> IsDelivered(next.status))
    case Mailing(_, stored) => MaySend(l, w, stored)
    case Awaiting(_, stored, ticket) =>
      && Known(l, stored) && stored.receipt.status == SendStarted
      && ticket < |l.sends| && l.sends[ticket].version == stored.receipt.version
      && l.sends[ticket].author == w && l.sends[ticket].result == None
    case RowDone(_, result) =>
      result.Skipped? || result.disposition == Complete ==> Delivered(l)
  }

  // ---- Consequences of the invariant --------------------------------------

  /** A conditional write that the store accepts replaces the newest receipt. */
  lemma ConditionMeansNewest(p: Path, limit: int, l: Ledger, b: Stored)
    requires LedgerInv(p, limit, l) && Known(l, b) && ConditionHolds(l, Some(b))
    ensures b.receipt.version == |l.commits|
  {
    var i, last := b.receipt.version - 1, |l.commits| - 1;
    assert l.commits[i].etag == l.commits[last].etag;
  }

  /** Nothing follows a terminal receipt. */
  lemma TerminalIsNewest(p: Path, limit: int, c: seq<Commit>, i: nat)
    requires Chain(p, limit, c) && i < |c| && IsTerminal(c[i].receipt.status)
    ensures i == |c| - 1
  {
    if i + 1 < |c| { EdgeAt(p, limit, c, i); }
  }

  lemma EdgeAt(p: Path, limit: int, c: seq<Commit>, i: nat)
    requires Chain(p, limit, c) && i + 1 < |c|
    ensures Edge(c[i].receipt, c[i + 1].receipt)
  {}

  /** A started send that something follows was followed by its retry. */
  lemma StartThenRetry(p: Path, limit: int, c: seq<Commit>, i: nat, j: nat)
    requires Chain(p, limit, c) && i < j < |c|
    requires c[i].receipt.status == SendStarted && c[j].receipt.status == SendStarted
    ensures i + 2 < |c| && i + 2 <= j
    ensures c[i + 1].receipt.status == Retryable && c[i + 1].receipt.attempt == c[i].receipt.attempt
    ensures c[i + 2].receipt.status == Claimed && c[i + 2].receipt.attempt == c[i].receipt.attempt + 1
  {
    EdgeAt(p, limit, c, i);
    if IsTerminal(c[i + 1].receipt.status) { TerminalIsNewest(p, limit, c, i + 1); }
    EdgeAt(p, limit, c, i + 1);
    if IsTerminal(c[i + 2].receipt.status) { TerminalIsNewest(p, limit, c, i + 2); }
  }

  lemma {:induction false} AttemptMonotone(p: Path, limit: int, c: seq<Commit>, i: nat, j: nat)
    requires Chain(p, limit, c) && i <= j < |c|
    ensures c[i].receipt.attempt <= c[j].receipt.attempt
  {
    if i < j {
      AttemptMonotone(p, limit, c, i, j - 1);
      EdgeAt(p, limit, c, j - 1);
    }
  }

  /** Two mail calls never share an attempt. */
  lemma AttemptGrows(p: Path, limit: int, c: seq<Commit>, i: nat, j: nat)
    requires Chain(p, limit, c) && i < j < |c|
    requires c[i].receipt.status == SendStarted && c[j].receipt.status == SendStarted
    ensures c[i].receipt.attempt < c[j].receipt.attempt
  {
    StartThenRetry(p, limit, c, i, j);
    AttemptMonotone(p, limit, c, i + 2, j);
  }

  /** A start that a later mail call overtook has had its own mail call. */
  lemma OvertakenWasSent(p: Path, limit: int, l: Ledger, v: int, k: nat)
    requires LedgerInv(p, limit, l)
    requires 1 <= v <= |l.commits| && l.commits[v - 1].receipt.status == SendStarted
    requires k < |l.sends| && l.sends[k].version > v
    ensures AnsweredAs(l, v, l.commits[v].receipt) && l.commits[v].receipt.status == Retryable
    ensures l.commits[v].receipt.attempt == l.commits[v - 1].receipt.attempt
  {
    hide Shape, Edge, IntentAt;
    assert OwnStart(l, l.sends[k]);
    StartThenRetry(p, limit, l.commits, v - 1, l.sends[k].version - 1);
  }

  /** The holder of a send right is the newest sender. */
  lemma MaySendIsNewest(p: Path, limit: int, l: Ledger, w: WorkerId, s: Stored)
    requires LedgerInv(p, limit, l) && MaySend(l, w, s)
    ensures forall k | 0 <= k < |l.sends| :: l.sends[k].version < s.receipt.version
  {
    forall k | 0 <= k < |l.sends|
      ensures l.sends[k].version < s.receipt.version
    {
      if l.sends[k].version > s.receipt.version {
        OvertakenWasSent(p, limit, l, s.receipt.version, k);
      }
    }
  }

  // ---- Every action keeps the invariant -----------------------------------

  lemma WriteKeepsChain(p: Path, limit: int, l: Ledger, w: WorkerId, base: Option<Stored>, next: Receipt, etag: ETag)
    requires LedgerInv(p, limit, l) && Shape(next, limit) && IntentAt(p, next.intent)
    requires if base.Some? then Known(l, base.value) && Edge(base.value.receipt, next) else First(next)
    requires ConditionHolds(l, base) && FreshTag(l, etag)
    ensures Chain(p, limit, Write(l, next, etag, w).commits) && next.version == |l.commits| + 1
    ensures base.Some? ==> base.value.receipt.version == |l.commits|
  {
    hide Shape, Backed, SendsOrdered;
    if base.Some? { ConditionMeansNewest(p, limit, l, base.value); }
  }

  lemma WriteKeepsBacked(l: Ledger, w: WorkerId, next: Receipt, etag: ETag)
    requires Backed(l) && SendsOrdered(l)
    requires NeedsAnswer(next.status) ==> AnsweredAs(l, |l.commits|, next)
    ensures Backed(Write(l, next, etag, w)) && SendsOrdered(Write(l, next, etag, w))
  {
    hide Records;
    var l' := Write(l, next, etag, w);
    forall k | 0 <= k < |l'.sends|
      ensures OwnStart(l', l'.sends[k])
    {
      assert OwnStart(l, l.sends[k]);
    }
    forall i | 0 < i < |l'.commits| && NeedsAnswer(l'.commits[i].receipt.status)
      ensures AnsweredAs(l', i, l'.commits[i].receipt)
    {
      if i < |l.commits| {
        assert AnsweredAs(l, i, l.commits[i].receipt);
      }
    }
  }

  lemma WriteKeeps(p: Path, limit: int, l: Ledger, w: WorkerId, row: Row, purpose: Purpose,
                   base: Option<Stored>, next: Receipt, etag: ETag)
    requires LedgerInv(p, limit, l) && PcInv(p, limit, l, w, Uploading(row, purpose, base, next))
    requires ConditionHolds(l, base) && FreshTag(l, etag)
    ensures LedgerInv(p, limit, Write(l, next, etag, w))
    ensures PcInv(p, limit, Write(l, next, etag, w), w, Confirming(row, purpose, next, etag))
  {
    hide Chain, Shape, Backed, Records;
    WriteKeepsChain(p, limit, l, w, base, next, etag);
    if NeedsAnswer(next.status) {
      assert AnsweredAs(l, base.value.receipt.version, next);
    }
    WriteKeepsBacked(l, w, next, etag);
    assert forall k | 0 <= k < |l.sends| :: OwnStart(l, l.sends[k]);
  }

  /** Mail calls are only added, and answers never change. */
  ghost predicate SendsKept(l: Ledger, l': Ledger) {
    && |l.sends| <= |l'.sends|
    && forall k | 0 <= k < |l.sends| ::
         && l'.sends[k].version == l.sends[k].version && l'.sends[k].author == l.sends[k].author
         && (l.sends[k].result.Some? ==> l'.sends[k].result == l.sends[k].result)
  }

  lemma AnswersKept(l: Ledger, l': Ledger)
    requires l'.commits == l.commits && SendsKept(l, l') && Backed(l)
    ensures Backed(l')
  {
    hide Records;
    forall i | 0 < i < |l'.commits| && NeedsAnswer(l'.commits[i].receipt.status)
      ensures AnsweredAs(l', i, l'.commits[i].receipt)
    {
      var r := l.commits[i].receipt;
      assert AnsweredAs(l, i, r);
      var k :| 0 <= k < |l.sends| && l.sends[k].version == i
               && l.sends[k].result.Some? && Records(r, l.sends[k].result.value);
      assert l'.sends[k].version == i && l'.sends[k].result == l.sends[k].result;
    }
  }

  lemma CallKeeps(p: Path, limit: int, l: Ledger, w: WorkerId, row: Row, stored: Stored)
    requires LedgerInv(p, limit, l) && MaySend(l, w, stored)
    ensures var l' := CallMailer(l, stored.receipt.version, w);
      LedgerInv(p, limit, l') && PcInv(p, limit, l', w, Awaiting(row, stored, |l.sends|))
  {
    hide Chain;
    MaySendIsNewest(p, limit, l, w, stored);
    var l' := CallMailer(l, stored.receipt.version, w);
    AnswersKept(l, l');
    forall k | 0 <= k < |l'.sends|
      ensures OwnStart(l', l'.sends[k])
    {
      if k < |l.sends| { assert OwnStart(l, l.sends[k]); }
    }
  }

  lemma AnswerKeepsLedger(p: Path, limit: int, l: Ledger, ticket: nat, m: MailResult)
    requires LedgerInv(p, limit, l) && ticket < |l.sends| && l.sends[ticket].result == None
    ensures LedgerInv(p, limit, AnswerCall(l, ticket, m))
  {
    hide Chain;
    var l' := AnswerCall(l, ticket, m);
    AnswersKept(l, l');
    forall k | 0 <= k < |l'.sends|
      ensures OwnStart(l', l'.sends[k])
    {
      assert OwnStart(l, l.sends[k]);
    }
  }

  lemma AnswerKeeps(p: Path, limit: int, l: Ledger, w: WorkerId, row: Row, stored: Stored,
                    ticket: nat, m: MailResult)
    requires LedgerInv(p, limit, l) && PcInv(p, limit, l, w, Awaiting(row, stored, ticket))
    requires limit <= MAX_ATTEMPTS
    ensures LedgerInv(p, limit, AnswerCall(l, ticket, m))
    ensures PcInv(p, limit, AnswerCall(l, ticket, m), w, AfterMail(row, stored, m))
  {
    hide LedgerInv, AfterMail;
    AnswerKeepsLedger(p, limit, l, ticket, m);
    AfterMailFits(p, limit, AnswerCall(l, ticket, m), w, row, stored, ticket, m);
  }

  lemma AfterMailFits(p: Path, limit: int, l: Ledger, w: WorkerId, row: Row, stored: Stored,
                      ticket: nat, m: MailResult)
    requires LedgerInv(p, limit, l) && Known(l, stored) && stored.receipt.status == SendStarted
    requires limit <= MAX_ATTEMPTS
    requires ticket < |l.sends| && l.sends[ticket] == Send(stored.receipt.version, w, Some(m))
    ensures PcInv(p, limit, l, w, AfterMail(row, stored, m))
  {
    var r := stored.receipt;
    assert Shape(r, limit) && IntentAt(p, r.intent);
    ApplySteps(r, m, row.now, limit);
    var a := ApplyMailResult(r, m, row.now);
    if a.updated.Some? {
      assert l.sends[ticket].version == r.version;
      assert AnsweredAs(l, r.version, a.updated.value);
    }
  }

  // ---- The code between two calls ----------------------------------------

  ghost predicate GoodRow(p: Path, limit: int, row: Row) {
    && PathOf(row) == p && ValidOptions(row.options)
    && row.options.maxAttempts <= limit <= MAX_ATTEMPTS
  }

  /** A read returns the blob as it is, or fails. */
  ghost predicate HonestRead(l: Ledger, read: Read) {
    match read
    case ReadFailed => true
    case Missing => l.cell.None?
    case Found(stored) => l.cell == Some(stored)
  }

  lemma CellIsKnown(p: Path, limit: int, l: Ledger)
    requires LedgerInv(p, limit, l) && l.cell.Some?
    ensures Known(l, l.cell.value)
  {}

  lemma BeginSendFits(p: Path, limit: int, l: Ledger, w: WorkerId, row: Row, stored: Stored)
    requires LedgerInv(p, limit, l) && GoodRow(p, limit, row) && Known(l, stored)
    ensures PcInv(p, limit, l, w, BeginSend(row, stored))
  {
    assert Shape(stored.receipt, limit) && IntentAt(p, stored.receipt.intent);
    StartSendSteps(stored.receipt, row.now, limit);
  }

  lemma RetryableFits(p: Path, limit: int, l: Ledger, w: WorkerId, row: Row, stored: Stored)
    requires LedgerInv(p, limit, l) && GoodRow(p, limit, row) && Known(l, stored)
    requires stored.receipt.status == Retryable
    ensures PcInv(p, limit, l, w, DecideRetryable(row, stored))
  {
    var r := stored.receipt;
    assert Shape(r, limit) && IntentAt(p, r.intent);
    ExhaustSteps(r, row.now, limit);
    ReclaimSteps(r, row.now, row.options.maxAttempts, limit);
  }

  lemma RecoverFits(p: Path, limit: int, l: Ledger, w: WorkerId, row: Row, stored: Stored)
    requires LedgerInv(p, limit, l) && GoodRow(p, limit, row) && Known(l, stored)
    requires stored.receipt.status == Claimed || stored.receipt.status == SendStarted
    ensures PcInv(p, limit, l, w, Decide(row, stored, false))
  {
    var r, o := stored.receipt, row.options;
    assert Shape(r, limit) && IntentAt(p, r.intent);
    if r.status == Claimed {
      RecoverClaimSteps(r, row.now, o.claimTimeout, o.maxAttempts, limit);
    } else {
      RecoverSendSteps(r, row.now, o.claimTimeout, o.maxAttempts, limit);
    }
  }

  /** A receipt read as delivered is the newest and stays it. */
  lemma DeliveredIsFinal(p: Path, limit: int, l: Ledger, stored: Stored)
    requires LedgerInv(p, limit, l) && Known(l, stored) && IsDelivered(stored.receipt.status)
    ensures Delivered(l)
  {
    TerminalIsNewest(p, limit, l.commits, stored.receipt.version - 1);
  }

  lemma DecideFits(p: Path, limit: int, l: Ledger, w: WorkerId, row: Row, stored: Stored, owned: bool)
    requires LedgerInv(p, limit, l) && GoodRow(p, limit, row) && Known(l, stored)
    ensures PcInv(p, limit, l, w, Decide(row, stored, owned))
  {
    match stored.receipt.status
    case Accepted | Simulated => DeliveredIsFinal(p, limit, l, stored);
    case Failed | Unknown =>
    case Retryable => RetryableFits(p, limit, l, w, row, stored);
    case Claimed | SendStarted =>
      RecoverFits(p, limit, l, w, row, stored);
      BeginSendFits(p, limit, l, w, row, stored);
  }

  lemma FetchFits(p: Path, limit: int, l: Ledger, w: WorkerId, row: Row, read: Read)
    requires LedgerInv(p, limit, l) && GoodRow(p, limit, row) && HonestRead(l, read)
    ensures PcInv(p, limit, l, w, AfterFetch(row, read))
    ensures PcInv(p, limit, l, w, AfterRefetch(row, read))
  {
    if read.Found? {
      CellIsKnown(p, limit, l);
      DecideFits(p, limit, l, w, row, read.stored, false);
    } else {
      ClaimIsFirst(IntentOf(row), row.now, limit);
    }
  }

  /** A conditional write reports success only for its own upload, although the
      read-back compares nothing but the version. */
  lemma ConfirmedIsOwn(p: Path, limit: int, l: Ledger, w: WorkerId, pc: Pc, read: Read)
    requires LedgerInv(p, limit, l) && pc.Confirming? && PcInv(p, limit, l, w, pc)
    requires HonestRead(l, read) && read.Found? && read.stored.receipt.version == pc.next.version
    ensures read.stored == Stored(pc.next, pc.own)
  {
    CellIsKnown(p, limit, l);
  }

  lemma ConfirmFits(p: Path, limit: int, l: Ledger, w: WorkerId, pc: Pc, read: Read)
    requires LedgerInv(p, limit, l) && pc.Confirming? && PcInv(p, limit, l, w, pc)
    requires GoodRow(p, limit, pc.row) && HonestRead(l, read)
    ensures PcInv(p, limit, l, w, AfterConfirm(pc.row, pc.purpose, pc.next, read))
  {
    if read.Found? && read.stored.receipt.version == pc.next.version {
      ConfirmedIsOwn(p, limit, l, w, pc, read);
      match pc.purpose
      case Claiming => DecideFits(p, limit, l, w, pc.row, read.stored, true);
      case Reclaiming | Recovering => BeginSendFits(p, limit, l, w, pc.row, read.stored);
      case Exhausting | Starting =>
      case Finishing(disposition, _, _) =>
        if disposition == Complete { DeliveredIsFinal(p, limit, l, read.stored); }
    }
  }

  // ---- Other workers ------------------------------------------------------

  /** What one action of worker `w` does to a path. */
  ghost predicate ActionOf(l: Ledger, l': Ledger, w: WorkerId) {
    && |l.commits| <= |l'.commits|
    && (forall i | 0 <= i < |l.commits| :: l'.commits[i] == l.commits[i])
    && |l.sends| <= |l'.sends|
    && (forall k | 0 <= k < |l.sends| :: l.sends[k].author != w ==> l'.sends[k] == l.sends[k])
    && (forall k | 0 <= k < |l.sends| :: l'.sends[k].version == l.sends[k].version)
    && (forall k | 0 <= k < |l.sends| :: l.sends[k].result.Some? ==> l'.sends[k] == l.sends[k])
    && (forall k | |l.sends| <= k < |l'.sends| ::
          && 1 <= l'.sends[k].version <= |l.commits|
          && l.commits[l'.sends[k].version - 1].author == w)
  }

  /** Delivered receipts survive every action. */
  lemma DeliveredStays(p: Path, limit: int, l: Ledger, l': Ledger, w: WorkerId)
    requires LedgerInv(p, limit, l) && LedgerInv(p, limit, l') && ActionOf(l, l', w)
    ensures Delivered(l) ==> l'.cell == l.cell && Delivered(l')
  {
    if Delivered(l) {
      TerminalIsNewest(p, limit, l'.commits, |l.commits| - 1);
    }
  }

  /** Nothing another worker does takes away what this one relies on. */
  lemma OthersKeep(p: Path, limit: int, l: Ledger, l': Ledger, w: WorkerId, v: WorkerId, pc: Pc)
    requires LedgerInv(p, limit, l) && LedgerInv(p, limit, l') && ActionOf(l, l', w)
    requires v != w && PcInv(p, limit, l, v, pc)
    ensures PcInv(p, limit, l', v, pc)
  {
    hide Chain, Shape, Edge, Backed, SendsOrdered, Records;
    match pc
    case Fetching(_) =>
    case Refetching(_) =>
    case Uploading(_, purpose, base, next) =>
      if purpose.Finishing? {
        var k :| 0 <= k < |l.sends| && l.sends[k].version == base.value.receipt.version
                 && l.sends[k].result.Some? && Records(next, l.sends[k].result.value);
        assert l'.sends[k] == l.sends[k];
      }
    case Confirming(_, purpose, next, own) =>
    case Mailing(_, stored) =>
    case Awaiting(_, stored, ticket) =>
    case RowDone(_, result) =>
      DeliveredStays(p, limit, l, l', w);
  }
}

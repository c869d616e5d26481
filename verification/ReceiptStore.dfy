/** The receipt container (internal/distribution/azure_storage.go): conditional
    upload, then read-back. Other workers may write between the two; what they
    can write there is an edge of the transition graph, which Guarantees.dfy
    proves of every run. */
module ReceiptStore {
  import opened Basics
  import opened Receipts
  import opened RowProtocol

  /** How the service answered an upload. A write may commit and still be
      reported as a conflict or as an error. */
  datatype UploadFate = Committed | CommittedAsConflict | CommittedAsError | Lost

  datatype PutResult = PutOk(stored: Stored) | PutConflict | PutError

  lemma EdgeMovesOn(r: Receipt, r': Receipt)
    requires Edge(r, r')
    ensures r'.version == r.version + 1 && r'.intent == r.intent
  {}

  class ReceiptContainer {
    var blobs: Cells
    var nextTag: ETag

    /** The next ETag is new everywhere, and only valid receipts are stored. */
    ghost predicate Valid()
      reads this
    {
      forall p | p in blobs :: blobs[p].etag < nextTag && Receipts.Valid(blobs[p].receipt)
    }

    constructor ()
      ensures Valid() && blobs == map[]
    {
      blobs, nextTag := map[], 0;
    }

    method Get(p: Path, fails: bool) returns (read: Read)
      ensures fails ==> read == ReadFailed
      ensures !fails ==> read == if p in blobs then Found(blobs[p]) else Missing
    {
      if fails { return ReadFailed; }
      if p in blobs { return Found(blobs[p]); }
      return Missing;
    }

    predicate Matches(p: Path, base: Option<ETag>)
      reads this
    {
      Admits(CellAt(blobs, p), base)
    }

    /** What the other workers write before the read-back: each rival receipt
        replaces the blob if the transition graph allows it. */
    method Interfere(p: Path, rivals: seq<Receipt>)
      requires Valid() && p in blobs
      modifies this
      ensures Valid() && nextTag >= old(nextTag) && blobs.Keys == old(blobs.Keys)
      ensures forall q | q in old(blobs) && q != p :: blobs[q] == old(blobs)[q]
      ensures blobs[p].receipt.version >= old(blobs[p].receipt.version)
      ensures blobs[p].receipt.intent == old(blobs[p].receipt.intent)
      ensures blobs[p] == old(blobs[p]) <==> blobs[p].receipt.version == old(blobs[p].receipt.version)
      ensures rivals == [] ==> blobs == old(blobs) && nextTag == old(nextTag)
    {
      hide Receipts.Valid, Edge;
      var i := 0;
      while i < |rivals|
        invariant 0 <= i <= |rivals|
        invariant Valid() && nextTag >= old(nextTag) && blobs.Keys == old(blobs.Keys)
        invariant forall q | q in old(blobs) && q != p :: blobs[q] == old(blobs)[q]
        invariant blobs[p].receipt.version >= old(blobs[p].receipt.version)
        invariant blobs[p].receipt.intent == old(blobs[p].receipt.intent)
        invariant blobs[p] == old(blobs[p]) <==> blobs[p].receipt.version == old(blobs[p].receipt.version)
        invariant i == 0 ==> blobs == old(blobs) && nextTag == old(nextTag)
      {
        if Edge(blobs[p].receipt, rivals[i]) && Receipts.Valid(rivals[i]) {
          EdgeMovesOn(blobs[p].receipt, rivals[i]);
          blobs, nextTag := blobs[p := Stored(rivals[i], nextTag)], nextTag + 1;
        }
        i := i + 1;
      }
    }

    /** put: success means that the receipt and ETag returned are the caller's
        own upload and still the blob, although only the version is compared.
        Every failure that may hide a commit is reported as a conflict or error. */
    method Put(p: Path, receipt: Receipt, base: Option<ETag>, fate: UploadFate, rivals: seq<Receipt>, readFails: bool)
      returns (result: PutResult)
      requires Valid()
      modifies this
      ensures Valid()
      ensures forall q | q in old(blobs) && q != p :: q in blobs && blobs[q] == old(blobs)[q]
      ensures blobs.Keys <= old(blobs.Keys) + {p}
      ensures result.PutOk? ==>
        && old(Matches(p, base)) && Receipts.Valid(receipt) && fate == Committed
        && result.stored == Stored(receipt, old(nextTag))
        && p in blobs && blobs[p] == result.stored
      ensures !old(Matches(p, base)) || !Receipts.Valid(receipt) || fate == Lost ==>
        blobs == old(blobs) && nextTag == old(nextTag) && !result.PutOk?
      ensures old(Matches(p, base)) && Receipts.Valid(receipt) && fate == Committed && rivals == [] && !readFails ==>
        && result == PutOk(Stored(receipt, old(nextTag)))
        && blobs == old(blobs)[p := Stored(receipt, old(nextTag))] && nextTag == old(nextTag) + 1
    {
      if !Receipts.Valid(receipt) { return PutConflict; }
      if !Matches(p, base) { return PutConflict; }
      if fate == Lost { return PutError; }
      hide Receipts.Valid, Edge;
      blobs, nextTag := blobs[p := Stored(receipt, nextTag)], nextTag + 1;
      Interfere(p, rivals);
      if fate == CommittedAsConflict { return PutConflict; }
      if fate == CommittedAsError { return PutError; }
      var read := Get(p, readFails);
      if read.Found? && read.stored.receipt.version == receipt.version { return PutOk(read.stored); }
      return PutConflict;
    }

    /** Create: the path must be free. */
    method Create(p: Path, receipt: Receipt, fate: UploadFate, rivals: seq<Receipt>, readFails: bool)
      returns (result: PutResult)
      requires Valid()
      modifies this
      ensures Valid()
      ensures forall q | q in old(blobs) && q != p :: q in blobs && blobs[q] == old(blobs)[q]
      ensures blobs.Keys <= old(blobs.Keys) + {p}
      ensures result.PutOk? ==>
        && p !in old(blobs) && p in blobs && blobs[p] == result.stored == Stored(receipt, old(nextTag))
      ensures p in old(blobs) ==> blobs == old(blobs) && nextTag == old(nextTag) && !result.PutOk?
      ensures p !in old(blobs) && Receipts.Valid(receipt) && fate == Committed && rivals == [] && !readFails ==>
        && result == PutOk(Stored(receipt, old(nextTag)))
        && blobs == old(blobs)[p := Stored(receipt, old(nextTag))] && nextTag == old(nextTag) + 1
    {
      result := Put(p, receipt, None, fate, rivals, readFails);
    }

    /** Replace: the path must still hold the given version. */
    method Replace(p: Path, etag: ETag, receipt: Receipt, fate: UploadFate, rivals: seq<Receipt>, readFails: bool)
      returns (result: PutResult)
      requires Valid()
      modifies this
      ensures Valid()
      ensures forall q | q in old(blobs) && q != p :: q in blobs && blobs[q] == old(blobs)[q]
      ensures blobs.Keys <= old(blobs.Keys) + {p}
      ensures result.PutOk? ==>
        && p in old(blobs) && old(blobs[p]).etag == etag
        && p in blobs && blobs[p] == result.stored == Stored(receipt, old(nextTag))
      ensures p !in old(blobs) || old(blobs[p]).etag != etag ==>
        blobs == old(blobs) && nextTag == old(nextTag) && !result.PutOk?
      ensures p in old(blobs) && old(blobs[p]).etag == etag
              && Receipts.Valid(receipt) && fate == Committed && rivals == [] && !readFails ==>
        && result == PutOk(Stored(receipt, old(nextTag)))
        && blobs == old(blobs)[p := Stored(receipt, old(nextTag))] && nextTag == old(nextTag) + 1
    {
      result := Put(p, receipt, Some(etag), fate, rivals, readFails);
    }
  }
}

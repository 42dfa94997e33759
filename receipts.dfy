/**
 * Part receipts recorded by the upload loop and their reshaping into the
 * `parts` list of the complete-upload request.
 */
module Receipts {
  /** `{"part_number": n, "size": len(chunk), "etag": etag}` appended per uploaded part. */
  datatype PartReceipt = PartReceipt(partNumber: nat, size: nat, etag: string)

  /** `{"ETag": ..., "PartNumber": ..., "size": ...}`, the backend's field names. */
  datatype CompletionPart = CompletionPart(ETag: string, PartNumber: nat, size: nat)

  /** The body of the complete-upload request. */
  datatype CompletePayload = CompletePayload(
    uploadId: string, key: string, name: string, forceOverwrite: bool, parts: seq<CompletionPart>)

  /** Part numbers are exactly 1, 2, ..., |parts|, in this order. */
  predicate NumberedFromOne(parts: seq<PartReceipt>) {
    forall i :: 0 <= i < |parts| ==> parts[i].partNumber == i + 1
  }

  /** The list comprehension building the request's `parts`: one entry per receipt, in order. */
  function CompletionParts(parts: seq<PartReceipt>): (r: seq<CompletionPart>)
    ensures |r| == |parts|
    ensures forall i :: 0 <= i < |parts| ==>
      r[i].PartNumber == parts[i].partNumber && r[i].ETag == parts[i].etag && r[i].size == parts[i].size
  {
    if parts == [] then []
    else [CompletionPart(parts[0].etag, parts[0].partNumber, parts[0].size)] + CompletionParts(parts[1..])
  }

  /** Reading receipts back from the request body. */
  function ReceiptsOf(payload: seq<CompletionPart>): (r: seq<PartReceipt>)
    ensures |r| == |payload|
  {
    if payload == [] then []
    else [PartReceipt(payload[0].PartNumber, payload[0].size, payload[0].ETag)] + ReceiptsOf(payload[1..])
  }

  /** Reshaping loses nothing: the receipts can be recovered from the request body. */
  lemma {:induction false} CompletionRoundTrip(parts: seq<PartReceipt>)
    ensures ReceiptsOf(CompletionParts(parts)) == parts
  {
    if parts != [] {
      CompletionRoundTrip(parts[1..]);
      assert CompletionParts(parts)[1..] == CompletionParts(parts[1..]);
    }
  }

  /** `complete_upload`'s request body. */
  function CompleteRequest(uploadId: string, key: string, parts: seq<PartReceipt>, fileName: string,
                           forceOverwrite: bool): (p: CompletePayload)
    ensures |p.parts| == |parts|
    ensures NumberedFromOne(parts) ==> forall i :: 0 <= i < |p.parts| ==> p.parts[i].PartNumber == i + 1
  {
    CompletePayload(uploadId, key, fileName, forceOverwrite, CompletionParts(parts))
  }
}

/**
 * The part loop of the upload handler: for each part number from 1 to
 * `total_parts`, read the part's byte range, look up its signed URL,
 * upload it with retry, append its receipt and possibly report progress.
 * The loop stops at the first part whose URL is missing or whose upload
 * fails; nothing is checked up front.
 */
module UploadLoop {
  import opened Common
  import opened Partition
  import opened PartUpload
  import opened Progress
  import opened Receipts

  /** `f.seek(start); f.read(n)`: at most `n` bytes from `start`, fewer at the end of the file. */
  function ReadAt(content: seq<byte>, start: nat, n: nat): (r: seq<byte>)
    ensures |r| <= n
    ensures start + n <= |content| ==> r == content[start..start + n]
  {
    if start >= |content| then []
    else if start + n <= |content| then content[start..start + n]
    else content[start..]
  }

  /** The bytes the loop reads for part `n`. */
  function ChunkOf(content: seq<byte>, size: nat, chunk: nat, n: nat): seq<byte>
    requires chunk > 0
    requires 1 <= n <= TotalParts(size, chunk)
  {
    PartBounds(size, chunk, n);
    ReadAt(content, PartStart(n, chunk), PartLength(n, chunk, size))
  }

  /**
   * When the file holds `size` bytes, the chunk of part `n` is exactly that
   * part's byte range.
   */
  lemma ChunkIsRange(content: seq<byte>, size: nat, chunk: nat, n: nat)
    requires chunk > 0
    requires 1 <= n <= TotalParts(size, chunk)
    requires |content| == size
    ensures PartStart(n, chunk) < PartEnd(n, chunk, size) <= |content|
    ensures ChunkOf(content, size, chunk, n) == content[PartStart(n, chunk)..PartEnd(n, chunk, size)]
    ensures |ChunkOf(content, size, chunk, n)| == PartLength(n, chunk, size)
  {
    PartBounds(size, chunk, n);
  }

  /** Part `n` was recorded with the size of its chunk and the tag its upload returned. */
  predicate RecordedPart(content: seq<byte>, size: nat, chunk: nat, signedUrls: seq<string>, net: PutNetwork,
                         n: nat, receipt: PartReceipt)
    requires chunk > 0
  {
    && 1 <= n <= TotalParts(size, chunk)
    && n <= |signedUrls|
    && receipt.partNumber == n
    && receipt.size == |ChunkOf(content, size, chunk, n)|
    && PutResult(signedUrls[n - 1], ChunkOf(content, size, chunk, n), n, net) == Success(receipt.etag)
  }

  /** Receipt `i` is the record of part `i + 1`, for every receipt. */
  predicate AllRecorded(content: seq<byte>, size: nat, chunk: nat, signedUrls: seq<string>, net: PutNetwork,
                        parts: seq<PartReceipt>)
    requires chunk > 0
  {
    forall i :: 0 <= i < |parts| ==> RecordedPart(content, size, chunk, signedUrls, net, i + 1, parts[i])
  }

  lemma RecordedAppend(content: seq<byte>, size: nat, chunk: nat, signedUrls: seq<string>, net: PutNetwork,
                       parts: seq<PartReceipt>, receipt: PartReceipt)
    requires chunk > 0
    requires AllRecorded(content, size, chunk, signedUrls, net, parts)
    requires RecordedPart(content, size, chunk, signedUrls, net, |parts| + 1, receipt)
    ensures AllRecorded(content, size, chunk, signedUrls, net, parts + [receipt])
  {
    var ps := parts + [receipt];
    forall i | 0 <= i < |ps| ensures RecordedPart(content, size, chunk, signedUrls, net, i + 1, ps[i]) {
      if i < |parts| {
        assert ps[i] == parts[i];
      }
    }
  }

  /** Part `n` has a signed URL and its upload returns a tag. */
  predicate PartSucceeds(content: seq<byte>, size: nat, chunk: nat, signedUrls: seq<string>, net: PutNetwork, n: nat)
    requires chunk > 0
    requires 1 <= n <= TotalParts(size, chunk)
  {
    n <= |signedUrls| && PutResult(signedUrls[n - 1], ChunkOf(content, size, chunk, n), n, net).Success?
  }

  /** Every part of the file has a signed URL and uploads. */
  predicate AllPartsSucceed(content: seq<byte>, size: nat, chunk: nat, signedUrls: seq<string>, net: PutNetwork)
    requires chunk > 0
  {
    forall n :: 1 <= n <= TotalParts(size, chunk) ==> PartSucceeds(content, size, chunk, signedUrls, net, n)
  }

  /**
   * The exception raised at a failing part: "Upload URL error" when it has
   * no signed URL, otherwise the error of its last PUT attempt.
   */
  function PartError(content: seq<byte>, size: nat, chunk: nat, signedUrls: seq<string>, net: PutNetwork, n: nat): Error
    requires chunk > 0
    requires 1 <= n <= TotalParts(size, chunk)
    requires !PartSucceeds(content, size, chunk, signedUrls, net, n)
  {
    if n > |signedUrls| then UploadUrlError(n)
    else PutResult(signedUrls[n - 1], ChunkOf(content, size, chunk, n), n, net).error
  }

  /** Every receipt recorded is the record of a part that succeeded. */
  lemma RecordedPartsSucceeded(content: seq<byte>, size: nat, chunk: nat, signedUrls: seq<string>, net: PutNetwork,
                               parts: seq<PartReceipt>, n: nat)
    requires chunk > 0
    requires AllRecorded(content, size, chunk, signedUrls, net, parts)
    requires 1 <= n <= |parts|
    ensures n <= TotalParts(size, chunk)
    ensures PartSucceeds(content, size, chunk, signedUrls, net, n)
  {
    assert RecordedPart(content, size, chunk, signedUrls, net, n, parts[n - 1]);
  }

  /** A complete list of receipts means every part succeeded. */
  lemma CompleteMeansAllSucceeded(content: seq<byte>, size: nat, chunk: nat, signedUrls: seq<string>,
                                  net: PutNetwork, parts: seq<PartReceipt>)
    requires chunk > 0
    requires AllRecorded(content, size, chunk, signedUrls, net, parts)
    requires |parts| == TotalParts(size, chunk)
    ensures AllPartsSucceed(content, size, chunk, signedUrls, net)
  {
    forall n | 1 <= n <= TotalParts(size, chunk)
      ensures PartSucceeds(content, size, chunk, signedUrls, net, n)
    {
      RecordedPartsSucceeded(content, size, chunk, signedUrls, net, parts, n);
    }
  }

  /** One failing part is enough for the upload not to complete. */
  lemma FailingPartBlocksAll(content: seq<byte>, size: nat, chunk: nat, signedUrls: seq<string>,
                             net: PutNetwork, n: nat)
    requires chunk > 0
    requires 1 <= n <= TotalParts(size, chunk)
    requires !PartSucceeds(content, size, chunk, signedUrls, net, n)
    ensures !AllPartsSucceed(content, size, chunk, signedUrls, net)
  {
  }

  /** Part `k` is the first part of the file that does not succeed. */
  predicate FirstFailingPart(content: seq<byte>, size: nat, chunk: nat, signedUrls: seq<string>, net: PutNetwork, k: nat)
    requires chunk > 0
  {
    && 1 <= k <= TotalParts(size, chunk)
    && (forall j :: 1 <= j < k ==> PartSucceeds(content, size, chunk, signedUrls, net, j))
    && !PartSucceeds(content, size, chunk, signedUrls, net, k)
  }

  /** A failing part right after the recorded ones is the first failing part. */
  lemma FailureIsFirstFailingPart(content: seq<byte>, size: nat, chunk: nat, signedUrls: seq<string>,
                                  net: PutNetwork, parts: seq<PartReceipt>)
    requires chunk > 0
    requires AllRecorded(content, size, chunk, signedUrls, net, parts)
    requires |parts| < TotalParts(size, chunk)
    requires !PartSucceeds(content, size, chunk, signedUrls, net, |parts| + 1)
    ensures FirstFailingPart(content, size, chunk, signedUrls, net, |parts| + 1)
  {
    forall j | 1 <= j < |parts| + 1
      ensures PartSucceeds(content, size, chunk, signedUrls, net, j)
    {
      RecordedPartsSucceeded(content, size, chunk, signedUrls, net, parts, j);
    }
  }

  /** There is at most one first failing part. */
  lemma FirstFailingPartUnique(content: seq<byte>, size: nat, chunk: nat, signedUrls: seq<string>,
                               net: PutNetwork, k: nat, k': nat)
    requires chunk > 0
    requires FirstFailingPart(content, size, chunk, signedUrls, net, k)
    requires FirstFailingPart(content, size, chunk, signedUrls, net, k')
    ensures k == k'
  {
  }

  /** Fewer signed URLs than parts: the upload cannot complete. */
  lemma TooFewUrlsFail(content: seq<byte>, size: nat, chunk: nat, signedUrls: seq<string>, net: PutNetwork)
    requires chunk > 0
    requires |signedUrls| < TotalParts(size, chunk)
    ensures !AllPartsSucceed(content, size, chunk, signedUrls, net)
  {
    FailingPartBlocksAll(content, size, chunk, signedUrls, net, |signedUrls| + 1);
  }

  /**
   * The loop.  It completes exactly when every part succeeds, and then
   * holds one receipt per part, numbered 1..total in order.  Otherwise it
   * stops at the first failing part, after the receipts of the parts
   * before it, with that part's error; a missing URL stops it at part
   * `|signedUrls| + 1` after exactly `|signedUrls|` receipts.  The progress
   * reports are those of the throttle run over the recorded parts.
   */
  method UploadParts(content: seq<byte>, fileSize: nat, chunkSize: nat, signedUrls: seq<string>,
                     net: PutNetwork, clock: nat -> int, editOk: nat -> bool, start: int)
    returns (failure: Option<Error>, parts: seq<PartReceipt>, progress: Throttle)
    requires chunkSize > 0
    ensures |parts| <= TotalParts(fileSize, chunkSize) && |parts| <= |signedUrls|
    ensures NumberedFromOne(parts)
    ensures AllRecorded(content, fileSize, chunkSize, signedUrls, net, parts)
    ensures failure.None? <==> AllPartsSucceed(content, fileSize, chunkSize, signedUrls, net)
    ensures failure.None? ==> |parts| == TotalParts(fileSize, chunkSize)
    ensures failure.Some? ==>
      && |parts| < TotalParts(fileSize, chunkSize)
      && !PartSucceeds(content, fileSize, chunkSize, signedUrls, net, |parts| + 1)
      && failure.value == PartError(content, fileSize, chunkSize, signedUrls, net, |parts| + 1)
    ensures failure.Some? && failure.value.UploadUrlError? ==>
      && |signedUrls| < TotalParts(fileSize, chunkSize)
      && failure.value.partNumber == |signedUrls| + 1
      && |parts| == |signedUrls|
    ensures progress == ThrottleRun(fileSize, chunkSize, TotalParts(fileSize, chunkSize), clock, editOk, start, |parts|)
  {
    var totalParts := TotalParts(fileSize, chunkSize);
    parts := [];
    progress := Throttle([], start);
    var partNumber := 1;
    while partNumber <= totalParts
      invariant 1 <= partNumber <= totalParts + 1
      invariant |parts| == partNumber - 1 <= |signedUrls|
      invariant NumberedFromOne(parts)
      invariant AllRecorded(content, fileSize, chunkSize, signedUrls, net, parts)
      invariant progress == ThrottleRun(fileSize, chunkSize, totalParts, clock, editOk, start, |parts|)
    {
      var partFailure, receipt := UploadOnePart(content, fileSize, chunkSize, signedUrls, net, partNumber);
      if partFailure.Some? {
        FailingPartBlocksAll(content, fileSize, chunkSize, signedUrls, net, partNumber);
        failure := partFailure;
        return;
      }
      parts, progress := RecordPart(content, fileSize, chunkSize, signedUrls, net, clock, editOk, start,
                                    parts, receipt, progress);
      partNumber := partNumber + 1;
    }
    CompleteMeansAllSucceeded(content, fileSize, chunkSize, signedUrls, net, parts);
    failure := None;
  }

  /**
   * One iteration's upload: read part `partNumber`, look up its URL (raising
   * "Upload URL error" when there is none), upload it with retry and build
   * its receipt.
   */
  method UploadOnePart(content: seq<byte>, fileSize: nat, chunkSize: nat, signedUrls: seq<string>,
                       net: PutNetwork, partNumber: nat)
    returns (failure: Option<Error>, receipt: PartReceipt)
    requires chunkSize > 0
    requires 1 <= partNumber <= TotalParts(fileSize, chunkSize)
    ensures failure.None? <==> PartSucceeds(content, fileSize, chunkSize, signedUrls, net, partNumber)
    ensures failure.None? ==> RecordedPart(content, fileSize, chunkSize, signedUrls, net, partNumber, receipt)
    ensures failure.Some? ==>
      && !PartSucceeds(content, fileSize, chunkSize, signedUrls, net, partNumber)
      && failure.value == PartError(content, fileSize, chunkSize, signedUrls, net, partNumber)
  {
    PartBounds(fileSize, chunkSize, partNumber);
    var startPos := PartStart(partNumber, chunkSize);
    var endPos := PartEnd(partNumber, chunkSize, fileSize);
    var chunk := ReadAt(content, startPos, endPos - startPos);
    assert chunk == ChunkOf(content, fileSize, chunkSize, partNumber);

    var signedUrl;
    if partNumber - 1 < |signedUrls| {
      signedUrl := signedUrls[partNumber - 1];
    } else {
      failure, receipt := Some(UploadUrlError(partNumber)), PartReceipt(partNumber, 0, "");
      return;
    }

    var etag, _ := UploadPart(signedUrl, chunk, partNumber, net);
    if etag.Failure? {
      failure, receipt := Some(etag.error), PartReceipt(partNumber, 0, "");
      return;
    }
    failure, receipt := None, PartReceipt(partNumber, |chunk|, etag.value);
  }

  /**
   * The rest of an iteration once part `|parts| + 1` is uploaded: append its
   * receipt, then make the throttled progress report.
   */
  method RecordPart(content: seq<byte>, fileSize: nat, chunkSize: nat, signedUrls: seq<string>, net: PutNetwork,
                    clock: nat -> int, editOk: nat -> bool, start: int,
                    parts: seq<PartReceipt>, receipt: PartReceipt, progress: Throttle)
    returns (parts': seq<PartReceipt>, progress': Throttle)
    requires chunkSize > 0
    requires NumberedFromOne(parts)
    requires AllRecorded(content, fileSize, chunkSize, signedUrls, net, parts)
    requires RecordedPart(content, fileSize, chunkSize, signedUrls, net, |parts| + 1, receipt)
    requires progress == ThrottleRun(fileSize, chunkSize, TotalParts(fileSize, chunkSize), clock, editOk, start, |parts|)
    ensures parts' == parts + [receipt]
    ensures NumberedFromOne(parts')
    ensures AllRecorded(content, fileSize, chunkSize, signedUrls, net, parts')
    ensures progress' == ThrottleRun(fileSize, chunkSize, TotalParts(fileSize, chunkSize), clock, editOk, start, |parts'|)
  {
    RecordedAppend(content, fileSize, chunkSize, signedUrls, net, parts, receipt);
    parts' := parts + [receipt];
    progress' := ReportProgress(fileSize, chunkSize, TotalParts(fileSize, chunkSize), clock, editOk, start,
                                |parts'|, progress);
  }

  /**
   * The throttled progress report after part `partNumber`: report when
   * three seconds have passed since the last delivered report or this is
   * the final part, and move `last_update_time` only if the edit succeeds.
   */
  method ReportProgress(fileSize: nat, chunkSize: nat, totalParts: nat, clock: nat -> int, editOk: nat -> bool,
                        start: int, partNumber: nat, progress: Throttle)
    returns (progress': Throttle)
    requires partNumber >= 1
    requires progress == ThrottleRun(fileSize, chunkSize, totalParts, clock, editOk, start, partNumber - 1)
    ensures progress' == ThrottleRun(fileSize, chunkSize, totalParts, clock, editOk, start, partNumber)
  {
    var reports, lastUpdate := progress.reports, progress.lastUpdate;
    var currentTime := clock(partNumber);
    if currentTime - lastUpdate >= ReportIntervalMs || partNumber == totalParts {
      var uploadedBytes := UploadedBytes(partNumber, chunkSize, fileSize);
      reports := reports + [Report(partNumber, uploadedBytes, editOk(partNumber))];
      if editOk(partNumber) {
        lastUpdate := currentTime;
      }
    }
    progress' := Throttle(reports, lastUpdate);
  }

  /** Total bytes recorded in a list of receipts. */
  function SumSizes(parts: seq<PartReceipt>): nat {
    if parts == [] then 0 else SumSizes(parts[..|parts| - 1]) + parts[|parts| - 1].size
  }

  /**
   * When the file holds `size` bytes, the receipts of a completed loop
   * account for every byte: their sizes add up to the file size.
   */
  lemma {:induction false} ReceiptsCoverFile(content: seq<byte>, size: nat, chunk: nat, signedUrls: seq<string>,
                                             net: PutNetwork, parts: seq<PartReceipt>)
    requires chunk > 0
    requires |content| == size
    requires |parts| <= TotalParts(size, chunk)
    requires AllRecorded(content, size, chunk, signedUrls, net, parts)
    ensures SumSizes(parts) == SumLengths(|parts|, chunk, size) == UploadedBytes(|parts|, chunk, size)
    ensures |parts| == TotalParts(size, chunk) ==> SumSizes(parts) == size
  {
    UploadedBytesIsSumOfParts(size, chunk, |parts|);
    if parts != [] {
      var n := |parts|;
      ReceiptsCoverFile(content, size, chunk, signedUrls, net, parts[..n - 1]);
      ChunkIsRange(content, size, chunk, n);
      assert RecordedPart(content, size, chunk, signedUrls, net, n, parts[n - 1]);
    }
    if |parts| == TotalParts(size, chunk) {
      PartsSumToSize(size, chunk);
    }
  }
}

/**
 * `upload_file_part`: PUT one chunk to its signed URL, trying at most three
 * times, and return the part's entity tag.  The network is a given
 * function: what the PUT of `body` to `url` does on attempt number `a`
 * (counting from 0).  Any `RequestException` is a failed attempt; this
 * includes the `HTTPError` that `raise_for_status` raises on an error
 * status.  After the third failure that attempt's exception propagates.
 */
module PartUpload {
  import opened Common
  import opened ETags

  /** What one PUT does: the request raises, or a response arrives with a status and an optional `ETag` header. */
  datatype PutOutcome = PutRequestFailed | PutReply(status: int, etagHeader: Option<string>)

  /** The attempt returns a tag: a response whose status `raise_for_status` lets through. */
  predicate PutSucceeded(o: PutOutcome) {
    o.PutReply? && !(400 <= o.status < 600)
  }

  /** The exception a failed attempt raises. */
  function PutError(o: PutOutcome): Error
    requires !PutSucceeded(o)
  {
    if o.PutReply? then HttpStatusError(o.status) else NetworkError
  }

  /** The storage backend as seen by the part upload: (url, body, attempt) to outcome. */
  type PutNetwork = (string, seq<byte>, nat) -> PutOutcome

  /** `max_retries = 3`. */
  const MaxRetries: nat := 3

  /** The first attempt at or after `from` (and before `MaxRetries`) that succeeds. */
  function FirstSuccess(url: string, body: seq<byte>, net: PutNetwork, from: nat): (r: Option<nat>)
    requires from <= MaxRetries
    ensures r.Some? ==> from <= r.value < MaxRetries && PutSucceeded(net(url, body, r.value))
    ensures r.Some? ==> forall a :: from <= a < r.value ==> !PutSucceeded(net(url, body, a))
    ensures r.None? ==> forall a :: from <= a < MaxRetries ==> !PutSucceeded(net(url, body, a))
    decreases MaxRetries - from
  {
    if from == MaxRetries then None
    else if PutSucceeded(net(url, body, from)) then Some(from)
    else FirstSuccess(url, body, net, from + 1)
  }

  /** The outcome `upload_file_part` returns or raises. */
  function PutResult(url: string, body: seq<byte>, partNumber: nat, net: PutNetwork): Result<string, Error> {
    match FirstSuccess(url, body, net, 0)
    case Some(a) => Success(PartETag(net(url, body, a).etagHeader, partNumber))
    case None => Failure(PutError(net(url, body, MaxRetries - 1)))
  }

  /** The number of PUT requests `upload_file_part` issues. */
  function PutAttempts(url: string, body: seq<byte>, net: PutNetwork): nat {
    match FirstSuccess(url, body, net, 0)
    case Some(a) => a + 1
    case None => MaxRetries
  }

  /**
   * The retry loop.  It stops at the first successful attempt and returns
   * that attempt's tag; after the third failure it raises that attempt's error.
   */
  method UploadPart(signedUrl: string, chunk: seq<byte>, partNumber: nat, net: PutNetwork)
    returns (r: Result<string, Error>, attempts: nat)
    ensures 1 <= attempts <= MaxRetries
    ensures forall a :: 0 <= a < attempts - 1 ==> !PutSucceeded(net(signedUrl, chunk, a))
    ensures r.Success? ==>
      PutSucceeded(net(signedUrl, chunk, attempts - 1))
      && r.value == PartETag(net(signedUrl, chunk, attempts - 1).etagHeader, partNumber)
    ensures r.Failure? ==>
      attempts == MaxRetries
      && !PutSucceeded(net(signedUrl, chunk, MaxRetries - 1))
      && r.error == PutError(net(signedUrl, chunk, MaxRetries - 1))
    ensures r == PutResult(signedUrl, chunk, partNumber, net)
    ensures attempts == PutAttempts(signedUrl, chunk, net)
  {
    var attempt := 0;
    while true
      invariant 0 <= attempt < MaxRetries
      invariant forall a :: 0 <= a < attempt ==> !PutSucceeded(net(signedUrl, chunk, a))
      invariant FirstSuccess(signedUrl, chunk, net, 0) == FirstSuccess(signedUrl, chunk, net, attempt)
      decreases MaxRetries - attempt
    {
      var response := net(signedUrl, chunk, attempt);
      if PutSucceeded(response) {
        r := Success(PartETag(response.etagHeader, partNumber));
        attempts := attempt + 1;
        return;
      }
      if attempt == MaxRetries - 1 {
        r := Failure(PutError(response));
        attempts := MaxRetries;
        return;
      }
      attempt := attempt + 1;
    }
  }

  /** A part succeeds exactly when one of the three attempts does. */
  lemma PutSucceedsIffSomeAttemptDoes(url: string, body: seq<byte>, partNumber: nat, net: PutNetwork)
    ensures PutResult(url, body, partNumber, net).Success?
      <==> exists a :: 0 <= a < MaxRetries && PutSucceeded(net(url, body, a))
    ensures 1 <= PutAttempts(url, body, net) <= MaxRetries
  {
    if PutResult(url, body, partNumber, net).Failure? {
      assert forall a :: 0 <= a < MaxRetries ==> !PutSucceeded(net(url, body, a));
    }
  }

  /** Two failures followed by a success: three requests and the third one's tag. */
  lemma TwoFailuresThenSuccess(url: string, body: seq<byte>, partNumber: nat, net: PutNetwork)
    requires !PutSucceeded(net(url, body, 0)) && !PutSucceeded(net(url, body, 1))
    requires PutSucceeded(net(url, body, 2))
    ensures PutAttempts(url, body, net) == 3
    ensures PutResult(url, body, partNumber, net) == Success(PartETag(net(url, body, 2).etagHeader, partNumber))
  {
    assert FirstSuccess(url, body, net, 0) == Some(2);
  }

  /**
   * Three failures: three requests, and the third attempt's exception
   * propagates; a lost connection and an error status raise different errors.
   */
  lemma ThreeFailures(url: string, body: seq<byte>, partNumber: nat, net: PutNetwork)
    requires !PutSucceeded(net(url, body, 0)) && !PutSucceeded(net(url, body, 1))
    requires !PutSucceeded(net(url, body, 2))
    ensures PutAttempts(url, body, net) == 3
    ensures PutResult(url, body, partNumber, net) == Failure(PutError(net(url, body, 2)))
    ensures net(url, body, 2).PutRequestFailed? ==> PutResult(url, body, partNumber, net) == Failure(NetworkError)
    ensures net(url, body, 2).PutReply? ==>
      PutResult(url, body, partNumber, net) == Failure(HttpStatusError(net(url, body, 2).status))
  {
    assert FirstSuccess(url, body, net, 0) == None;
  }

  /** A first attempt that succeeds is the only request. */
  lemma FirstAttemptSucceeds(url: string, body: seq<byte>, partNumber: nat, net: PutNetwork)
    requires PutSucceeded(net(url, body, 0))
    ensures PutAttempts(url, body, net) == 1
    ensures PutResult(url, body, partNumber, net) == Success(PartETag(net(url, body, 0).etagHeader, partNumber))
  {
  }
}

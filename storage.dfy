/**
 * The storage client `abrehamrahiStorage`: it holds the access and refresh
 * tokens and the session headers, refreshes the access token once when a
 * request is answered with 401, and offers the upload, listing and
 * deletion calls.  Every network exchange is a given reply; token-file
 * persistence is not modelled.
 */
module Storage {
  import opened Common
  import opened Credentials
  import opened Receipts
  import opened Directory

  /** The start-upload reply fields the handler reads. */
  datatype StartReply = StartReply(
    uploadId: Option<string>, key: Option<string>, signedUrls: Option<seq<string>>, chunkSize: Option<int>)

  /** The complete-upload reply's `id`. */
  datatype CompleteReply = CompleteReply(id: Option<int>)

  /** The public-link reply's `link`. */
  datatype LinkReply = LinkReply(link: Option<string>)

  /** A list-objects reply: `count` and `results`. */
  datatype ListReply = ListReply(count: int, results: Option<seq<RemoteObject>>)

  class StorageClient {
    var accessToken: Option<string>
    var refreshToken: Option<string>
    var headers: map<string, string>

    /** The session headers always carry the current access token. */
    ghost predicate Valid()
      reads this
    {
      headers == SessionHeaders(accessToken)
    }

    /** `__init__` with the given tokens (the token file is not read in this model). */
    constructor (accessToken: Option<string>, refreshToken: Option<string>)
      ensures Valid()
      ensures this.accessToken == accessToken && this.refreshToken == refreshToken
    {
      this.accessToken := accessToken;
      this.refreshToken := refreshToken;
      headers := SessionHeaders(accessToken);
    }

    /** `_update_session_headers`: rebuild the headers from the current access token. */
    method UpdateSessionHeaders()
      modifies this
      ensures Valid()
      ensures accessToken == old(accessToken) && refreshToken == old(refreshToken)
    {
      headers := SessionHeaders(accessToken);
    }

    /**
     * `get_access_token_from_refresh`: exchange the given refresh token.
     * On a granted reply both tokens are set (the refresh token to the
     * argument); on any other reply nothing changes.
     */
    method GetAccessTokenFromRefresh(refresh: Option<string>, reply: TokenReply) returns (ok: bool)
      requires Valid()
      modifies this
      ensures Valid()
      ensures ok == Granted(reply)
      ensures ok ==> accessToken == reply.access && refreshToken == refresh
      ensures !ok ==> accessToken == old(accessToken) && refreshToken == old(refreshToken) && headers == old(headers)
    {
      if reply.TokenResponse? && reply.status == 200 {
        var newAccessToken := reply.access;
        if Present(newAccessToken) {
          accessToken := newAccessToken;
          refreshToken := refresh;
          UpdateSessionHeaders();
          return true;
        }
      }
      return false;
    }

    /**
     * `refresh_access_token`: fails at once, without a request, when no
     * refresh token is held; otherwise a granted reply replaces the access
     * token only.  The refresh token never changes.
     */
    method RefreshAccessToken(reply: TokenReply) returns (ok: bool, requested: bool)
      requires Valid()
      modifies this
      ensures Valid()
      ensures requested == Present(old(refreshToken))
      ensures ok == (requested && Granted(reply))
      ensures refreshToken == old(refreshToken)
      ensures ok ==> accessToken == reply.access
      ensures !ok ==> accessToken == old(accessToken) && headers == old(headers)
    {
      if !Present(refreshToken) {
        return false, false;
      }
      requested := true;
      if reply.TokenResponse? && reply.status == 200 {
        var newAccessToken := reply.access;
        if Present(newAccessToken) {
          accessToken := newAccessToken;
          UpdateSessionHeaders();
          return true, requested;
        }
      }
      ok := false;
    }

    /**
     * The refresh-once pattern shared by the authorized calls: send the
     * request; on 401 refresh once and, only if that succeeded, send it
     * once more; then `raise_for_status`.  At most one refresh and at most
     * two requests are made.
     */
    method AuthorizedCall<B>(script: CallScript<B>) returns (res: Result<Response<B>, Error>, requests: nat, refreshes: nat)
      requires Valid()
      modifies this
      ensures Valid()
      ensures refreshes == if Unauthorized(script.first) then 1 else 0
      ensures requests == if Reissued(script, Present(old(refreshToken))) then 2 else 1
      ensures res == CallOutcome(script, Present(old(refreshToken)))
      ensures refreshToken == old(refreshToken)
      ensures accessToken == TokenAfter(old(accessToken), script, Present(old(refreshToken)))
    {
      requests, refreshes := 1, 0;
      if script.first.RequestFailed? {
        return Failure(NetworkError), requests, refreshes;
      }
      var response := script.first.response;
      if response.status == 401 {
        refreshes := 1;
        var ok, _ := RefreshAccessToken(script.refresh);
        if ok {
          requests := 2;
          if script.retry.RequestFailed? {
            return Failure(NetworkError), requests, refreshes;
          }
          response := script.retry.response;
        }
      }
      res := RaiseForStatus(response);
    }

    /** `start_upload`: the decoded reply of an authorized call. */
    method StartUpload(fileSize: nat, fileName: string, script: CallScript<StartReply>)
      returns (res: Result<StartReply, Error>)
      requires Valid()
      modifies this
      ensures Valid() && refreshToken == old(refreshToken)
      ensures accessToken == TokenAfter(old(accessToken), script, Present(old(refreshToken)))
      ensures res == BodyOf(CallOutcome(script, Present(old(refreshToken))))
    {
      var r, _, _ := AuthorizedCall(script);
      res := BodyOf(r);
    }

    /**
     * `complete_upload`: sends the receipts reshaped into the backend's
     * field names, in the same order and without loss.
     */
    method CompleteUpload(uploadId: string, key: string, parts: seq<PartReceipt>, fileName: string,
                          forceOverwrite: bool, script: CallScript<CompleteReply>)
      returns (res: Result<CompleteReply, Error>, sent: CompletePayload)
      requires Valid()
      modifies this
      ensures Valid() && refreshToken == old(refreshToken)
      ensures accessToken == TokenAfter(old(accessToken), script, Present(old(refreshToken)))
      ensures res == BodyOf(CallOutcome(script, Present(old(refreshToken))))
      ensures sent == CompleteRequest(uploadId, key, parts, fileName, forceOverwrite)
      ensures ReceiptsOf(sent.parts) == parts
    {
      sent := CompleteRequest(uploadId, key, parts, fileName, forceOverwrite);
      CompletionRoundTrip(parts);
      var r, _, _ := AuthorizedCall(script);
      res := BodyOf(r);
    }

    /** `create_public_link` (no duration, no expiration count). */
    method CreatePublicLink(objId: int, script: CallScript<LinkReply>) returns (res: Result<LinkReply, Error>)
      requires Valid()
      modifies this
      ensures Valid() && refreshToken == old(refreshToken)
      ensures accessToken == TokenAfter(old(accessToken), script, Present(old(refreshToken)))
      ensures res == BodyOf(CallOutcome(script, Present(old(refreshToken))))
    {
      var r, _, _ := AuthorizedCall(script);
      res := BodyOf(r);
    }

    /** `get_profile`. */
    method GetProfile<P>(script: CallScript<P>) returns (res: Result<P, Error>)
      requires Valid()
      modifies this
      ensures Valid() && refreshToken == old(refreshToken)
      ensures accessToken == TokenAfter(old(accessToken), script, Present(old(refreshToken)))
      ensures res == BodyOf(CallOutcome(script, Present(old(refreshToken))))
    {
      var r, _, _ := AuthorizedCall(script);
      res := BodyOf(r);
    }

    /** `delete_objects`: move objects to the trash. */
    method DeleteObjects<A>(objIds: seq<int>, script: CallScript<A>) returns (res: Result<A, Error>)
      requires Valid()
      modifies this
      ensures Valid() && refreshToken == old(refreshToken)
      ensures accessToken == TokenAfter(old(accessToken), script, Present(old(refreshToken)))
      ensures res == BodyOf(CallOutcome(script, Present(old(refreshToken))))
    {
      var r, _, _ := AuthorizedCall(script);
      res := BodyOf(r);
    }

    /**
     * `delete_version_groups`: after `raise_for_status` it returns whether
     * the final status is 200 (another 2xx or 3xx status gives false).
     */
    method DeleteVersionGroups<A>(versionGroups: seq<string>, script: CallScript<A>) returns (res: Result<bool, Error>)
      requires Valid()
      modifies this
      ensures Valid() && refreshToken == old(refreshToken)
      ensures accessToken == TokenAfter(old(accessToken), script, Present(old(refreshToken)))
      ensures res.Failure? <==> CallOutcome(script, Present(old(refreshToken))).Failure?
      ensures res.Failure? ==> res.error == CallOutcome(script, Present(old(refreshToken))).error
      ensures res.Success? ==> res.value == (CallOutcome(script, Present(old(refreshToken))).value.status == 200)
    {
      var r, _, _ := AuthorizedCall(script);
      res := if r.Success? then Success(r.value.status == 200) else Failure(r.error);
    }

    /**
     * `get_file_details`: list up to 1000 objects through an authorized
     * call, then scan `results` (empty when missing) for the first object
     * with the id.
     */
    method GetFileDetails(objId: int, script: CallScript<ListReply>) returns (res: Result<Option<RemoteObject>, Error>)
      requires Valid()
      modifies this
      ensures Valid() && refreshToken == old(refreshToken)
      ensures accessToken == TokenAfter(old(accessToken), script, Present(old(refreshToken)))
      ensures res.Failure? <==> CallOutcome(script, Present(old(refreshToken))).Failure?
      ensures res.Failure? ==> res.error == CallOutcome(script, Present(old(refreshToken))).error
      ensures res.Success? ==>
        res.value == FindById(CallOutcome(script, Present(old(refreshToken))).value.body.results.GetOr([]), objId)
      ensures res.Success? && res.value.Some? ==> res.value.value.id == Some(objId)
    {
      var r, _, _ := AuthorizedCall(script);
      if r.Failure? {
        return Failure(r.error);
      }
      var listing := r.value.body;
      res := Success(FindById(listing.results.GetOr([]), objId));
    }

    /**
     * `list_objects`: a single request with no 401 handling, so a 401 is
     * raised as it is and no refresh happens; the client's state is left alone.
     */
    method ListObjects(isTrash: bool, limit: int, reply: HttpReply<ListReply>) returns (res: Result<ListReply, Error>)
      ensures reply.Replied? && reply.response.status == 401 ==> res == Failure(HttpStatusError(401))
      ensures reply.RequestFailed? ==> res == Failure(NetworkError)
      ensures res.Success? <==> reply.Replied? && !(400 <= reply.response.status < 600)
      ensures res.Success? ==> res.value == reply.response.body
      ensures res == BodyOf(ReplyOutcome(reply))
    {
      var r := ReplyOutcome(reply);
      res := if r.Success? then Success(r.value.body) else Failure(r.error);
    }
  }
}

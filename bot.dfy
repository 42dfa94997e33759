/**
 * The bot `abrehamrahiBot` as far as it drives the storage client: start-up
 * with the bootstrap token exchange, the upload handler after the download
 * and the delete confirmation.  Messages, keyboards and the download itself
 * are not modelled; every network exchange is a given reply.
 */
module Bot {
  import opened Common
  import opened Credentials
  import opened Partition
  import opened PartUpload
  import opened Receipts
  import opened Directory
  import opened UploadLoop
  import opened Storage

  /** What a successful upload yields: the new object's id and its public link. */
  datatype Uploaded = Uploaded(fileId: int, link: string)

  /** `upload_data.get('chunk_size', 5242880)`. */
  const DefaultChunkSize: int := 5242880

  function ChunkSizeOf(reply: StartReply): int {
    reply.chunkSize.GetOr(DefaultChunkSize)
  }

  function SignedUrlsOf(reply: StartReply): seq<string> {
    reply.signedUrls.GetOr([])
  }

  /** Python truthiness of an optional id: present and not 0. */
  predicate PresentId(id: Option<int>) {
    id.Some? && id.value != 0
  }

  /** The start reply lets the part loop run: both ids are present and the chunk size is positive. */
  predicate ReadyToUpload(reply: StartReply) {
    Present(reply.uploadId) && Present(reply.key) && ChunkSizeOf(reply) > 0
  }

  /** The complete-upload call returns a reply with a usable `id`. */
  predicate Completed(completeScript: CallScript<CompleteReply>, refreshHeld: bool) {
    CallOutcome(completeScript, refreshHeld).Success? && PresentId(CallOutcome(completeScript, refreshHeld).value.body.id)
  }

  /**
   * The access token after the completion call and, when that yields an
   * id, the public-link call.
   */
  function TokenAfterCompletion(access: Option<string>, completeScript: CallScript<CompleteReply>,
                                linkScript: CallScript<LinkReply>, refreshHeld: bool): Option<string>
  {
    var afterComplete := TokenAfter(access, completeScript, refreshHeld);
    if Completed(completeScript, refreshHeld) then TokenAfter(afterComplete, linkScript, refreshHeld) else afterComplete
  }

  /**
   * `__init__`: build the client from the refresh token and exchange it for
   * an access token; when the exchange fails the process exits, which is
   * `None` here.
   */
  method Launch(refreshToken: Option<string>, reply: TokenReply) returns (bot: Option<Bot>)
    ensures bot.Some? <==> Granted(reply)
    ensures bot.Some? ==>
      && fresh(bot.value) && fresh(bot.value.uploader) && bot.value.Valid()
      && bot.value.uploader.accessToken == reply.access
      && bot.value.uploader.refreshToken == refreshToken
  {
    var uploader := new StorageClient(None, refreshToken);
    var ok := uploader.GetAccessTokenFromRefresh(refreshToken, reply);
    if !ok {
      return None;
    }
    var b := new Bot(uploader);
    bot := Some(b);
  }

  class Bot {
    const uploader: StorageClient

    ghost predicate Valid()
      reads this, uploader
    {
      uploader.Valid()
    }

    constructor (uploader: StorageClient)
      requires uploader.Valid()
      ensures this.uploader == uploader && Valid()
    {
      this.uploader := uploader;
    }

    /**
     * `handle_file_upload` from `start_upload` on: check the reply's
     * `upload_id` and `key`, run the part loop with the reply's chunk size
     * and signed URLs, then complete and publish.  The first failure ends
     * the handler with its error.  `started` is the start reply, `sent` the
     * completion request if one was sent.
     */
    method HandleFileUpload(content: seq<byte>, fileSize: nat, fileName: string,
                            startScript: CallScript<StartReply>,
                            net: PutNetwork, clock: nat -> int, editOk: nat -> bool, start: int,
                            completeScript: CallScript<CompleteReply>, linkScript: CallScript<LinkReply>)
      returns (res: Result<Uploaded, Error>, started: Option<StartReply>, sent: Option<CompletePayload>)
      requires Valid()
      modifies uploader
      ensures Valid() && uploader.refreshToken == old(uploader.refreshToken)
      // The start call.
      ensures started.Some? <==> CallOutcome(startScript, Present(uploader.refreshToken)).Success?
      ensures started.Some? ==> started.value == CallOutcome(startScript, Present(uploader.refreshToken)).value.body
      ensures started.None? ==>
        res == Failure(CallOutcome(startScript, Present(uploader.refreshToken)).error) && sent.None?
      ensures started.Some? && !(Present(started.value.uploadId) && Present(started.value.key)) ==>
        res == Failure(ServerError) && sent.None?
      ensures started.Some? && Present(started.value.uploadId) && Present(started.value.key)
              && ChunkSizeOf(started.value) <= 0 ==>
        res == Failure(ZeroChunkSize) && sent.None?
      // The part loop: completion is requested exactly when every part uploads.
      ensures sent.Some? <==>
        && started.Some? && ReadyToUpload(started.value)
        && AllPartsSucceed(content, fileSize, ChunkSizeOf(started.value), SignedUrlsOf(started.value), net)
      ensures sent.Some? ==>
        && sent.value.uploadId == started.value.uploadId.value && sent.value.key == started.value.key.value
        && sent.value.name == fileName && !sent.value.forceOverwrite
        && |sent.value.parts| == TotalParts(fileSize, ChunkSizeOf(started.value))
        && NumberedFromOne(ReceiptsOf(sent.value.parts))
        && AllRecorded(content, fileSize, ChunkSizeOf(started.value), SignedUrlsOf(started.value), net,
                       ReceiptsOf(sent.value.parts))
      ensures started.Some? && ReadyToUpload(started.value)
              && !AllPartsSucceed(content, fileSize, ChunkSizeOf(started.value), SignedUrlsOf(started.value), net) ==>
        && res.Failure?
        && exists k :: FirstFailingPart(content, fileSize, ChunkSizeOf(started.value), SignedUrlsOf(started.value), net, k)
             && res.error == PartError(content, fileSize, ChunkSizeOf(started.value), SignedUrlsOf(started.value), net, k)
      ensures started.Some? && ReadyToUpload(started.value)
              && |SignedUrlsOf(started.value)| < TotalParts(fileSize, ChunkSizeOf(started.value)) ==>
        sent.None? && res.Failure?
      // Completion and the public link.
      ensures sent.Some? ==>
        (res.Success? <==> Completed(completeScript, Present(uploader.refreshToken))
                           && CallOutcome(linkScript, Present(uploader.refreshToken)).Success?)
      ensures sent.Some? && CallOutcome(completeScript, Present(uploader.refreshToken)).Failure? ==>
        res == Failure(CallOutcome(completeScript, Present(uploader.refreshToken)).error)
      ensures sent.Some? && CallOutcome(completeScript, Present(uploader.refreshToken)).Success?
              && !Completed(completeScript, Present(uploader.refreshToken)) ==>
        res == Failure(FileIdError)
      ensures sent.Some? && Completed(completeScript, Present(uploader.refreshToken))
              && CallOutcome(linkScript, Present(uploader.refreshToken)).Failure? ==>
        res == Failure(CallOutcome(linkScript, Present(uploader.refreshToken)).error)
      ensures res.Success? ==>
        && sent.Some?
        && res.value == Uploaded(CallOutcome(completeScript, Present(uploader.refreshToken)).value.body.id.value,
                                 CallOutcome(linkScript, Present(uploader.refreshToken)).value.body.link.GetOr("N/A"))
        && res.value.fileId != 0
      // The access token after the calls made.
      ensures uploader.accessToken ==
        var afterStart := TokenAfter(old(uploader.accessToken), startScript, Present(uploader.refreshToken));
        if sent.None? then afterStart
        else TokenAfterCompletion(afterStart, completeScript, linkScript, Present(uploader.refreshToken))
    {
      sent := None;
      var startRes := uploader.StartUpload(fileSize, fileName, startScript);
      if startRes.Failure? {
        return Failure(startRes.error), None, None;
      }
      var uploadData := startRes.value;
      started := Some(uploadData);
      var uploadId, key := uploadData.uploadId, uploadData.key;
      var signedUrls := SignedUrlsOf(uploadData);
      var actualChunkSize := ChunkSizeOf(uploadData);
      if !Present(uploadId) || !Present(key) {
        return Failure(ServerError), started, None;
      }
      if actualChunkSize <= 0 {
        return Failure(ZeroChunkSize), started, None;
      }

      var failure, parts, _ := UploadParts(content, fileSize, actualChunkSize, signedUrls, net, clock, editOk, start);
      if |signedUrls| < TotalParts(fileSize, actualChunkSize) {
        TooFewUrlsFail(content, fileSize, actualChunkSize, signedUrls, net);
      }
      if failure.Some? {
        FailureIsFirstFailingPart(content, fileSize, actualChunkSize, signedUrls, net, parts);
        return Failure(failure.value), started, None;
      }

      var result, payload := CompleteAndLink(uploadId.value, key.value, parts, fileName, completeScript, linkScript);
      sent := Some(payload);
      res := result;
    }

    /**
     * `complete_upload` without overwrite, the check of the returned `id`
     * and `create_public_link` (`N/A` when the reply has no `link`).
     */
    method CompleteAndLink(uploadId: string, key: string, parts: seq<PartReceipt>, fileName: string,
                           completeScript: CallScript<CompleteReply>, linkScript: CallScript<LinkReply>)
      returns (res: Result<Uploaded, Error>, sent: CompletePayload)
      requires Valid()
      modifies uploader
      ensures Valid() && uploader.refreshToken == old(uploader.refreshToken)
      ensures sent == CompleteRequest(uploadId, key, parts, fileName, false)
      ensures ReceiptsOf(sent.parts) == parts
      ensures res.Success? <==> Completed(completeScript, Present(uploader.refreshToken))
                                && CallOutcome(linkScript, Present(uploader.refreshToken)).Success?
      ensures CallOutcome(completeScript, Present(uploader.refreshToken)).Failure? ==>
        res == Failure(CallOutcome(completeScript, Present(uploader.refreshToken)).error)
      ensures CallOutcome(completeScript, Present(uploader.refreshToken)).Success?
              && !Completed(completeScript, Present(uploader.refreshToken)) ==>
        res == Failure(FileIdError)
      ensures Completed(completeScript, Present(uploader.refreshToken))
              && CallOutcome(linkScript, Present(uploader.refreshToken)).Failure? ==>
        res == Failure(CallOutcome(linkScript, Present(uploader.refreshToken)).error)
      ensures res.Success? ==>
        res.value == Uploaded(CallOutcome(completeScript, Present(uploader.refreshToken)).value.body.id.value,
                              CallOutcome(linkScript, Present(uploader.refreshToken)).value.body.link.GetOr("N/A"))
      ensures uploader.accessToken ==
        TokenAfterCompletion(old(uploader.accessToken), completeScript, linkScript, Present(uploader.refreshToken))
    {
      var result;
      result, sent := uploader.CompleteUpload(uploadId, key, parts, fileName, false, completeScript);
      if result.Failure? {
        return Failure(result.error), sent;
      }
      var fileId := result.value.id;
      if !PresentId(fileId) {
        return Failure(FileIdError), sent;
      }
      var publicLinkData := uploader.CreatePublicLink(fileId.value, linkScript);
      if publicLinkData.Failure? {
        return Failure(publicLinkData.error), sent;
      }
      res := Success(Uploaded(fileId.value, publicLinkData.value.link.GetOr("N/A")));
    }

    /**
     * `confirm_delete_file`: move the object to the trash, look it up, and
     * delete its version group when the lookup found one.  The first failing
     * call ends it with its error.  `details` is the lookup's result and
     * `deletedGroup` the group whose deletion was requested, if any.
     */
    method ConfirmDeleteFile<A>(fileId: int, trashScript: CallScript<A>, listScript: CallScript<ListReply>,
                                groupScript: CallScript<A>)
      returns (failure: Option<Error>, details: Option<RemoteObject>, deletedGroup: Option<string>)
      requires Valid()
      modifies uploader
      ensures Valid() && uploader.refreshToken == old(uploader.refreshToken)
      ensures CallOutcome(trashScript, Present(uploader.refreshToken)).Failure? ==>
        && failure == Some(CallOutcome(trashScript, Present(uploader.refreshToken)).error)
        && details.None? && deletedGroup.None?
      ensures CallOutcome(trashScript, Present(uploader.refreshToken)).Success?
              && CallOutcome(listScript, Present(uploader.refreshToken)).Failure? ==>
        && failure == Some(CallOutcome(listScript, Present(uploader.refreshToken)).error)
        && details.None? && deletedGroup.None?
      // After a successful trash call and lookup: the object found is the
      // first listed with the id, and its group is the one deleted.
      ensures CallOutcome(trashScript, Present(uploader.refreshToken)).Success?
              && CallOutcome(listScript, Present(uploader.refreshToken)).Success? ==>
        && details == FindById(CallOutcome(listScript, Present(uploader.refreshToken)).value.body.results.GetOr([]),
                               fileId)
        && deletedGroup == VersionGroupToDelete(details)
        && (deletedGroup.None? ==> failure.None?)
        && (deletedGroup.Some? ==>
              failure == if CallOutcome(groupScript, Present(uploader.refreshToken)).Failure?
                         then Some(CallOutcome(groupScript, Present(uploader.refreshToken)).error) else None)
      ensures failure.None? ==>
        CallOutcome(trashScript, Present(uploader.refreshToken)).Success?
        && CallOutcome(listScript, Present(uploader.refreshToken)).Success?
      ensures deletedGroup.Some? ==> details.Some? && details.value.id == Some(fileId)
      // The access token after the calls made.
      ensures uploader.accessToken ==
        var afterTrash := TokenAfter(old(uploader.accessToken), trashScript, Present(uploader.refreshToken));
        if CallOutcome(trashScript, Present(uploader.refreshToken)).Failure? then afterTrash
        else
          var afterList := TokenAfter(afterTrash, listScript, Present(uploader.refreshToken));
          if deletedGroup.None? then afterList
          else TokenAfter(afterList, groupScript, Present(uploader.refreshToken))
    {
      details, deletedGroup := None, None;
      var deleteResult := uploader.DeleteObjects([fileId], trashScript);
      if deleteResult.Failure? {
        return Some(deleteResult.error), details, deletedGroup;
      }
      var fileDetails := uploader.GetFileDetails(fileId, listScript);
      if fileDetails.Failure? {
        return Some(fileDetails.error), details, deletedGroup;
      }
      details := fileDetails.value;
      var versionGroup := VersionGroupToDelete(details);
      if versionGroup.Some? {
        deletedGroup := versionGroup;
        var permanentDelete := uploader.DeleteVersionGroups([versionGroup.value], groupScript);
        if permanentDelete.Failure? {
          return Some(permanentDelete.error), details, deletedGroup;
        }
      }
      failure := None;
    }
  }
}

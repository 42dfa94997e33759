/**
 * Pure rules of the object directory: lookup of an object's metadata by
 * id in a listing, the shortened name shown in the management menu, and
 * the decision to delete a version group.
 */
module Directory {
  import opened Common

  /** One entry of `results` in a list-objects response. */
  datatype RemoteObject = RemoteObject(id: Option<int>, name: string, size: int, versionGroup: Option<string>)

  /**
   * `get_file_details`'s scan: the first entry whose `id` equals `objId`,
   * or None when no entry does.
   */
  function FindById(results: seq<RemoteObject>, objId: int): (r: Option<RemoteObject>)
    ensures r.None? <==> forall k :: 0 <= k < |results| ==> results[k].id != Some(objId)
    ensures r.Some? ==>
      exists k :: (0 <= k < |results| && results[k] == r.value && results[k].id == Some(objId)
                   && forall j :: 0 <= j < k ==> results[j].id != Some(objId))
  {
    if results == [] then None
    else if results[0].id == Some(objId) then Some(results[0])
    else
      var r := FindById(results[1..], objId);
      assert forall k :: 1 <= k < |results| ==> results[k] == results[1..][k - 1];
      if r.Some? then
        var k :| 0 <= k < |results[1..]| && results[1..][k] == r.value
          && results[1..][k].id == Some(objId)
          && forall j :: 0 <= j < k ==> results[1..][j].id != Some(objId);
        assert results[k + 1] == r.value;
        r
      else
        r
  }

  /** Names longer than this are shortened in the management menu. */
  const MaxDisplayLength: nat := 30

  /**
   * A name longer than 30 characters becomes its first 27 characters and
   * `...`; a shorter one is shown as it is.
   */
  function DisplayName(name: string): (r: string)
    ensures |r| <= MaxDisplayLength
    ensures r == name <==> |name| <= MaxDisplayLength
    ensures |name| > MaxDisplayLength ==> |r| == MaxDisplayLength && r == name[..27] + "..."
  {
    if |name| > MaxDisplayLength then name[..27] + "..." else name
  }

  /**
   * `confirm_delete_file` deletes a version group only when the object was
   * found and its `version_group` is present and not empty; that group is
   * the one deleted.
   */
  function VersionGroupToDelete(details: Option<RemoteObject>): (r: Option<string>)
    ensures r.Some? <==> details.Some? && Present(details.value.versionGroup)
    ensures r.Some? ==> r.value != "" && details.value.versionGroup == Some(r.value)
  {
    var group := if details.Some? then details.value.versionGroup.GetOr("") else "";
    if group != "" then Some(group) else None
  }

  /** Object 42 listed without a version group: no version group is deleted. */
  lemma NoVersionGroupExample(name: string, size: int)
    ensures VersionGroupToDelete(FindById([RemoteObject(Some(42), name, size, None)], 42)) == None
  {
  }
}

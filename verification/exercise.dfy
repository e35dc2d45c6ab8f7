/**
 The Exercise screen: the shared resource screen over the `exercises` endpoints,
 with the exercise form as its draft and `media_url` as its file field.
 */
module Exercise {
  import opened Js
  import opened JsObject
  import opened ResourceScreen

  const DefaultDraft: Obj := [
    Prop("title", Str("")),
    Prop("description", Str("")),
    Prop("type", Str("")),
    Prop("media_url", Null)
  ]

  const Exercises: Resource :=
    Resource("exercises", DefaultDraft, "media_url", "Failed to save exercise. Please try again later.")

  /** The form's initial and reset value, field by field. */
  lemma DefaultDraftFields()
    ensures Keys(Exercises.defaultDraft) == ["title", "description", "type", "media_url"]
    ensures Get(Exercises.defaultDraft, "title") == Str("")
    ensures Get(Exercises.defaultDraft, "description") == Str("")
    ensures Get(Exercises.defaultDraft, "type") == Str("")
    ensures Get(Exercises.defaultDraft, "media_url") == Null
  {
  }

  /** The list is fetched from `exercises`, twenty rows per page. */
  lemma ListRequest(s: Screen, p: int, resp: ListResponse)
    ensures FetchList(Exercises, s, p, resp).requests == [GetList("exercises", p, 20)]
  {
  }

  /** Opening without both the edit flag and a truthy id shows the empty
      exercise form (type '', no media) and keeps the error map. */
  lemma CreateOpenResetsForm(s: Screen, isEdit: bool, id: Value, detail: DetailResponse)
    requires !(isEdit && Truthy(id))
    ensures var t := OpenModal(Exercises, s, isEdit, id, detail);
      && t.next.modalOpen
      && Get(t.next.draft, "type") == Str("")
      && Get(t.next.draft, "media_url") == Null
      && Keys(t.next.draft) == ["title", "description", "type", "media_url"]
      && t.next.draft == DefaultDraft
      && t.next.errors == s.errors
      && t.requests == []
  {
    DefaultDraftFields();
  }

  /** Opening for edit asks `exercises/{id}/detail` and takes the answer as the
      whole form; a failed fetch leaves the form as it was. */
  lemma EditOpenLoadsDetail(s: Screen, id: Value, detail: DetailResponse)
    requires Truthy(id)
    ensures var t := OpenModal(Exercises, s, true, id, detail);
      && t.requests == [GetDetail("exercises/" + Text(id) + "/detail")]
      && (detail.DetailOk? ==> t.next.draft == detail.body)
      && (detail.DetailFailed? ==> t.next.draft == s.draft)
  {
    assert "exercises" + "/" == "exercises/";
  }

  /** A picked file lands under `media_url` and nowhere else. */
  lemma FileChangeSetsMedia(s: Screen, file: Value)
    ensures var c := HandleFileChange(Exercises, s, file);
      && Get(c.draft, "media_url") == file
      && forall k :: k != "media_url" ==> Get(c.draft, k) == Get(s.draft, k)
  {
  }

  /** The save goes to `exercises/update/{id}` in edit mode and to
      `exercises/create` otherwise, carrying every draft key. */
  lemma SaveTarget(s: Screen, resp: SaveResponse, list: ListResponse)
    ensures var post := HandleSave(Exercises, s, resp, list).requests[0];
      && post.PostForm?
      && post.path == (if s.editMode then "exercises/update/" + Text(s.selectedId) else "exercises/create")
      && |post.fields| == |s.draft|
      && forall i :: 0 <= i < |s.draft| ==> post.fields[i].name == s.draft[i].key
  {
  }

  /** A rejected save without a 400 response shows the exercise failure message. */
  lemma SaveFailureMessage(s: Screen, resp: SaveResponse, list: ListResponse)
    requires resp.Rejected? && !IsValidationFailure(resp)
    ensures HandleSave(Exercises, s, resp, list).next.errors
      == [Prop("error", Str("Failed to save exercise. Please try again later."))]
  {
  }

  /** Whatever happens after the first fetch, a closed modal holds the empty
      exercise form and no errors. */
  lemma ClosedModalIsClean(list: ListResponse, es: seq<Event>)
    ensures var s := Run(Exercises, Mounted(Exercises, list), es);
      !s.modalOpen ==> s.draft == DefaultDraft && s.errors == []
  {
    MountedIsConsistent(Exercises, list);
    RunStaysConsistent(Exercises, Mounted(Exercises, list), es);
  }
}

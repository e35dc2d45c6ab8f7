/**
 The Expert screen: the shared resource screen over the `experts` endpoints,
 with the expert form as its draft and `avatar` as its file field.
 */
module Expert {
  import opened Js
  import opened JsObject
  import opened ResourceScreen

  const DefaultDraft: Obj := [
    Prop("name", Str("")),
    Prop("specialization", Num(0)),
    Prop("bio", Str("")),
    Prop("contact_info", Str("")),
    Prop("phone_number", Str("")),
    Prop("avatar", Null)
  ]

  const Experts: Resource :=
    Resource("experts", DefaultDraft, "avatar", "Failed to save expert. Please try again later.")

  /** The form's initial and reset value, field by field. */
  lemma DefaultDraftFields()
    ensures Keys(Experts.defaultDraft) == ["name", "specialization", "bio", "contact_info", "phone_number", "avatar"]
    ensures Get(Experts.defaultDraft, "name") == Str("")
    ensures Get(Experts.defaultDraft, "specialization") == Num(0)
    ensures Get(Experts.defaultDraft, "bio") == Str("")
    ensures Get(Experts.defaultDraft, "contact_info") == Str("")
    ensures Get(Experts.defaultDraft, "phone_number") == Str("")
    ensures Get(Experts.defaultDraft, "avatar") == Null
  {
  }

  /** The list is fetched from `experts`, twenty rows per page. */
  lemma ListRequest(s: Screen, p: int, resp: ListResponse)
    ensures FetchList(Experts, s, p, resp).requests == [GetList("experts", p, 20)]
  {
  }

  /** Opening without both the edit flag and a truthy id shows the empty expert
      form (specialization 0, no avatar) and keeps the error map. */
  lemma CreateOpenResetsForm(s: Screen, isEdit: bool, id: Value, detail: DetailResponse)
    requires !(isEdit && Truthy(id))
    ensures var t := OpenModal(Experts, s, isEdit, id, detail);
      && t.next.modalOpen
      && Get(t.next.draft, "specialization") == Num(0)
      && Get(t.next.draft, "avatar") == Null
      && Keys(t.next.draft) == ["name", "specialization", "bio", "contact_info", "phone_number", "avatar"]
      && t.next.draft == DefaultDraft
      && t.next.errors == s.errors
      && t.requests == []
  {
    DefaultDraftFields();
  }

  /** Opening for edit asks `experts/{id}/detail` and takes the answer as the
      whole form; a failed fetch leaves the form as it was. */
  lemma EditOpenLoadsDetail(s: Screen, id: Value, detail: DetailResponse)
    requires Truthy(id)
    ensures var t := OpenModal(Experts, s, true, id, detail);
      && t.requests == [GetDetail("experts/" + Text(id) + "/detail")]
      && (detail.DetailOk? ==> t.next.draft == detail.body)
      && (detail.DetailFailed? ==> t.next.draft == s.draft)
  {
    assert "experts" + "/" == "experts/";
  }

  /** A picked file lands under `avatar` and nowhere else. */
  lemma FileChangeSetsAvatar(s: Screen, file: Value)
    ensures var c := HandleFileChange(Experts, s, file);
      && Get(c.draft, "avatar") == file
      && forall k :: k != "avatar" ==> Get(c.draft, k) == Get(s.draft, k)
  {
  }

  /** The save goes to `experts/update/{id}` in edit mode and to
      `experts/create` otherwise, carrying every draft key. */
  lemma SaveTarget(s: Screen, resp: SaveResponse, list: ListResponse)
    ensures var post := HandleSave(Experts, s, resp, list).requests[0];
      && post.PostForm?
      && post.path == (if s.editMode then "experts/update/" + Text(s.selectedId) else "experts/create")
      && |post.fields| == |s.draft|
      && forall i :: 0 <= i < |s.draft| ==> post.fields[i].name == s.draft[i].key
  {
  }

  /** A rejected save without a 400 response shows the expert failure message. */
  lemma SaveFailureMessage(s: Screen, resp: SaveResponse, list: ListResponse)
    requires resp.Rejected? && !IsValidationFailure(resp)
    ensures HandleSave(Experts, s, resp, list).next.errors
      == [Prop("error", Str("Failed to save expert. Please try again later."))]
  {
  }

  /** Whatever happens after the first fetch, a closed modal holds the empty
      expert form and no errors. */
  lemma ClosedModalIsClean(list: ListResponse, es: seq<Event>)
    ensures var s := Run(Experts, Mounted(Experts, list), es);
      !s.modalOpen ==> s.draft == DefaultDraft && s.errors == []
  {
    MountedIsConsistent(Experts, list);
    RunStaysConsistent(Experts, Mounted(Experts, list), es);
  }
}

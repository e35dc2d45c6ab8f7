/**
 The view-state machine shared by the Expert and Exercise screens: a paginated
 list of records, and a modal form that creates a record or edits one.

 Every handler is one atomic transition. A network call the handler awaits is
 an input value (the response it gets), and the transition reports the
 requests it issued, in order. The base URL from the environment is left out
 of every request path.
 */
module ResourceScreen {
  import opened Js
  import opened JsObject
  import opened Pagination

  /** Page size sent with every list request. */
  const PageLimit: int := 20

  datatype Option<T> = None | Some(value: T)

  /** What distinguishes the two screens. */
  datatype Resource = Resource(
    path: string,          // "experts" or "exercises"
    defaultDraft: Obj,     // the form's initial and reset value
    fileField: string,     // the draft key a picked file is stored under
    saveFailure: string)   // the message shown when a save fails without a 400

  datatype Screen = Screen(
    rows: seq<Obj>,        // the records of the current page
    loading: bool,
    page: int,
    totalPages: int,
    modalOpen: bool,
    editMode: bool,
    selectedId: Value,
    errors: Obj,
    draft: Obj)

  datatype FormField = FormField(name: string, value: Value)

  datatype Request =
    | GetList(path: string, page: int, limit: int)
    | GetDetail(path: string)
    | PostForm(path: string, fields: seq<FormField>)

  /** The answer to a list request: the rows and `total_page` of the body, or a
      failure of any kind. */
  datatype ListResponse = ListOk(rows: seq<Obj>, totalPage: int) | ListFailed

  datatype DetailResponse = DetailOk(body: Obj) | DetailFailed

  /** The body of an error response: its `errors` object when that is present,
      and its `error` field (possibly `undefined`). */
  datatype ErrorBody = ErrorBody(status: int, errors: Option<Obj>, error: Value)

  /** A save request either resolves with a status, or is rejected, with the
      server's response when there was one. */
  datatype SaveResponse = Resolved(status: int) | Rejected(response: Option<ErrorBody>)

  datatype Transition = Transition(next: Screen, requests: seq<Request>)

  /** The state a screen starts in, before its first fetch: page 1 of 1, no
      rows, a closed create-mode modal with the default draft and no errors. */
  function Initial(r: Resource): (s: Screen)
    ensures s.page == 1 && s.totalPages == 1 && s.rows == [] && !s.loading
    ensures !s.modalOpen && !s.editMode && s.selectedId == Null
    ensures s.draft == r.defaultDraft && s.errors == []
  {
    Screen([], false, 1, 1, false, false, Null, [], r.defaultDraft)
  }

  function DetailPath(r: Resource, id: Value): string
  {
    r.path + "/" + Text(id) + "/detail"
  }

  function SavePath(r: Resource, editMode: bool, id: Value): string
  {
    if editMode then r.path + "/update/" + Text(id) else r.path + "/create"
  }

  /** The list fetch: replaces the rows and the page count on success, keeps
      them on failure, and in both cases ends with the loading flag down. */
  function FetchList(r: Resource, s: Screen, p: int, resp: ListResponse): (t: Transition)
    ensures t.requests == [GetList(r.path, p, PageLimit)]
    ensures !t.next.loading
    ensures resp.ListOk? ==> t.next.rows == resp.rows && t.next.totalPages == resp.totalPage
    ensures resp.ListFailed? ==> t.next.rows == s.rows && t.next.totalPages == s.totalPages
    ensures t.next.(rows := s.rows, totalPages := s.totalPages, loading := s.loading) == s
  {
    match resp
    case ListOk(rows, total) => Transition(s.(rows := rows, totalPages := total, loading := false), [GetList(r.path, p, PageLimit)])
    case ListFailed => Transition(s.(loading := false), [GetList(r.path, p, PageLimit)])
  }

  /** A requested page is taken only when the guard accepts it. Taking the page
      already shown changes nothing, so it does not refetch either; a new page
      is fetched right away. */
  function HandlePageChange(r: Resource, s: Screen, n: int, resp: ListResponse): (t: Transition)
    ensures t.next.page == if Accepts(n, s.totalPages) then n else s.page
    ensures !Accepts(n, s.totalPages) || n == s.page ==> t == Transition(s, [])
    ensures Accepts(n, s.totalPages) && n != s.page ==>
      && t.requests == [GetList(r.path, n, PageLimit)]
      && t.next == FetchList(r, s.(page := n), n, resp).next
  {
    if Accepts(n, s.totalPages) && n != s.page then FetchList(r, s.(page := n), n, resp)
    else Transition(s, [])
  }

  /** The id parameter defaults to `null`: an `undefined` argument (a row
      without an id) arrives as `null`. */
  function IdArgument(id: Value): (a: Value)
    ensures a != Undefined
    ensures id != Undefined ==> a == id
    ensures Truthy(a) == Truthy(id)
  {
    if id.Undefined? then Null else id
  }

  /** Opening the modal. With the edit flag and a truthy id the draft is kept
      until the detail fetch answers, and a successful answer replaces it
      wholesale; otherwise the draft is reset. The error map is left alone. */
  function OpenModal(r: Resource, s: Screen, isEdit: bool, id: Value, detail: DetailResponse): (t: Transition)
    ensures t.next.modalOpen && t.next.editMode == isEdit
    ensures t.next.selectedId == (if id.Undefined? then Null else id)
    ensures t.next.errors == s.errors
    ensures !(isEdit && Truthy(id)) ==> t.next.draft == r.defaultDraft && t.requests == []
    ensures isEdit && Truthy(id) ==>
      && t.requests == [GetDetail(DetailPath(r, id))]
      && t.next.draft == (if detail.DetailOk? then detail.body else s.draft)
    ensures t.next.(modalOpen := s.modalOpen, editMode := s.editMode, selectedId := s.selectedId, draft := s.draft) == s
  {
    var id := IdArgument(id);
    var shown := s.(modalOpen := true, editMode := isEdit, selectedId := id);
    if isEdit && Truthy(id) then FetchDetails(r, shown, id, detail)
    else Transition(ResetForm(r, shown), [])
  }

  /** Resetting the form puts the default draft back and touches nothing else. */
  function ResetForm(r: Resource, s: Screen): (c: Screen)
    ensures c.draft == r.defaultDraft
    ensures c.(draft := s.draft) == s
  {
    s.(draft := r.defaultDraft)
  }

  /** The detail fetch asks for the record's detail; a success replaces the
      draft wholesale with the body, a failure changes nothing. */
  function FetchDetails(r: Resource, s: Screen, id: Value, detail: DetailResponse): (t: Transition)
    ensures t.requests == [GetDetail(DetailPath(r, id))]
    ensures detail.DetailOk? ==> t.next == s.(draft := detail.body)
    ensures detail.DetailFailed? ==> t.next == s
  {
    match detail
    case DetailOk(body) => Transition(s.(draft := body), [GetDetail(DetailPath(r, id))])
    case DetailFailed => Transition(s, [GetDetail(DetailPath(r, id))])
  }

  /** Closing the modal, whatever the reason: the draft goes back to the
      default and the error map is emptied. Mode and selected id stay. */
  function CloseModal(r: Resource, s: Screen): (c: Screen)
    ensures !c.modalOpen && c.draft == r.defaultDraft && c.errors == []
    ensures c.(modalOpen := s.modalOpen, draft := s.draft, errors := s.errors) == s
  {
    ResetForm(r, s.(modalOpen := false)).(errors := [])
  }

  /** Editing an input writes the input's value under the input's name; every
      other draft key keeps its value, and nothing outside the draft changes. */
  function HandleInputChange(s: Screen, name: string, value: Value): (c: Screen)
    ensures Get(c.draft, name) == value
    ensures forall k :: k != name ==> Get(c.draft, k) == Get(s.draft, k)
    ensures KeySet(c.draft) == KeySet(s.draft) + {name}
    ensures c.(draft := s.draft) == s
  {
    s.(draft := Put(s.draft, name, value))
  }

  /** Picking a file stores `files[0]` (undefined when nothing was picked)
      under the resource's file field and touches no other key. */
  function HandleFileChange(r: Resource, s: Screen, file: Value): (c: Screen)
    ensures Get(c.draft, r.fileField) == file
    ensures forall k :: k != r.fileField ==> Get(c.draft, k) == Get(s.draft, k)
    ensures KeySet(c.draft) == KeySet(s.draft) + {r.fileField}
    ensures c.(draft := s.draft) == s
  {
    s.(draft := Put(s.draft, r.fileField, file))
  }

  /** The multipart payload: one field per draft key, in `Object.keys` order,
      carrying that key's value. */
  function FormEntries(d: seq<Prop>): (f: seq<FormField>)
    ensures |f| == |d|
    ensures forall i :: 0 <= i < |d| ==> f[i].name == d[i].key && f[i].value == d[i].value
  {
    if |d| == 0 then [] else [FormField(d[0].key, d[0].value)] + FormEntries(d[1..])
  }

  /** The payload names exactly the draft's keys, and each field carries the
      draft's value for its key. */
  lemma PayloadMatchesDraft(d: Obj, k: string)
    ensures (exists i :: 0 <= i < |FormEntries(d)| && FormEntries(d)[i].name == k) <==> k in KeySet(d)
    ensures forall i :: 0 <= i < |FormEntries(d)| && FormEntries(d)[i].name == k ==> FormEntries(d)[i].value == Get(d, k)
  {
    var f := FormEntries(d);
    if k in KeySet(d) {
      var i := KeyPosition(d, k);
      assert f[i].name == k;
    }
    forall i | 0 <= i < |f| && f[i].name == k
      ensures f[i].value == Get(d, k)
    {
      GetAt(d, i);
    }
  }

  /** The error map a 400 response leaves: its `errors` object when present,
      otherwise `{error: body.error}`. */
  function ValidationErrors(b: ErrorBody): (e: Obj)
    ensures b.errors.Some? ==> e == b.errors.value
    ensures b.errors.None? ==> e == [Prop("error", b.error)]
  {
    match b.errors
    case Some(e) => e
    case None => [Prop("error", b.error)]
  }

  predicate SaveSucceeded(resp: SaveResponse)
  {
    resp.Resolved? && (resp.status == 200 || resp.status == 201)
  }

  predicate IsValidationFailure(resp: SaveResponse)
  {
    resp.Rejected? && resp.response.Some? && resp.response.value.status == 400
  }

  /** Saving posts the whole draft, to the update endpoint of the selected id
      in edit mode and to the create endpoint otherwise. A 200 or 201 closes
      the modal and refetches the page being shown; another resolved status
      changes nothing; a 400 installs the server's validation errors; any other
      rejection installs the one generic message. Failures keep the modal, the
      draft and the list as they were. */
  function HandleSave(r: Resource, s: Screen, resp: SaveResponse, list: ListResponse): (t: Transition)
    ensures |t.requests| >= 1
    ensures t.requests[0] == PostForm(SavePath(r, s.editMode, s.selectedId), FormEntries(s.draft))
    ensures SaveSucceeded(resp) ==>
      && t.requests == [t.requests[0], GetList(r.path, s.page, PageLimit)]
      && t.next == FetchList(r, CloseModal(r, s), s.page, list).next
    ensures !SaveSucceeded(resp) ==> |t.requests| == 1 && t.next == s.(errors := t.next.errors)
    ensures resp.Resolved? && !SaveSucceeded(resp) ==> t.next == s
    ensures IsValidationFailure(resp) ==> t.next.errors == ValidationErrors(resp.response.value)
    ensures resp.Rejected? && !IsValidationFailure(resp) ==> t.next.errors == [Prop("error", Str(r.saveFailure))]
  {
    var post := PostForm(SavePath(r, s.editMode, s.selectedId), FormEntries(s.draft));
    match resp
    case Resolved(status) =>
      if status == 200 || status == 201 then
        var refetch := FetchList(r, CloseModal(r, s), s.page, list);
        Transition(refetch.next, [post] + refetch.requests)
      else
        Transition(s, [post])
    case Rejected(Some(body)) =>
      if body.status == 400 then Transition(s.(errors := ValidationErrors(body)), [post])
      else Transition(s.(errors := [Prop("error", Str(r.saveFailure))]), [post])
    case Rejected(None) =>
      Transition(s.(errors := [Prop("error", Str(r.saveFailure))]), [post])
  }

  /** The create endpoint and an update endpoint never coincide, and an update
      path names its record: equal save paths mean the same mode and, in edit
      mode, ids with the same text. */
  lemma SavePathIdentifiesTarget(r: Resource, e1: bool, id1: Value, e2: bool, id2: Value)
    requires SavePath(r, e1, id1) == SavePath(r, e2, id2)
    ensures e1 == e2
    ensures e1 ==> Text(id1) == Text(id2)
  {
    if e1 && e2 {
      var prefix := r.path + "/update/";
      assert Text(id1) == SavePath(r, e1, id1)[|prefix|..];
      assert Text(id2) == SavePath(r, e2, id2)[|prefix|..];
    }
  }

  /** In edit mode, records with different numeric ids are saved to different
      endpoints. */
  lemma DistinctIdsDistinctUpdatePaths(r: Resource, a: int, b: int)
    requires a != b
    ensures SavePath(r, true, Num(a)) != SavePath(r, true, Num(b))
  {
    if SavePath(r, true, Num(a)) == SavePath(r, true, Num(b)) {
      SavePathIdentifiesTarget(r, true, Num(a), true, Num(b));
      NumTextInjective(a, b);
    }
  }

  /** The edit flag with a falsy id (say record 0) still puts the modal in edit
      mode, but the form is reset instead of loaded, and a save then goes to
      the update endpoint of that id. */
  lemma EditFlagWithFalsyId(r: Resource, s: Screen, detail: DetailResponse, resp: SaveResponse, list: ListResponse)
    ensures var t := OpenModal(r, s, true, Num(0), detail);
      && t.next.editMode
      && t.next.draft == r.defaultDraft
      && t.requests == []
      && HandleSave(r, t.next, resp, list).requests[0].path == r.path + "/update/0"
  {
  }

  /** A row without an id opens the edit modal with the id `null`, resets the
      form, and a later save posts to `update/null`. */
  lemma MissingIdStoredAsNull(r: Resource, s: Screen, detail: DetailResponse, resp: SaveResponse, list: ListResponse)
    ensures var t := OpenModal(r, s, true, Undefined, detail);
      && t.next.editMode
      && t.next.selectedId == Null
      && t.next.draft == r.defaultDraft
      && HandleSave(r, t.next, resp, list).requests[0].path == r.path + "/update/null"
  {
  }

  /** The user actions of the screen; each carries the response(s) its handler
      awaits. */
  datatype Event =
    | PageChange(n: int, list: ListResponse)
    | Open(isEdit: bool, id: Value, detail: DetailResponse)
    | Close
    | Input(name: string, value: Value)
    | ChooseFile(file: Value)
    | Save(response: SaveResponse, list: ListResponse)

  /** The form's inputs and its save button exist only while the modal is open. */
  predicate Enabled(s: Screen, e: Event)
  {
    (e.Input? || e.ChooseFile? || e.Save?) ==> s.modalOpen
  }

  /** One action. Only opening opens the modal; closing and a successful save
      close it. Only saving and closing touch the error map, and local edits
      send no request. */
  function Step(r: Resource, s: Screen, e: Event): (t: Transition)
    ensures t.next.modalOpen == (e.Open? || (s.modalOpen && !e.Close? && !(e.Save? && SaveSucceeded(e.response))))
    ensures !e.Save? && !e.Close? ==> t.next.errors == s.errors
    ensures e.Input? || e.ChooseFile? || e.Close? ==> t.requests == []
  {
    match e
    case PageChange(n, list) => HandlePageChange(r, s, n, list)
    case Open(isEdit, id, detail) => OpenModal(r, s, isEdit, id, detail)
    case Close => Transition(CloseModal(r, s), [])
    case Input(name, value) => Transition(HandleInputChange(s, name, value), [])
    case ChooseFile(file) => Transition(HandleFileChange(r, s, file), [])
    case Save(resp, list) => HandleSave(r, s, resp, list)
  }

  /** The screen after a sequence of actions; an action on a control that is
      not rendered does nothing. */
  function Run(r: Resource, s: Screen, es: seq<Event>): (out: Screen)
    ensures (forall i :: 0 <= i < |es| ==> !es[i].Open?) && !s.modalOpen ==> !out.modalOpen
    ensures (forall i :: 0 <= i < |es| ==> es[i].PageChange?) ==>
      out.draft == s.draft && out.errors == s.errors && out.modalOpen == s.modalOpen
    decreases |es|
  {
    if |es| == 0 then s
    else if Enabled(s, es[0]) then Run(r, Step(r, s, es[0]).next, es[1..])
    else Run(r, s, es[1..])
  }

  /** The state a screen shows once its first fetch (page 1, on mount) is done. */
  function Mounted(r: Resource, list: ListResponse): Screen
  {
    FetchList(r, Initial(r), 1, list).next
  }

  /** What holds between actions: the page is a real page number, no fetch is
      pending, and a closed modal holds the default draft and no errors. */
  predicate Consistent(r: Resource, s: Screen)
  {
    && s.page >= 1
    && !s.loading
    && (!s.modalOpen ==> s.draft == r.defaultDraft && s.errors == [])
  }

  lemma MountedIsConsistent(r: Resource, list: ListResponse)
    ensures Consistent(r, Mounted(r, list))
  {
  }

  lemma StepPreservesConsistent(r: Resource, s: Screen, e: Event)
    requires Consistent(r, s) && Enabled(s, e)
    ensures Consistent(r, Step(r, s, e).next)
  {
  }

  /** From the mounted screen, whatever the user does and whatever the server
      answers, a closed modal always holds the default draft and no errors. */
  lemma {:induction false} RunStaysConsistent(r: Resource, s: Screen, es: seq<Event>)
    requires Consistent(r, s)
    ensures Consistent(r, Run(r, s, es))
    decreases |es|
  {
    if |es| > 0 {
      if Enabled(s, es[0]) {
        StepPreservesConsistent(r, s, es[0]);
        RunStaysConsistent(r, Step(r, s, es[0]).next, es[1..]);
      } else {
        RunStaysConsistent(r, s, es[1..]);
      }
    }
  }

  /** Only saving and closing touch the error map. */
  lemma ErrorsChangeOnlyOnSaveOrClose(r: Resource, s: Screen, e: Event)
    requires !e.Save? && !e.Close?
    ensures Step(r, s, e).next.errors == s.errors
  {
  }

  /** Opening in create mode from a closed, consistent screen gives the
      default draft and an empty error map, whatever an earlier session left. */
  lemma CreateOpenStartsClean(r: Resource, s: Screen, id: Value, detail: DetailResponse)
    requires Consistent(r, s) && !s.modalOpen
    ensures OpenModal(r, s, false, id, detail).next.draft == r.defaultDraft
    ensures OpenModal(r, s, false, id, detail).next.errors == []
  {
  }

  /** Asking twice for the same page is asking once: the second request is a
      no-op whatever the first fetch returned. */
  lemma PageChangeIdempotent(r: Resource, s: Screen, n: int, l1: ListResponse, l2: ListResponse)
    ensures var t := HandlePageChange(r, s, n, l1);
      HandlePageChange(r, t.next, n, l2) == Transition(t.next, [])
  {
  }

  /** Clicking a numbered button other than the active one moves to its page
      and fetches it. */
  lemma WindowButtonNavigates(r: Resource, s: Screen, i: int, list: ListResponse)
    requires Consistent(r, s) && 0 <= s.totalPages <= MaxArrayLength
    requires 0 < i < |PageWindow(s.page, s.totalPages).buttons|
    ensures var n := PageWindow(s.page, s.totalPages).buttons[i].number;
      HandlePageChange(r, s, n, list).next.page == n
      && HandlePageChange(r, s, n, list).requests == [GetList(r.path, n, PageLimit)]
  {
    WindowShape(s.page, s.totalPages);
  }

  /** A successful list fetch shows exactly the rows returned for the page: the
      result does not depend on the rows or page count shown before. */
  lemma FetchReplacesCache(r: Resource, s1: Screen, s2: Screen, p: int, rows: seq<Obj>, total: int)
    requires s1.(rows := s2.rows, totalPages := s2.totalPages) == s2
    ensures FetchList(r, s1, p, ListOk(rows, total)) == FetchList(r, s2, p, ListOk(rows, total))
  {
  }

  /** A failed fetch after an accepted page change moves the page number but
      leaves the previous page's rows on screen. */
  lemma FailedPageFetchKeepsRows(r: Resource, s: Screen, n: int)
    requires Accepts(n, s.totalPages) && n != s.page
    ensures HandlePageChange(r, s, n, ListFailed).next == s.(page := n, loading := false)
  {
  }

  /** After a successful save the modal is closed and clean, and the page being
      shown, not the first page, is fetched again. */
  lemma SaveSuccessRefetchesCurrentPage(r: Resource, s: Screen, resp: SaveResponse, list: ListResponse)
    requires SaveSucceeded(resp)
    ensures var t := HandleSave(r, s, resp, list);
      && !t.next.modalOpen && t.next.draft == r.defaultDraft && t.next.errors == []
      && t.next.page == s.page
      && t.requests[1] == GetList(r.path, s.page, PageLimit)
  {
  }
}

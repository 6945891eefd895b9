/** What the attendance and marks pages share: both load one list out of
    the profile the proxy returns, keep the old list when that fails, and
    render a loading note, the error, an empty note and one block per entry. */
module ListPage {
  import opened JsValues
  import opened Http

  /** The state of either page: the list, the loading flag and the error. */
  datatype ListState = ListState(list: Json, isLoading: bool, error: Json)

  const Initial: ListState := ListState(Arr([]), false, Null)

  const NoTokenMessage: string := "Authentication token is required"

  datatype Result = Fetched(list: Json) | Rejected(error: Error)

  /** `response.data.userInfo[key]` when the data, its `userInfo` and that
      field are all truthy; otherwise the `Error` thrown with `invalid`. */
  function Field(response: Response, key: string, invalid: string): (r: Result)
    ensures r.Fetched? <==> (response.Ok? && IsTruthy(response.body)
      && Truthy(Get(response.body, "userInfo")) && Truthy(Get(Get(response.body, "userInfo").value, key)))
    ensures r.Fetched? ==> IsTruthy(r.list)
    ensures r.Rejected? && response.Ok? ==> r.error == Thrown(invalid)
    ensures r.Rejected? && response.Failed? ==> r.error == response.error
  {
    match response
    case Failed(e) => Rejected(e)
    case Ok(body) =>
      if !IsTruthy(body) || !Truthy(Get(body, "userInfo")) then Rejected(Thrown(invalid))
      else
        var field := Get(Get(body, "userInfo").value, key);
        if Truthy(field) then Fetched(field.value) else Rejected(Thrown(invalid))
  }

  /** The loader: no token sets the error and nothing else; otherwise the
      page loads, and either takes the field or shows the catch block's
      message, keeping the old list. An HTTP error with a `null` body throws
      inside the catch block and leaves the page loading. */
  function Load(s: ListState, hasToken: bool, response: Response, key: string, invalid: string, fallback: string)
    : ListState
  {
    if !hasToken then s.(error := Str(NoTokenMessage))
    else
      var s1 := s.(isLoading := true, error := Null);
      match Field(response, key, invalid)
      case Fetched(list) => s1.(list := list, isLoading := false)
      case Rejected(e) =>
        match CatchMessage(e, fallback)
        case Some(m) => s1.(error := m, isLoading := false)
        case None => s1
  }

  /** What `Load` promises, outcome by outcome. */
  lemma LoadOutcomes(s: ListState, hasToken: bool, response: Response, key: string, invalid: string, fallback: string)
    requires fallback != ""
    ensures var t := Load(s, hasToken, response, key, invalid, fallback);
      var r := Field(response, key, invalid);
      && (!hasToken ==> t == s.(error := Str(NoTokenMessage)))
      && (hasToken && r.Fetched? ==> t == ListState(r.list, false, Null))
      && (hasToken && r.Rejected? ==> t.list == s.list)
      && (hasToken && r.Rejected? && !(r.error.HttpError? && r.error.body.Null?) ==>
            !t.isLoading && IsTruthy(t.error) && t.error == CatchMessage(r.error, fallback).value)
      && (hasToken && r.Rejected? && r.error.HttpError? && r.error.body.Null? ==> t.isLoading && t.error == Null)
  {
  }

  /** What the page renders: the loading note, the error, the empty note,
      and the entries; `entries` is `None` where `list.map` or the `key`
      read on an entry throws. */
  datatype View = View(loadingNote: bool, error: Option<Json>, emptyNote: bool, entries: Option<seq<Json>>)

  function Render(s: ListState): (v: View)
    ensures v.loadingNote == s.isLoading
    ensures v.error.Some? <==> IsTruthy(s.error)
    ensures v.emptyNote <==> !s.isLoading && !IsTruthy(s.error) && Get(s.list, "length") == Some(Num(0))
    ensures v.entries.Some? <==> s.list.Arr? && Null !in s.list.items
    ensures v.entries.Some? ==> v.entries.value == s.list.items
  {
    View(
      s.isLoading,
      if IsTruthy(s.error) then Some(s.error) else None,
      !s.isLoading && !IsTruthy(s.error) && Get(s.list, "length") == Some(Num(0)),
      if s.list.Arr? && Null !in s.list.items then Some(s.list.items) else None)
  }

  /** After a successful load of an array without `null` entries, the page
      shows exactly those entries, no error and no loading note, and the
      empty note exactly when the array is empty. */
  lemma RenderAfterLoad(s: ListState, response: Response, key: string, invalid: string, fallback: string, items: seq<Json>)
    requires Field(response, key, invalid) == Fetched(Arr(items)) && Null !in items
    ensures var v := Render(Load(s, true, response, key, invalid, fallback));
      && !v.loadingNote && v.error.None? && v.entries == Some(items)
      && (v.emptyNote <==> items == [])
  {
  }

  /** A failed load still shows the old entries under the error. */
  lemma RenderAfterFailure(s: ListState, response: Response, key: string, invalid: string, fallback: string)
    requires fallback != ""
    requires Field(response, key, invalid).Rejected?
    requires !(Field(response, key, invalid).error.HttpError? && Field(response, key, invalid).error.body.Null?)
    ensures var v := Render(Load(s, true, response, key, invalid, fallback));
      && v.error.Some? && !v.emptyNote && !v.loadingNote && v.entries == Render(s).entries
  {
  }
}

/** The page-copy editor of the admin panel: update-only editing of the two
    fixed `content` rows "home" and "about", with a draft list of
    "what sets us apart" points edited by append and remove. */
module ContentEditor {
  import opened Common
  import opened JsText
  import opened Rows

  /** The form; the list is edited item by item, not as text. */
  datatype ContentDraft = ContentDraft(
    title: string,
    body: string,
    philosophy: string,
    whatSetsApart: seq<string>)

  const EmptyContentDraft := ContentDraft("", "", "", [])

  /** The fields only the "about" row's update carries. */
  datatype AboutFields = AboutFields(philosophy: string, whatSetsApart: seq<string>)

  /** The update patch (the wall-clock `updated_at` is not modelled). */
  datatype ContentPatch = ContentPatch(title: string, body: string, about: Option<AboutFields>)

  /** The listing query: the rows "home" and "about". */
  const ContentQuery := Select("content", [IdIn(["home", "about"])], None, None)

  /** The draft `handleEdit` fills from a row: null texts become empty
      strings and a null list becomes the empty list. */
  function DraftFromRow(item: ContentItem): (d: ContentDraft)
    ensures d.title == "" <==> item.title.None? || item.title.value == ""
    ensures d.body == "" <==> item.body.None? || item.body.value == ""
    ensures d.philosophy == "" <==> item.philosophy.None? || item.philosophy.value == ""
    ensures item.title.Some? ==> d.title == item.title.value
    ensures item.body.Some? ==> d.body == item.body.value
    ensures item.philosophy.Some? ==> d.philosophy == item.philosophy.value
    ensures d.whatSetsApart == if item.whatSetsApart.Some? then item.whatSetsApart.value else []
  {
    ContentDraft(
      OrEmpty(item.title),
      OrEmpty(item.body),
      OrEmpty(item.philosophy),
      if item.whatSetsApart.Some? then item.whatSetsApart.value else [])
  }

  /** The patch `handleSubmit` sends for the row being edited: title and body
      verbatim (an empty string stays empty), and the philosophy and the list
      only for the "about" row. */
  function BuildPatch(editingId: string, d: ContentDraft): (p: ContentPatch)
    ensures p.title == d.title && p.body == d.body
    ensures p.about.Some? <==> editingId == "about"
    ensures p.about.Some? ==>
      p.about.value.philosophy == d.philosophy && p.about.value.whatSetsApart == d.whatSetsApart
  {
    ContentPatch(d.title, d.body,
      if editingId == "about" then Some(AboutFields(d.philosophy, d.whatSetsApart)) else None)
  }

  /** Editing a row and submitting it unchanged writes back its texts with
      null turned into '', and touches the philosophy and the list only for
      "about". */
  lemma EditSubmitNormalises(item: ContentItem)
    ensures var p := BuildPatch(item.id, DraftFromRow(item));
      && p.title == OrEmpty(item.title)
      && p.body == OrEmpty(item.body)
      && (item.id == "about" ==>
            p.about == Some(AboutFields(OrEmpty(item.philosophy),
                                        if item.whatSetsApart.Some? then item.whatSetsApart.value else [])))
      && (item.id != "about" ==> p.about.None?)
  {
  }

  /** `addWhatSetsApart` on the list and the input: the trimmed input is
      appended and the input cleared when it is not blank; otherwise nothing
      changes. */
  function AddItem(items: seq<string>, newItem: string): (r: (seq<string>, string))
    ensures Trim(newItem) != "" ==> r.0 == items + [Trim(newItem)] && r.1 == ""
    ensures Trim(newItem) == "" ==> r == (items, newItem)
  {
    var item := Trim(newItem);
    if item != "" then (items + [item], "") else (items, newItem)
  }

  /** `items.filter((_, i) => i !== index)`: exactly the element at `index`
      is dropped, the rest keep their order; an index outside the list drops
      nothing. */
  function WithoutIndex<T>(items: seq<T>, index: int): (r: seq<T>)
    ensures 0 <= index < |items| ==> r == items[..index] + items[index + 1..]
    ensures !(0 <= index < |items|) ==> r == items
    ensures forall x :: x in r ==> x in items
  {
    if items == [] then []
    else
      var rest := WithoutIndex(items[1..], index - 1);
      if index == 0 then rest
      else
        assert 0 < index < |items| ==> items[..index] == [items[0]] + items[1..][..index - 1];
        [items[0]] + rest
  }

  /** Removing index 0 of ["A", "B"] leaves ["B"]. */
  lemma RemoveExample()
    ensures WithoutIndex(["A", "B"], 0) == ["B"]
  {
  }

  /** Every point is non-empty and has no whitespace at either end. */
  predicate AllTrimmed(items: seq<string>) {
    forall x :: x in items ==> x != "" && Trim(x) == x
  }

  /** Adding a point keeps a trimmed list trimmed. */
  lemma AddKeepsTrimmed(items: seq<string>, newItem: string)
    requires AllTrimmed(items)
    ensures AllTrimmed(AddItem(items, newItem).0)
  {
    var item := Trim(newItem);
    if item != "" {
      TrimIdempotent(newItem);
      var added := items + [item];
      forall x | x in added
        ensures x != "" && Trim(x) == x
      {
        if x !in items {
          assert x == item;
        }
      }
    }
  }

  /** Removing a point keeps a trimmed list trimmed. */
  lemma RemoveKeepsTrimmed(items: seq<string>, index: int)
    requires AllTrimmed(items)
    ensures AllTrimmed(WithoutIndex(items, index))
  {
  }

  /** The editor state of `ContentManager`. */
  class ContentManager {
    var content: seq<ContentItem>
    var editingId: Option<string>
    var formData: ContentDraft
    var newItem: string

    constructor ()
      ensures content == [] && editingId == None && formData == EmptyContentDraft && newItem == ""
    {
      content := [];
      editingId := None;
      formData := EmptyContentDraft;
      newItem := "";
    }

    /** `fetchContent`: a failed query keeps the list. */
    method FetchContent(result: Fetch<seq<ContentItem>>) returns (query: Query, notices: seq<Notice>)
      modifies this
      ensures query == ContentQuery
      ensures content == Refreshed(old(content), result)
      ensures editingId == old(editingId) && formData == old(formData) && newItem == old(newItem)
      ensures notices == FetchNotices(result, "Failed to fetch content")
    {
      query := ContentQuery;
      content := Refreshed(content, result);
      notices := FetchNotices(result, "Failed to fetch content");
    }

    /** `handleEdit`: open the row with its fields in the draft. */
    method HandleEdit(item: ContentItem)
      modifies this
      ensures editingId == Some(item.id) && formData == DraftFromRow(item)
      ensures content == old(content) && newItem == old(newItem)
    {
      editingId := Some(item.id);
      formData := DraftFromRow(item);
    }

    /** `handleSubmit`: without an open edit nothing happens; otherwise the
        row is updated, and on success the edit is closed, the draft cleared
        and the list refetched, while a failure keeps the edit for a retry. */
    method HandleSubmit(status: Status, refetch: Fetch<seq<ContentItem>>)
      returns (request: Option<Write<ContentPatch>>, notices: seq<Notice>, refetched: bool)
      modifies this
      ensures newItem == old(newItem)
      ensures !Truthy(old(editingId)) ==>
        && request.None? && notices == [] && !refetched
        && content == old(content) && editingId == old(editingId) && formData == old(formData)
      ensures Truthy(old(editingId)) ==>
        request == Some(Update(old(editingId).value, BuildPatch(old(editingId).value, old(formData))))
      ensures Truthy(old(editingId)) && status == Failed ==>
        && !refetched && notices == [Notice(Error, "Error", "Failed to update content")]
        && content == old(content) && editingId == old(editingId) && formData == old(formData)
      ensures Truthy(old(editingId)) && status == Succeeded ==>
        && refetched && editingId == None && formData == EmptyContentDraft
        && content == Refreshed(old(content), refetch)
        && notices == [Notice(Success, "Success", "Content updated successfully")]
                     + FetchNotices(refetch, "Failed to fetch content")
    {
      request, notices, refetched := None, [], false;
      if !Truthy(editingId) {
        return;
      }
      var id := editingId.value;
      request := Some(Update(id, BuildPatch(id, formData)));
      if status == Failed {
        notices := [Notice(Error, "Error", "Failed to update content")];
      } else {
        notices := [Notice(Success, "Success", "Content updated successfully")];
        editingId := None;
        formData := EmptyContentDraft;
        var _, fetchNotices := FetchContent(refetch);
        notices := notices + fetchNotices;
        refetched := true;
      }
    }

    /** `handleCancel`: close the edit and clear the draft, no request. */
    method HandleCancel()
      modifies this
      ensures editingId == None && formData == EmptyContentDraft
      ensures content == old(content) && newItem == old(newItem)
    {
      editingId := None;
      formData := EmptyContentDraft;
    }

    /** `addWhatSetsApart`. */
    method AddWhatSetsApart()
      modifies this
      ensures (formData.whatSetsApart, newItem) == AddItem(old(formData.whatSetsApart), old(newItem))
      ensures formData == old(formData).(whatSetsApart := formData.whatSetsApart)
      ensures content == old(content) && editingId == old(editingId)
    {
      var item := Trim(newItem);
      if item != "" {
        formData := formData.(whatSetsApart := formData.whatSetsApart + [item]);
        newItem := "";
      }
    }

    /** `removeWhatSetsApart(index)`. */
    method RemoveWhatSetsApart(index: int)
      modifies this
      ensures formData == old(formData).(whatSetsApart := WithoutIndex(old(formData.whatSetsApart), index))
      ensures content == old(content) && editingId == old(editingId) && newItem == old(newItem)
    {
      formData := formData.(whatSetsApart := WithoutIndex(formData.whatSetsApart, index));
    }
  }
}

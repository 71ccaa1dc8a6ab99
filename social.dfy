/** The social-link editor of the admin panel: the same edit / insert / update
    cycle as the other editors, except that every submit, failed or not,
    closes the form, resets the draft and refetches. */
module SocialEditor {
  import opened Common
  import opened JsText
  import opened Rows

  /** The form; it is also the payload, sent as it stands. */
  datatype SocialDraft = SocialDraft(
    platform: string,
    url: string,
    iconName: string,
    isActive: bool,
    displayOrder: int)

  const DefaultSocialDraft := SocialDraft("", "", "", true, 0)

  /** The listing query: all links by ascending display order. */
  const SocialQuery := Select("social_media", [], Some(Ascending("display_order")), None)

  /** `parseInt(input) || 0` with the parse given as its result: NaN (None)
      and zero both store 0, any other number is stored as parsed. */
  function ParseDisplayOrder(parsed: Option<int>): (n: int)
    ensures parsed.None? ==> n == 0
    ensures parsed.Some? ==> n == parsed.value
  {
    if parsed.Some? && parsed.value != 0 then parsed.value else 0
  }

  /** The draft `handleEdit` fills: all five fields of the row. */
  function DraftFromLink(item: SocialLink): (d: SocialDraft)
    ensures LinkOf(item.id, d) == item
  {
    SocialDraft(item.platform, item.url, item.iconName, item.isActive, item.displayOrder)
  }

  /** The row an update with this draft leaves under `id`. */
  function LinkOf(id: string, d: SocialDraft): (link: SocialLink) {
    SocialLink(id, d.platform, d.url, d.iconName, d.isActive, d.displayOrder)
  }

  /** The editor state of `SocialMediaManager`. */
  class SocialMediaManager {
    var socialMedia: seq<SocialLink>
    var isEditing: bool
    var editingId: Option<string>
    var formData: SocialDraft

    /** An edit target exists only while the form is open. */
    predicate Valid()
      reads this
    {
      !isEditing ==> editingId.None?
    }

    constructor ()
      ensures Valid()
      ensures socialMedia == [] && !isEditing && editingId == None && formData == DefaultSocialDraft
    {
      socialMedia := [];
      isEditing := false;
      editingId := None;
      formData := DefaultSocialDraft;
    }

    /** `fetchSocialMedia`: a failed query keeps the list. */
    method FetchSocialMedia(result: Fetch<seq<SocialLink>>) returns (query: Query, notices: seq<Notice>)
      modifies this
      ensures query == SocialQuery
      ensures socialMedia == Refreshed(old(socialMedia), result)
      ensures isEditing == old(isEditing) && editingId == old(editingId) && formData == old(formData)
      ensures notices == FetchNotices(result, "Failed to fetch social media")
    {
      query := SocialQuery;
      socialMedia := Refreshed(socialMedia, result);
      notices := FetchNotices(result, "Failed to fetch social media");
    }

    /** The "Add Social Media" button, shown only while the form is closed:
        it opens the form with no edit target, so the next submit inserts. */
    method OpenAddForm()
      requires Valid() && !isEditing
      modifies this
      ensures Valid()
      ensures isEditing && editingId == None
      ensures socialMedia == old(socialMedia) && formData == old(formData)
    {
      isEditing := true;
    }

    /** The display-order input's change handler. */
    method SetDisplayOrder(parsed: Option<int>)
      modifies this
      ensures formData == old(formData).(displayOrder := ParseDisplayOrder(parsed))
      ensures socialMedia == old(socialMedia) && isEditing == old(isEditing) && editingId == old(editingId)
    {
      formData := formData.(displayOrder := ParseDisplayOrder(parsed));
    }

    /** `handleSubmit`: update the edit target (a non-empty id) or insert,
        sending the draft unchanged; then, whatever the outcome, close the
        form, reset the draft and refetch. */
    method HandleSubmit(status: Status, refetch: Fetch<seq<SocialLink>>)
      returns (request: Write<SocialDraft>, notices: seq<Notice>)
      modifies this
      ensures Valid()
      ensures Truthy(old(editingId)) ==> request == Update(old(editingId).value, old(formData))
      ensures !Truthy(old(editingId)) ==> request == Insert(old(formData))
      ensures !isEditing && editingId == None && formData == DefaultSocialDraft
      ensures socialMedia == Refreshed(old(socialMedia), refetch)
      ensures status == Failed ==>
        notices == [Notice(Error, "Error",
                           if Truthy(old(editingId)) then "Failed to update social media" else "Failed to add social media")]
                   + FetchNotices(refetch, "Failed to fetch social media")
      ensures status == Succeeded ==>
        notices == [Notice(Success, "Success",
                           if Truthy(old(editingId)) then "Social media updated successfully" else "Social media added successfully")]
                   + FetchNotices(refetch, "Failed to fetch social media")
    {
      var updating := Truthy(editingId);
      if updating {
        request := Update(editingId.value, formData);
      } else {
        request := Insert(formData);
      }
      if status == Failed {
        notices := [Notice(Error, "Error",
                           if updating then "Failed to update social media" else "Failed to add social media")];
      } else {
        notices := [Notice(Success, "Success",
                           if updating then "Social media updated successfully" else "Social media added successfully")];
      }
      HandleCancel();
      var _, fetchNotices := FetchSocialMedia(refetch);
      notices := notices + fetchNotices;
    }

    /** `handleEdit`: open the form on this row with all its fields. */
    method HandleEdit(item: SocialLink)
      modifies this
      ensures Valid()
      ensures isEditing && editingId == Some(item.id) && formData == DraftFromLink(item)
      ensures socialMedia == old(socialMedia)
    {
      isEditing := true;
      editingId := Some(item.id);
      formData := DraftFromLink(item);
    }

    /** `handleDelete`: delete by id; refetch only on success. */
    method HandleDelete(id: string, status: Status, refetch: Fetch<seq<SocialLink>>)
      returns (request: Write<SocialDraft>, notices: seq<Notice>, refetched: bool)
      modifies this
      ensures request == Delete(id)
      ensures refetched <==> status == Succeeded
      ensures socialMedia == (if status == Succeeded then Refreshed(old(socialMedia), refetch) else old(socialMedia))
      ensures isEditing == old(isEditing) && editingId == old(editingId) && formData == old(formData)
      ensures status == Failed ==> notices == [Notice(Error, "Error", "Failed to delete social media")]
      ensures status == Succeeded ==>
        notices == [Notice(Success, "Success", "Social media deleted successfully")]
                   + FetchNotices(refetch, "Failed to fetch social media")
    {
      request := Delete(id);
      refetched := status == Succeeded;
      if status == Failed {
        notices := [Notice(Error, "Error", "Failed to delete social media")];
      } else {
        notices := [Notice(Success, "Success", "Social media deleted successfully")];
        var _, fetchNotices := FetchSocialMedia(refetch);
        notices := notices + fetchNotices;
      }
    }

    /** `handleCancel`: the same closed, reset form a submit leaves, with no
        request. */
    method HandleCancel()
      modifies this
      ensures Valid()
      ensures !isEditing && editingId == None && formData == DefaultSocialDraft
      ensures socialMedia == old(socialMedia)
    {
      isEditing := false;
      editingId := None;
      formData := DefaultSocialDraft;
    }
  }

  /** Opening the form with "Add" and submitting inserts the draft. */
  method AddThenSubmit(m: SocialMediaManager, status: Status, refetch: Fetch<seq<SocialLink>>)
    returns (request: Write<SocialDraft>)
    requires m.Valid() && !m.isEditing
    modifies m
    ensures request == Insert(old(m.formData))
    ensures !m.isEditing && m.formData == DefaultSocialDraft
  {
    m.OpenAddForm();
    var notices;
    request, notices := m.HandleSubmit(status, refetch);
  }
}

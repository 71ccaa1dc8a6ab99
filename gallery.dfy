/** The gallery editor of the admin panel: insert and delete only, with an
    empty caption stored as null. */
module GalleryEditor {
  import opened Common
  import opened JsText
  import opened Rows

  /** The form. */
  datatype GalleryDraft = GalleryDraft(photoUrl: string, caption: string)

  const EmptyGalleryDraft := GalleryDraft("", "")

  /** The inserted row (id and creation time are assigned by the table). */
  datatype GalleryPayload = GalleryPayload(photoUrl: string, caption: Option<string>)

  /** The listing query: all images, newest first. */
  const GalleryQuery := Select("gallery", [], Some(Descending("created_at")), None)

  /** The insert payload: the URL verbatim, an empty caption as null. */
  function ToGalleryPayload(d: GalleryDraft): (p: GalleryPayload)
    ensures p.photoUrl == d.photoUrl
    ensures p.caption.None? <==> d.caption == ""
    ensures p.caption.Some? ==> p.caption.value == d.caption
  {
    GalleryPayload(d.photoUrl, OrNull(d.caption))
  }

  /** The row the table holds after the insert, given the id it assigns. */
  function ItemOf(id: string, p: GalleryPayload): (item: GalleryItem) {
    GalleryItem(id, p.photoUrl, p.caption)
  }

  /** Re-reading an inserted row as a draft gives back the draft: the null
      caption reads as the empty one. */
  lemma PayloadRoundTrip(id: string, d: GalleryDraft)
    ensures var item := ItemOf(id, ToGalleryPayload(d));
      GalleryDraft(item.photoUrl, OrEmpty(item.caption)) == d
  {
    OrNullOrEmpty(None, d.caption);
  }

  /** The editor state of `GalleryManager`. */
  class GalleryManager {
    var gallery: seq<GalleryItem>
    var formData: GalleryDraft

    constructor ()
      ensures gallery == [] && formData == EmptyGalleryDraft
    {
      gallery := [];
      formData := EmptyGalleryDraft;
    }

    /** `fetchGallery`: a failed query keeps the list. */
    method FetchGallery(result: Fetch<seq<GalleryItem>>) returns (query: Query, notices: seq<Notice>)
      modifies this
      ensures query == GalleryQuery
      ensures gallery == Refreshed(old(gallery), result)
      ensures formData == old(formData)
      ensures notices == FetchNotices(result, "Failed to fetch gallery")
    {
      query := GalleryQuery;
      gallery := Refreshed(gallery, result);
      notices := FetchNotices(result, "Failed to fetch gallery");
    }

    /** `handleSubmit`: always an insert; on success clear the form and
        refetch, on failure keep the form. */
    method HandleSubmit(status: Status, refetch: Fetch<seq<GalleryItem>>)
      returns (request: Write<GalleryPayload>, notices: seq<Notice>, refetched: bool)
      modifies this
      ensures request == Insert(ToGalleryPayload(old(formData)))
      ensures refetched <==> status == Succeeded
      ensures status == Failed ==>
        gallery == old(gallery) && formData == old(formData)
        && notices == [Notice(Error, "Error", "Failed to add image")]
      ensures status == Succeeded ==>
        gallery == Refreshed(old(gallery), refetch) && formData == EmptyGalleryDraft
        && notices == [Notice(Success, "Success", "Image added successfully")]
                     + FetchNotices(refetch, "Failed to fetch gallery")
    {
      request := Insert(ToGalleryPayload(formData));
      refetched := status == Succeeded;
      if status == Failed {
        notices := [Notice(Error, "Error", "Failed to add image")];
      } else {
        notices := [Notice(Success, "Success", "Image added successfully")];
        formData := EmptyGalleryDraft;
        var _, fetchNotices := FetchGallery(refetch);
        notices := notices + fetchNotices;
      }
    }

    /** `handleDelete`: delete by id; refetch only on success. */
    method HandleDelete(id: string, status: Status, refetch: Fetch<seq<GalleryItem>>)
      returns (request: Write<GalleryPayload>, notices: seq<Notice>, refetched: bool)
      modifies this
      ensures request == Delete(id)
      ensures refetched <==> status == Succeeded
      ensures gallery == (if status == Succeeded then Refreshed(old(gallery), refetch) else old(gallery))
      ensures formData == old(formData)
      ensures status == Failed ==> notices == [Notice(Error, "Error", "Failed to delete image")]
      ensures status == Succeeded ==>
        notices == [Notice(Success, "Success", "Image deleted successfully")]
                   + FetchNotices(refetch, "Failed to fetch gallery")
    {
      request := Delete(id);
      refetched := status == Succeeded;
      if status == Failed {
        notices := [Notice(Error, "Error", "Failed to delete image")];
      } else {
        notices := [Notice(Success, "Success", "Image deleted successfully")];
        var _, fetchNotices := FetchGallery(refetch);
        notices := notices + fetchNotices;
      }
    }
  }
}

/** The service editor of the admin panel: a string-only form draft converted
    to a `services` row on submit and back on edit, and the editor state
    (the listed rows, the row being edited, the draft) its handlers update. */
module ServicesEditor {
  import opened Common
  import opened JsText
  import opened Rows

  /** The form: every field is a string, benefits one per line. */
  datatype ServiceDraft = ServiceDraft(
    name: string,
    photoUrl: string,
    shortDescription: string,
    duration: string,
    benefits: string)

  const EmptyDraft := ServiceDraft("", "", "", "", "")

  /** The row written by an insert or an update (the id is not part of it). */
  datatype ServicePayload = ServicePayload(
    name: string,
    photoUrl: Option<string>,
    shortDescription: Option<string>,
    duration: Option<string>,
    benefits: Option<seq<string>>)

  /** The listing query: all services, newest first. */
  const ServicesQuery := Select("services", [], Some(Descending("created_at")), None)

  /** Benefits text to list: empty text is null; otherwise the lines between
      newlines that are not blank, in order and untrimmed. */
  function BenefitsFromText(text: string): (r: Option<seq<string>>)
    ensures r.None? <==> text == ""
    ensures r.Some? ==> forall i :: 0 <= i < |r.value| ==> !IsBlank(r.value[i]) && '\n' !in r.value[i]
    ensures r.Some? ==> forall x :: multiset(r.value)[x] == if IsBlank(x) then 0 else multiset(Split(text, '\n'))[x]
  {
    if text == "" then None
    else
      KeepNonBlankCounts(Split(text, '\n'));
      Some(KeepNonBlank(Split(text, '\n')))
  }

  /** A single line is one benefit, or none when it is blank. */
  lemma BenefitsOneLine(line: string)
    requires line != "" && '\n' !in line
    ensures BenefitsFromText(line) == Some(if IsBlank(line) then [] else [line])
  {
    SplitWithoutSeparator(line, '\n');
    KeepNonBlankOne(line);
  }

  /** The benefits of a text are those of its first line, in front of those
      of the rest: the list keeps the order of the lines. */
  lemma BenefitsFirstLine(line: string, rest: string)
    requires '\n' !in line
    ensures BenefitsFromText(line + ['\n'] + rest)
         == Some((if IsBlank(line) then [] else [line])
                 + (if rest == "" then [] else BenefitsFromText(rest).value))
  {
    SplitAfterPart(line, '\n', rest);
    KeepNonBlankAppend([line], Split(rest, '\n'));
    KeepNonBlankOne(line);
    if rest == "" {
      assert Split(rest, '\n') == [""];
      KeepNonBlankOne("");
    }
  }

  /** Benefits list to text: one entry per line; null gives empty text. A
      non-empty list of single-line entries splits back into itself. */
  function BenefitsToText(benefits: Option<seq<string>>): (text: string)
    ensures benefits.None? ==> text == ""
    ensures benefits == Some([]) ==> text == ""
    ensures benefits.Some? && |benefits.value| >= 1
            && (forall i :: 0 <= i < |benefits.value| ==> '\n' !in benefits.value[i])
            ==> Split(text, '\n') == benefits.value
  {
    if benefits.Some? then
      if |benefits.value| >= 1 && (forall i :: 0 <= i < |benefits.value| ==> '\n' !in benefits.value[i]) then
        SplitJoin(benefits.value, '\n');
        Join(benefits.value, '\n')
      else Join(benefits.value, '\n')
    else ""
  }

  /** The payload `handleSubmit` builds from the draft. */
  function ToPayload(d: ServiceDraft): (p: ServicePayload)
    ensures p.name == d.name
    ensures p.photoUrl.None? <==> d.photoUrl == ""
    ensures p.shortDescription.None? <==> d.shortDescription == ""
    ensures p.duration.None? <==> d.duration == ""
    ensures p.photoUrl.Some? ==> p.photoUrl.value == d.photoUrl
    ensures p.shortDescription.Some? ==> p.shortDescription.value == d.shortDescription
    ensures p.duration.Some? ==> p.duration.value == d.duration
    ensures p.benefits.None? <==> d.benefits == ""
    ensures p.benefits == BenefitsFromText(d.benefits)
  {
    ServicePayload(
      d.name,
      OrNull(d.photoUrl),
      OrNull(d.shortDescription),
      OrNull(d.duration),
      BenefitsFromText(d.benefits))
  }

  /** The draft `handleEdit` fills from a row. */
  function ToDraft(row: Service): (d: ServiceDraft)
    ensures d.name == row.name
    ensures d.photoUrl == "" <==> row.photoUrl.None? || row.photoUrl.value == ""
    ensures d.shortDescription == "" <==> row.shortDescription.None? || row.shortDescription.value == ""
    ensures d.duration == "" <==> row.duration.None? || row.duration.value == ""
    ensures row.photoUrl.Some? ==> d.photoUrl == row.photoUrl.value
    ensures row.shortDescription.Some? ==> d.shortDescription == row.shortDescription.value
    ensures row.duration.Some? ==> d.duration == row.duration.value
    ensures d.benefits == BenefitsToText(row.benefits)
  {
    ServiceDraft(
      row.name,
      OrEmpty(row.photoUrl),
      OrEmpty(row.shortDescription),
      OrEmpty(row.duration),
      BenefitsToText(row.benefits))
  }

  /** The payload that would write back exactly this row. */
  function PayloadOf(row: Service): (p: ServicePayload) {
    ServicePayload(row.name, row.photoUrl, row.shortDescription, row.duration, row.benefits)
  }

  /** A row the editor can reproduce: optional texts null or non-empty,
      benefit entries single-line and not blank. */
  predicate Reproducible(row: Service) {
    && (row.photoUrl.None? || row.photoUrl.value != "")
    && (row.shortDescription.None? || row.shortDescription.value != "")
    && (row.duration.None? || row.duration.value != "")
    && (row.benefits.Some? ==>
          forall i :: 0 <= i < |row.benefits.value| ==>
            !IsBlank(row.benefits.value[i]) && '\n' !in row.benefits.value[i])
  }

  /** Editing a reproducible row and submitting it unchanged writes the row
      back, except that an empty benefits list comes back as null. */
  lemma EditSubmitRoundTrip(row: Service)
    requires Reproducible(row)
    ensures ToPayload(ToDraft(row))
         == PayloadOf(row).(benefits := if row.benefits == Some([]) then None else row.benefits)
  {
    OrNullOrEmpty(row.photoUrl, "");
    OrNullOrEmpty(row.shortDescription, "");
    OrNullOrEmpty(row.duration, "");
    if row.benefits.Some? && row.benefits.value != [] {
      var b := row.benefits.value;
      JoinNonEmpty(b, '\n');
      SplitJoin(b, '\n');
      KeepNonBlankNoBlank(b);
    }
  }

  /** A row as the table would hold it after writing this payload. */
  function RowOf(id: string, p: ServicePayload): (row: Service) {
    Service(id, p.name, p.photoUrl, p.shortDescription, p.duration, p.benefits)
  }

  /** Every line of the text has a non-whitespace character. */
  predicate NoBlankLine(text: string) {
    forall i :: 0 <= i < |Split(text, '\n')| ==> !IsBlank(Split(text, '\n')[i])
  }

  /** Submitting a draft whose benefits text has no blank line and editing the
      stored row gives back the same draft. */
  lemma SubmitEditRoundTrip(id: string, d: ServiceDraft)
    requires d.benefits == "" || NoBlankLine(d.benefits)
    ensures ToDraft(RowOf(id, ToPayload(d))) == d
  {
    OrNullOrEmpty(None, d.photoUrl);
    OrNullOrEmpty(None, d.shortDescription);
    OrNullOrEmpty(None, d.duration);
    if d.benefits != "" {
      var lines := Split(d.benefits, '\n');
      assert forall i :: 0 <= i < |lines| ==> !IsBlank(lines[i]);
      KeepNonBlankNoBlank(lines);
      JoinSplit(d.benefits, '\n');
    }
  }

  /** Non-empty benefits text made of blank lines gives an empty list, not null. */
  lemma AllBlankBenefits(text: string)
    requires text != "" && IsBlank(text)
    ensures BenefitsFromText(text) == Some([])
  {
    SplitBlank(text, '\n');
    KeepNonBlankCounts(Split(text, '\n'));
    var kept := KeepNonBlank(Split(text, '\n'));
    assert multiset(kept) == multiset{};
  }

  /** Blank lines between benefits are dropped. */
  lemma BenefitsExample()
    ensures BenefitsFromText("Deep cleansing\n\nGlow") == Some(["Deep cleansing", "Glow"])
  {
    var first, last := "Deep cleansing", "Glow";
    assert "Deep cleansing\n\nGlow" == first + ['\n'] + ("" + ['\n'] + last);
    SplitThreeParts(first, "", last, '\n');
    assert !IsBlank(first) by { assert !IsWhitespace(first[0]); }
    assert !IsBlank(last) by { assert !IsWhitespace(last[0]); }
    KeepNonBlankDropsMiddle(first, "", last);
  }

  /** Submitting a name with everything else empty stores nulls. */
  lemma NameOnlyExample()
    ensures ToPayload(EmptyDraft.(name := "Facial")) == ServicePayload("Facial", None, None, None, None)
  {
  }

  /** The editor state of `ServicesManager`. */
  class ServicesManager {
    var services: seq<Service>
    var isEditing: Option<string>
    var formData: ServiceDraft

    constructor ()
      ensures services == [] && isEditing == None && formData == EmptyDraft
    {
      services := [];
      isEditing := None;
      formData := EmptyDraft;
    }

    /** `fetchServices`: a failed query keeps the list, a successful one
        replaces it with the rows returned (or none). */
    method FetchServices(result: Fetch<seq<Service>>) returns (query: Query, notices: seq<Notice>)
      modifies this
      ensures query == ServicesQuery
      ensures services == Refreshed(old(services), result)
      ensures isEditing == old(isEditing) && formData == old(formData)
      ensures notices == FetchNotices(result, "Failed to fetch services")
    {
      query := ServicesQuery;
      services := Refreshed(services, result);
      notices := FetchNotices(result, "Failed to fetch services");
    }

    /** `resetForm`: the draft goes back to empty strings. */
    method ResetForm()
      modifies this
      ensures formData == EmptyDraft
      ensures services == old(services) && isEditing == old(isEditing)
    {
      formData := EmptyDraft;
    }

    /** `handleSubmit`: update the row being edited (when `isEditing` is a
        non-empty id) or insert; on success reset and refetch, on failure
        keep everything for a retry. */
    method HandleSubmit(status: Status, refetch: Fetch<seq<Service>>)
      returns (request: Write<ServicePayload>, notices: seq<Notice>, refetched: bool)
      modifies this
      ensures Truthy(old(isEditing)) ==> request == Update(old(isEditing).value, ToPayload(old(formData)))
      ensures !Truthy(old(isEditing)) ==> request == Insert(ToPayload(old(formData)))
      ensures refetched <==> status == Succeeded
      ensures status == Failed ==>
        services == old(services) && isEditing == old(isEditing) && formData == old(formData)
      ensures status == Succeeded ==>
        && formData == EmptyDraft
        && isEditing == (if Truthy(old(isEditing)) then None else old(isEditing))
        && !Truthy(isEditing)
        && services == Refreshed(old(services), refetch)
      ensures status == Failed ==>
        notices == [Notice(Error, "Error",
                           if Truthy(old(isEditing)) then "Failed to update service" else "Failed to create service")]
      ensures status == Succeeded ==>
        notices == [Notice(Success, "Success",
                           if Truthy(old(isEditing)) then "Service updated successfully" else "Service created successfully")]
                   + FetchNotices(refetch, "Failed to fetch services")
    {
      var payload := ToPayload(formData);
      var updating := Truthy(isEditing);
      if updating {
        request := Update(isEditing.value, payload);
      } else {
        request := Insert(payload);
      }
      refetched := status == Succeeded;
      if status == Failed {
        notices := [Notice(Error, "Error",
                           if updating then "Failed to update service" else "Failed to create service")];
      } else {
        notices := [Notice(Success, "Success",
                           if updating then "Service updated successfully" else "Service created successfully")];
        if updating {
          isEditing := None;
        }
        ResetForm();
        var _, fetchNotices := FetchServices(refetch);
        notices := notices + fetchNotices;
      }
    }

    /** `handleEdit`: open the row for editing with its fields in the draft. */
    method HandleEdit(row: Service)
      modifies this
      ensures isEditing == Some(row.id) && formData == ToDraft(row)
      ensures services == old(services)
    {
      isEditing := Some(row.id);
      formData := ToDraft(row);
    }

    /** `handleDelete`: delete by id; refetch only on success. */
    method HandleDelete(id: string, status: Status, refetch: Fetch<seq<Service>>)
      returns (request: Write<ServicePayload>, notices: seq<Notice>, refetched: bool)
      modifies this
      ensures request == Delete(id)
      ensures refetched <==> status == Succeeded
      ensures services == (if status == Succeeded then Refreshed(old(services), refetch) else old(services))
      ensures isEditing == old(isEditing) && formData == old(formData)
      ensures status == Failed ==> notices == [Notice(Error, "Error", "Failed to delete service")]
      ensures status == Succeeded ==>
        notices == [Notice(Success, "Success", "Service deleted successfully")]
                   + FetchNotices(refetch, "Failed to fetch services")
    {
      request := Delete(id);
      refetched := status == Succeeded;
      if status == Failed {
        notices := [Notice(Error, "Error", "Failed to delete service")];
      } else {
        notices := [Notice(Success, "Success", "Service deleted successfully")];
        var _, fetchNotices := FetchServices(refetch);
        notices := notices + fetchNotices;
      }
    }

    /** The Cancel button: leave edit mode and clear the draft, no request. */
    method Cancel()
      modifies this
      ensures isEditing == None && formData == EmptyDraft
      ensures services == old(services)
    {
      isEditing := None;
      ResetForm();
    }
  }
}

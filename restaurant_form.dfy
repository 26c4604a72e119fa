/** The restaurant form (client/components/create-restaurant-form.tsx): the
    form values held by react-hook-form, the photo previews kept next to the
    photo references, and the per-day opening-hours inputs. */
module RestaurantForm {
  import opened Domain
  import opened Seqs
  import opened ApiClient

  /** The values of the create/update form. */
  datatype FormData = FormData(
    name: string,
    cuisineType: string,
    contactInformation: Option<string>,
    address: Address,
    operatingHours: OperatingHours,
    photos: seq<string>)

  /** The form's default values (both pages use the same ones). */
  const DefaultFormValues := FormData(
    "", "", Some(""),
    Address("", "", Some(""), "", "", "", ""),
    ClosedAllWeek,
    [])

  /** The request both pages build from the submitted values: the fields as
      they are, with the photo references sent as `photoIds`. */
  function RequestFromForm(data: FormData): (r: CreateRestaurantRequest)
    ensures r.photoIds == data.photos
    ensures r.name == data.name && r.cuisineType == data.cuisineType
    ensures r.contactInformation == data.contactInformation
    ensures r.address == data.address && r.operatingHours == data.operatingHours
  {
    CreateRestaurantRequest(data.name, data.cuisineType, data.contactInformation,
                            data.address, data.operatingHours, data.photos)
  }

  /** The react-hook-form store (`getValues`, `setValue`, `reset`) shared by a
      page and the form component. */
  class FormStore {
    var values: FormData

    constructor (defaults: FormData)
      ensures values == defaults
    {
      values := defaults;
    }

    method Reset(v: FormData)
      modifies this
      ensures values == v
    {
      values := v;
    }

    /** `setValue("photos", ps)`. */
    method SetPhotos(ps: seq<string>)
      modifies this
      ensures values == old(values).(photos := ps)
    {
      values := values.(photos := ps);
    }

    /** `setValue("operatingHours.<day>", h)`. */
    method SetDayHours(d: Day, h: Option<TimeRange>)
      modifies this
      ensures values == old(values).(operatingHours := old(values).operatingHours.With(d, h))
    {
      values := values.(operatingHours := values.operatingHours.With(d, h));
    }
  }

  // ---------------------------------------------------------------------
  // Opening hours

  /** The time an input shows for a day: empty when the day has no range. */
  function OpenOf(h: Option<TimeRange>): string {
    if h.Some? then h.value.openTime else ""
  }

  function CloseOf(h: Option<TimeRange>): string {
    if h.Some? then h.value.closeTime else ""
  }

  /** The day's hours after the opening-time input changes to `value`: the
      opening time becomes `value`, the closing time stays, and the day is
      dropped exactly when both are then empty. */
  function OnOpenTimeChange(current: Option<TimeRange>, value: string): (r: Option<TimeRange>)
    ensures OpenOf(r) == value && CloseOf(r) == CloseOf(current)
    ensures r.None? <==> value == "" && CloseOf(current) == ""
  {
    if value != "" then
      var cur := current.GetOr(TimeRange("", ""));
      Some(TimeRange(value, cur.closeTime))
    else if current.None? || current.value.closeTime == "" then None
    else Some(TimeRange("", current.value.closeTime))
  }

  /** The same for the closing-time input. */
  function OnCloseTimeChange(current: Option<TimeRange>, value: string): (r: Option<TimeRange>)
    ensures CloseOf(r) == value && OpenOf(r) == OpenOf(current)
    ensures r.None? <==> value == "" && OpenOf(current) == ""
  {
    if value != "" then
      var cur := current.GetOr(TimeRange("", ""));
      Some(TimeRange(cur.openTime, value))
    else if current.None? || current.value.openTime == "" then None
    else Some(TimeRange(current.value.openTime, ""))
  }

  /** A day never holds a range with both times empty after an edit, and
      clearing both inputs, in either order, removes the day. */
  lemma HoursEditsNeverLeaveBlankRange(h: Option<TimeRange>, v: string)
    ensures OnOpenTimeChange(h, v) != Some(TimeRange("", ""))
    ensures OnCloseTimeChange(h, v) != Some(TimeRange("", ""))
    ensures OnOpenTimeChange(OnCloseTimeChange(h, ""), "") == None
    ensures OnCloseTimeChange(OnOpenTimeChange(h, ""), "") == None
  {
  }

  // ---------------------------------------------------------------------
  // The component

  /** `Promise.all` over the uploads: every photo, in file order, when all of
      them succeed; otherwise a failure, here the first one in file order. */
  function JoinUploads(uploads: seq<Outcome<Photo>>): (r: Outcome<seq<Photo>>)
    ensures r.Resolved? <==> forall k :: 0 <= k < |uploads| ==> uploads[k].Resolved?
    ensures r.Resolved? ==>
      |r.value| == |uploads| &&
      forall k :: 0 <= k < |uploads| ==> r.value[k] == uploads[k].value
  {
    if uploads == [] then Resolved([])
    else if uploads[0].Rejected? then Rejected(uploads[0].error)
    else
      var rest := JoinUploads(uploads[1..]);
      if rest.Rejected? then
        assert exists k :: 0 <= k < |uploads[1..]| && uploads[1..][k].Rejected?;
        rest
      else Resolved([uploads[0].value] + rest.value)
  }

  /** The form component: its preview list beside the shared form store. */
  class FormComponent {
    const form: FormStore
    var previews: seq<string>

    constructor (form: FormStore)
      ensures this.form == form && previews == []
    {
      this.form := form;
      previews := [];
    }

    /** The mount effect: a preview per existing photo reference, in order;
        with none, the previews stay as they are. */
    method LoadExistingPreviews()
      modifies this
      ensures previews ==
        if |form.values.photos| > 0 then Map(PhotoProxyUrl, form.values.photos) else old(previews)
    {
      var existing := form.values.photos;
      if |existing| > 0 {
        previews := Map(PhotoProxyUrl, existing);
      }
    }

    /** `handleFileChange`: once every selected file has been uploaded
        (`uploads` holds each file's upload outcome, in file order), the new
        photo references are appended to the form's and one local preview
        per file to the previews. A failed upload changes nothing. */
    method HandleFileChange(files: seq<LocalFile>, uploads: seq<Outcome<Photo>>) returns (completed: bool)
      requires |uploads| == |files|
      modifies this, form
      ensures completed == JoinUploads(uploads).Resolved?
      ensures completed ==>
        form.values == old(form.values).(photos := old(form.values.photos) + Map((p: Photo) => p.url, JoinUploads(uploads).value)) &&
        previews == old(previews) + Map((f: LocalFile) => f.objectUrl, files)
      ensures !completed ==> form.values == old(form.values) && previews == old(previews)
      ensures |old(previews)| == |old(form.values.photos)| ==> |previews| == |form.values.photos|
    {
      var uploaded := JoinUploads(uploads);
      if uploaded.Rejected? {
        return false;
      }
      var photoIds := form.values.photos + Map((p: Photo) => p.url, uploaded.value);
      form.SetPhotos(photoIds);
      previews := previews + Map((f: LocalFile) => f.objectUrl, files);
      completed := true;
    }

    /** `handleRemovePhoto(index)`: drops the entry at `index` from both lists
        and reports the local preview URL released, when it is a `blob:` URL. */
    method HandleRemovePhoto(index: int) returns (revoked: Option<string>)
      requires 0 <= index < |previews|
      modifies this, form
      ensures previews == WithoutIndex(old(previews), index)
      ensures form.values == old(form.values).(photos := WithoutIndex(old(form.values.photos), index))
      ensures revoked == if StartsWith(old(previews)[index], "blob:") then Some(old(previews)[index]) else None
      ensures |old(previews)| == |old(form.values.photos)| ==> |previews| == |form.values.photos|
    {
      var removed := previews[index];
      previews := WithoutIndex(previews, index);
      form.SetPhotos(WithoutIndex(form.values.photos, index));
      revoked := if StartsWith(removed, "blob:") then Some(removed) else None;
    }

    /** The opening-time input of `day`; other days are left alone. */
    method OnOpenTimeInput(day: Day, value: string)
      modifies form
      ensures form.values == old(form.values).(operatingHours :=
        old(form.values.operatingHours).With(day, OnOpenTimeChange(old(form.values.operatingHours).Get(day), value)))
    {
      var current := form.values.operatingHours.Get(day);
      form.SetDayHours(day, OnOpenTimeChange(current, value));
    }

    /** The closing-time input of `day`. */
    method OnCloseTimeInput(day: Day, value: string)
      modifies form
      ensures form.values == old(form.values).(operatingHours :=
        old(form.values.operatingHours).With(day, OnCloseTimeChange(old(form.values.operatingHours).Get(day), value)))
    {
      var current := form.values.operatingHours.Get(day);
      form.SetDayHours(day, OnCloseTimeChange(current, value));
    }
  }
}

/** The create-restaurant page (client/app/restaurants/create/page.tsx):
    guards photo uploads on the API service and submits the form as a new
    restaurant, showing the error a failed call produced. */
module CreatePage {
  import opened Domain
  import opened Seqs
  import opened ApiClient
  import opened RestaurantForm

  /** `String(err)` for `Error("API Service not available!")`. */
  const ServiceUnavailable := OtherError("Error: API Service not available!")

  const ApiErrorPrefix := "API Error: "

  /** `uploadPhoto(file, caption)`: without an API service it fails before
      any call; otherwise it makes the upload call and passes its outcome
      on. Returns the call made, if any, and the outcome. */
  function UploadPhotoGuard(hasApi: bool, file: LocalFile, caption: Option<string>, reply: Outcome<Photo>)
    : (r: (Option<Operation>, Outcome<Photo>))
    ensures r.0.Some? <==> hasApi
    ensures !hasApi ==> r.1 == Rejected(ServiceUnavailable)
    ensures hasApi ==> r.0 == Some(UploadPhoto(file, caption)) && r.1 == reply
  {
    if !hasApi then (None, Rejected(ServiceUnavailable))
    else (Some(UploadPhoto(file, caption)), reply)
  }

  /** The outcome of each upload `handleFileChange` starts through
      `uploadPhoto` (one per file, without a caption), given what each
      upload call would produce. */
  function GuardedUploads(hasApi: bool, files: seq<LocalFile>, replies: seq<Outcome<Photo>>): (r: seq<Outcome<Photo>>)
    requires |replies| == |files|
    ensures |r| == |files|
    ensures forall k :: 0 <= k < |files| ==> r[k] == UploadPhotoGuard(hasApi, files[k], None, replies[k]).1
  {
    seq(|files|, k requires 0 <= k < |files| => UploadPhotoGuard(hasApi, files[k], None, replies[k]).1)
  }

  /** The upload calls made for the selected files: one per file, in order,
      with an API service; none without. */
  function UploadCalls(hasApi: bool, files: seq<LocalFile>): (calls: seq<Operation>)
    ensures hasApi ==> |calls| == |files| && forall k :: 0 <= k < |files| ==> calls[k] == UploadPhoto(files[k], None)
    ensures !hasApi ==> calls == []
  {
    if hasApi then seq(|files|, k requires 0 <= k < |files| => UploadPhoto(files[k], None)) else []
  }

  /** The calls the guard itself makes for the selected files are exactly
      the upload calls: one per file with an API service, none without. */
  lemma GuardMakesUploadCalls(hasApi: bool, files: seq<LocalFile>, replies: seq<Outcome<Photo>>)
    requires |replies| == |files|
    ensures forall k :: 0 <= k < |files| ==>
      UploadPhotoGuard(hasApi, files[k], None, replies[k]).0 ==
        (if hasApi then Some(UploadCalls(hasApi, files)[k]) else None)
  {
  }

  /** Without an API service, selecting photos fails with the service error
      before any upload, so the form and the previews stay as they were;
      with one, the uploads succeed exactly when every upload call does. */
  lemma UploadsNeedTheService(files: seq<LocalFile>, replies: seq<Outcome<Photo>>)
    requires |replies| == |files|
    ensures |files| > 0 ==> JoinUploads(GuardedUploads(false, files, replies)) == Rejected(ServiceUnavailable)
    ensures JoinUploads(GuardedUploads(true, files, replies)).Resolved? <==>
      forall k :: 0 <= k < |replies| ==> replies[k].Resolved?
  {
    var withService := GuardedUploads(true, files, replies);
    assert withService == replies;
  }

  /** What a submit shows for an axios error: a rejected request (400) shows
      the message of the response body, which may be missing; any other
      status is shown raw. */
  function AxiosSubmitMessage(e: ApiError): (m: Option<string>)
    requires e.AxiosError?
    ensures HasStatus(e, 400) ==> m == DataMessage(e)
    ensures !HasStatus(e, 400) ==> m == Some(ApiErrorPrefix + StatusText(e) + ": " + DataText(e))
  {
    if e.response.Some? && e.response.value.status == 400 then DataMessage(e)
    else Some(ApiErrorPrefix + StatusText(e) + ": " + DataText(e))
  }

  /** The error after a failed create. For an error that is not an axios
      error the page sets the error it rendered before the submit, so such
      a failure leaves the message as it was. */
  function CreateSubmitError(e: ApiError, rendered: Option<string>): (r: Option<string>)
    ensures e.AxiosError? ==> r == AxiosSubmitMessage(e)
    ensures e.OtherError? ==> r == rendered
  {
    if e.AxiosError? then AxiosSubmitMessage(e) else rendered
  }

  /** A missing API service on a fresh page shows no error at all. */
  lemma ServiceUnavailableGoesUnreported()
    ensures CreateSubmitError(ServiceUnavailable, None) == None
  {
  }

  class CreatePage {
    const hasApi: bool
    const form: FormStore
    const component: FormComponent
    var error: Option<string>

    /** The form component renders inside the page's form provider. */
    ghost predicate Valid() {
      component.form == form
    }

    constructor (hasApi: bool)
      ensures this.hasApi == hasApi && fresh(form) && form.values == DefaultFormValues
      ensures fresh(component) && component.previews == [] && Valid()
      ensures error == None
    {
      this.hasApi := hasApi;
      var store := new FormStore(DefaultFormValues);
      form := store;
      component := new FormComponent(store);
      error := None;
    }

    /** Photos selected in the form: each file is uploaded through
        `uploadPhoto`, and the form takes the new references only when all
        uploads succeed. Without an API service nothing is uploaded or
        changed. `replies` is what each upload call would produce. */
    method SelectPhotos(files: seq<LocalFile>, replies: seq<Outcome<Photo>>)
      returns (calls: seq<Operation>, completed: bool)
      requires Valid() && |replies| == |files|
      modifies component, form
      ensures calls == UploadCalls(hasApi, files)
      ensures !hasApi ==> form.values == old(form.values) && component.previews == old(component.previews)
      ensures hasApi ==> (completed <==> forall k :: 0 <= k < |replies| ==> replies[k].Resolved?)
      ensures hasApi && completed ==>
        form.values == old(form.values).(photos := old(form.values.photos) + Map((p: Photo) => p.url, JoinUploads(replies).value)) &&
        component.previews == old(component.previews) + Map((f: LocalFile) => f.objectUrl, files)
      ensures !completed ==> form.values == old(form.values) && component.previews == old(component.previews)
    {
      UploadsNeedTheService(files, replies);
      GuardMakesUploadCalls(hasApi, files, replies);
      var uploads := GuardedUploads(hasApi, files, replies);
      calls := UploadCalls(hasApi, files);
      completed := component.HandleFileChange(files, uploads);
      if hasApi {
        assert uploads == replies;
      } else if files == [] {
        assert Map((p: Photo) => p.url, JoinUploads(uploads).value) == [];
        assert Map((f: LocalFile) => f.objectUrl, files) == [];
        assert old(form.values.photos) + [] == old(form.values.photos);
        assert old(component.previews) + [] == old(component.previews);
      }
    }

    /** `onSubmit(data)`: builds the request, fails before any call without
        an API service, clears the error, and creates the restaurant; success
        stays on the page. `reply` is what the create call produced. */
    method OnSubmit(data: FormData, reply: Outcome<Restaurant>) returns (call: Option<Operation>)
      modifies this
      ensures !hasApi ==> call == None && error == old(error)
      ensures hasApi ==> call == Some(CreateRestaurant(RequestFromForm(data)))
      ensures hasApi && reply.Resolved? ==> error == None
      ensures hasApi && reply.Rejected? ==> error == CreateSubmitError(reply.error, old(error))
    {
      var rendered := error;
      var request := RequestFromForm(data);
      if !hasApi {
        error := CreateSubmitError(ServiceUnavailable, rendered);
        return None;
      }
      error := None;
      call := Some(CreateRestaurant(request));
      if reply.Rejected? {
        error := CreateSubmitError(reply.error, rendered);
      }
    }
  }
}

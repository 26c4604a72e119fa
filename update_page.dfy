/** The update-restaurant page (client/app/restaurants/update/page.tsx):
    loads the restaurant named by the `id` query parameter into the form and
    submits the edited form as an update (or, without an id, as a create). */
module UpdatePage {
  import opened Domain
  import opened Seqs
  import opened Decimal
  import opened ApiClient
  import opened RestaurantForm
  import opened CreatePage

  const MissingIdMessage := "Restaurant ID must be provided"
  const NotFoundMessage := "Restaurant not found"
  const LoadFailedMessage := "Error fetching restaurant data"
  const LoadErrorPrefix := "Error fetching restaurant: "

  /** `searchParams.get("id")` taken as a condition: absent and empty both fail. */
  predicate HasId(id: Option<string>) {
    id.Some? && id.value != ""
  }

  /** The form values a loaded restaurant is shown with: every field copied,
      a missing unit shown as empty, and the photos as their references. */
  function ResetValues(r: Restaurant): (v: FormData)
    ensures v.name == r.name && v.cuisineType == r.cuisineType
    ensures v.contactInformation == r.contactInformation
    ensures v.operatingHours == r.operatingHours
    ensures v.address.unit == Some(r.address.unit.GetOr(""))
    ensures v.address.(unit := r.address.unit) == r.address
    ensures r.photos.None? ==> v.photos == []
    ensures r.photos.Some? ==>
      |v.photos| == |r.photos.value| &&
      forall k :: 0 <= k < |v.photos| ==> v.photos[k] == r.photos.value[k].url
  {
    FormData(
      r.name,
      r.cuisineType,
      r.contactInformation,
      r.address.(unit := Some(r.address.unit.GetOr(""))),
      r.operatingHours,
      if r.photos.Some? then Map((p: Photo) => p.url, r.photos.value) else [])
  }

  /** Submitting a freshly loaded form unchanged sends the restaurant back as
      it came, photo references in their order, the unit filled in. */
  lemma ReloadedFormResubmitsRestaurant(r: Restaurant)
    ensures var req := RequestFromForm(ResetValues(r));
      req.name == r.name && req.cuisineType == r.cuisineType &&
      req.contactInformation == r.contactInformation &&
      req.operatingHours == r.operatingHours &&
      req.address == r.address.(unit := Some(r.address.unit.GetOr(""))) &&
      req.photoIds == if r.photos.Some? then Map((p: Photo) => p.url, r.photos.value) else []
  {
  }

  /** The message a failed load shows; the three kinds of failure are told
      apart by the message alone. */
  function LoadErrorMessage(e: ApiError): (m: string)
    ensures m == NotFoundMessage <==> HasStatus(e, 404)
    ensures m == LoadFailedMessage <==> e.OtherError?
    ensures e.AxiosError? && !HasStatus(e, 404) ==> m == LoadErrorPrefix + StatusText(e) + ": " + DataText(e)
  {
    if e.AxiosError? then
      if e.response.Some? && e.response.value.status == 404 then NotFoundMessage
      else
        var m := LoadErrorPrefix + StatusText(e) + ": " + DataText(e);
        assert m[0] != NotFoundMessage[0];
        assert m[25] != LoadFailedMessage[25];
        m
    else LoadFailedMessage
  }

  /** A rendered status holds no ':', and reads "undefined" exactly when no
      response arrived. */
  lemma StatusTextShape(e: ApiError)
    requires e.AxiosError?
    ensures |StatusText(e)| >= 1 && ':' !in StatusText(e)
    ensures (StatusText(e)[0] == 'u') == e.response.None?
  {
    var s := StatusText(e);
    if e.response.Some? {
      assert forall k :: 0 <= k < |s| ==> s[k] != ':';
    }
  }

  /** A load message splits back into the status and the body it shows,
      since the status holds no ':'. */
  lemma {:induction false} LoadErrorTextSplits(s1: string, s2: string, d1: string, d2: string)
    requires ':' !in s1 && ':' !in s2
    requires LoadErrorPrefix + s1 + ": " + d1 == LoadErrorPrefix + s2 + ": " + d2
    ensures s1 == s2 && d1 == d2
  {
    var r1, r2 := s1 + [':'] + (" " + d1), s2 + [':'] + (" " + d2);
    assert LoadErrorPrefix + s1 + ": " + d1 == LoadErrorPrefix + r1;
    assert LoadErrorPrefix + s2 + ": " + d2 == LoadErrorPrefix + r2;
    assert r1 == (LoadErrorPrefix + r1)[|LoadErrorPrefix|..];
    assert r2 == (LoadErrorPrefix + r2)[|LoadErrorPrefix|..];
    SplitAtSeparator(s1, s2, " " + d1, " " + d2, ':');
    assert d1 == (" " + d1)[1..] && d2 == (" " + d2)[1..];
  }

  /** The load error shows the status and the body faithfully: two axios
      failures other than 404 that show the same message had the same status
      (or both no response) and the same body text. */
  lemma {:induction false} LoadErrorMessageDeterminesStatus(e1: ApiError, e2: ApiError)
    requires e1.AxiosError? && e2.AxiosError? && !HasStatus(e1, 404) && !HasStatus(e2, 404)
    requires LoadErrorMessage(e1) == LoadErrorMessage(e2)
    ensures e1.response.Some? == e2.response.Some?
    ensures e1.response.Some? ==> e1.response.value.status == e2.response.value.status
    ensures DataText(e1) == DataText(e2)
  {
    StatusTextShape(e1);
    StatusTextShape(e2);
    LoadErrorTextSplits(StatusText(e1), StatusText(e2), DataText(e1), DataText(e2));
    if e1.response.Some? && e2.response.Some? {
      IntToStringInjective(e1.response.value.status, e2.response.value.status);
    }
  }

  /** The error after a failed submit: as on the create page for axios
      errors, and `String(err)` for anything else. Only a 400 response
      without a message leaves the error empty. */
  function SubmitErrorMessage(e: ApiError): (m: Option<string>)
    ensures e.AxiosError? ==> m == AxiosSubmitMessage(e)
    ensures e.OtherError? ==> m == Some(e.text)
    ensures m.None? <==> HasStatus(e, 400) && DataMessage(e).None?
  {
    if e.AxiosError? then AxiosSubmitMessage(e) else Some(e.text)
  }

  class UpdatePage {
    const hasApi: bool
    const restaurantId: Option<string>
    const form: FormStore
    const component: FormComponent
    var error: Option<string>
    var loading: bool

    /** The form component renders inside the page's form provider. */
    ghost predicate Valid() {
      component.form == form
    }

    constructor (hasApi: bool, restaurantId: Option<string>)
      ensures this.hasApi == hasApi && this.restaurantId == restaurantId
      ensures fresh(form) && form.values == DefaultFormValues
      ensures fresh(component) && component.previews == [] && Valid()
      ensures error == None && loading
    {
      this.hasApi := hasApi;
      this.restaurantId := restaurantId;
      var store := new FormStore(DefaultFormValues);
      form := store;
      component := new FormComponent(store);
      error := None;
      loading := true;
    }

    /** Photos selected in the form, uploaded through this page's
        `uploadPhoto`, which guards on the API service as the create page's
        does. `replies` is what each upload call would produce. */
    method SelectPhotos(files: seq<LocalFile>, replies: seq<Outcome<Photo>>)
      returns (calls: seq<Operation>, completed: bool)
      requires Valid() && |replies| == |files|
      modifies component, form
      ensures calls == UploadCalls(hasApi, files)
      ensures !hasApi ==> form.values == old(form.values) && component.previews == old(component.previews)
      ensures hasApi ==> (completed <==> forall k :: 0 <= k < |replies| ==> replies[k].Resolved?)
      ensures hasApi && completed ==>
        form.values == old(form.values).(photos := old(form.values.photos) + Map((p: Photo) => p.url, JoinUploads(replies).value)) &&
        component.previews == old(component.previews) + Map((f: LocalFile) => f.objectUrl, files)
      ensures !completed ==> form.values == old(form.values) && component.previews == old(component.previews)
    {
      UploadsNeedTheService(files, replies);
      GuardMakesUploadCalls(hasApi, files, replies);
      var uploads := GuardedUploads(hasApi, files, replies);
      calls := UploadCalls(hasApi, files);
      completed := component.HandleFileChange(files, uploads);
      if hasApi {
        assert uploads == replies;
      } else if files == [] {
        assert Map((p: Photo) => p.url, JoinUploads(uploads).value) == [];
        assert Map((f: LocalFile) => f.objectUrl, files) == [];
        assert old(form.values.photos) + [] == old(form.values.photos);
        assert old(component.previews) + [] == old(component.previews);
      }
    }

    /** The load effect: nothing without an API service; without an id an
        error and no fetch; otherwise fetch the restaurant and either reset
        the form with it or show why it failed. Loading ends either way.
        `fetched` is what the fetch produced. */
    method Load(fetched: Outcome<Restaurant>) returns (request: Option<Operation>)
      modifies this, form
      ensures !hasApi ==>
        request == None && error == old(error) && loading == old(loading) && form.values == old(form.values)
      ensures hasApi && !HasId(restaurantId) ==>
        request == None && error == Some(MissingIdMessage) && !loading && form.values == old(form.values)
      ensures hasApi && HasId(restaurantId) ==>
        request == Some(GetRestaurant(restaurantId.value)) && !loading
      ensures hasApi && HasId(restaurantId) && fetched.Resolved? ==>
        error == None && form.values == ResetValues(fetched.value)
      ensures hasApi && HasId(restaurantId) && fetched.Rejected? ==>
        error == Some(LoadErrorMessage(fetched.error)) && form.values == old(form.values)
    {
      if !hasApi {
        return None;
      }
      loading := true;
      error := None;
      if !HasId(restaurantId) {
        error := Some(MissingIdMessage);
        loading := false;
        return None;
      }
      request := Some(GetRestaurant(restaurantId.value));
      if fetched.Resolved? {
        form.Reset(ResetValues(fetched.value));
      } else {
        error := Some(LoadErrorMessage(fetched.error));
      }
      loading := false;
    }

    /** The form mounts once loading has ended (until then the page shows a
        spinner): a new form component starts without previews and its mount
        effect shows one preview per photo reference the load put in the
        form, so references and previews start out equally many. */
    method MountForm()
      requires Valid() && !loading
      modifies component
      ensures Valid() && form.values == old(form.values)
      ensures component.previews == Map(PhotoProxyUrl, form.values.photos)
      ensures |component.previews| == |form.values.photos|
    {
      component.previews := [];
      component.LoadExistingPreviews();
    }

    /** `onSubmit(data)`: builds the request, fails before any call without
        an API service, clears the error, then updates the restaurant named
        by the id, or creates one when there is none; success navigates home.
        Returns the call made and the navigation target. */
    method OnSubmit(data: FormData, reply: Outcome<()>) returns (call: Option<Operation>, navigateTo: Option<string>)
      modifies this
      ensures loading == old(loading)
      ensures !hasApi ==> call == None && navigateTo == None && error == SubmitErrorMessage(ServiceUnavailable)
      ensures hasApi ==> call == Some(
        if HasId(restaurantId) then UpdateRestaurant(restaurantId.value, RequestFromForm(data))
        else CreateRestaurant(RequestFromForm(data)))
      ensures hasApi && reply.Resolved? ==> navigateTo == Some("/") && error == None
      ensures hasApi && reply.Rejected? ==> navigateTo == None && error == SubmitErrorMessage(reply.error)
    {
      var request := RequestFromForm(data);
      navigateTo := None;
      if !hasApi {
        error := SubmitErrorMessage(ServiceUnavailable);
        return None, None;
      }
      error := None;
      if HasId(restaurantId) {
        call := Some(UpdateRestaurant(restaurantId.value, request));
      } else {
        call := Some(CreateRestaurant(request));
      }
      if reply.Resolved? {
        navigateTo := Some("/");
      } else {
        error := SubmitErrorMessage(reply.error);
      }
    }
  }
}

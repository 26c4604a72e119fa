# Restaurant review client: a verified model

This project models the browser client of the restaurant review application
in Dafny:

- the home page's search state and its pagination control;
- the search bar with its toggling minimum-rating filter;
- the restaurant form that the create and update pages share, with its photo
  previews and per-day opening-hours inputs;
- the create and update pages that load, submit and report errors;
- the restaurant card's choice of image;
- the axios-based API service: the request each backend operation sends,
  the error shapes a call can fail with, and the two interceptors that
  attach bearer tokens and refresh them.

Each stateful piece becomes a class whose fields its methods update:

- React component state: `Home.HomePage`, `SearchBar.RestaurantSearch`,
  `RestaurantForm.FormComponent`, `CreatePage.CreatePage` and
  `UpdatePage.UpdatePage`;
- the react-hook-form store: `RestaurantForm.FormStore`;
- the authentication context: `ApiClient.Auth`;
- the service: `ApiClient.AxiosApiService`.

Effects the client waits for become parameters of these methods:

- the settled result of an API call (`Outcome`);
- the outcome of a silent sign-in (`SilentResult`);
- the clock (`now`).

An operation a method starts is returned as a value: for example the search
parameters sent, the `Operation` called or the route navigated to. Pure
logic becomes functions, and its properties become lemmas:

- the page-number window, as a specification function with the imperative
  loop proved against it;
- route paths, with a parser that reads them back;
- the error messages: a failed load's message tells the three kinds of
  failure apart and gives back the status and body text; the submit
  messages make no such promise;
- the form-to-request mapping.

One behaviour of the source is kept as written and worth knowing. A search
from the search bar sends no target page, so the current page survives a
query that narrows the results: on page 9, a count of 6 pages shows the
window `1 … 6`, and "Previous" asks for page 8
(`Home.StalePageAfterNarrowerSearch`).

JavaScript semantics that matter are written out:

- falsy `0`, `""` and `undefined` in `||` and `if`;
- template literals that render `undefined` or `[object Object]`;
- `String(new Error(m))`, which is `"Error: " + m`;
- `Array.from` with a negative length;
- event handlers that close over the previous render's state.

Modules, one per file: `Domain` (the types of `client/domain/domain.ts`),
`Seqs`, `Decimal` (number rendering), `ApiClient`, `Home`, `SearchBar`,
`RestaurantForm`, `CreatePage`, `UpdatePage`, `RestaurantCard`.

## Model

| member | source | states |
|---|---|---|
| Domain.OperatingHours.With | client/components/create-restaurant-form.tsx:185-188 | setting one day's hours sets that day to the new value and leaves every other day as it was |
| Seqs.Map | client/components/create-restaurant-form.tsx:38-40 | the result has the input's length, and each element is the function applied to the input element at the same position |
| Seqs.WithoutIndex | client/components/create-restaurant-form.tsx:70-72 | filtering by `index !== i` removes exactly the element at `i` and keeps the rest in order; an index outside the list leaves the list unchanged |
| Seqs.WithoutIndexKeepsPairs | client/components/create-restaurant-form.tsx:68-80 | removing the same index from two equally long lists leaves them equally long, and every surviving pair of elements stays at a shared position |
| Decimal.IntToString | client/app/restaurants/update/page.tsx:122 | the decimal rendering of a status is never empty, and it starts with '-' exactly when the number is negative |
| Decimal.NatToStringInjective | client/app/restaurants/update/page.tsx:122 | different non-negative statuses render as different digit strings |
| Decimal.IntToStringInjective | client/app/restaurants/update/page.tsx:122 | different statuses render as different text |
| ApiClient.ParsePathOfRoute | client/services/api/axiosApiService.ts:100-188 | every endpoint path built from slash-free identifiers parses back to the resource it was built for |
| ApiClient.PathOfParsedRoute | client/services/api/axiosApiService.ts:100-188 | conversely, every path that parses names a slash-free resource whose path is exactly that path |
| ApiClient.UploadFields | client/services/api/axiosApiService.ts:192-197 | the multipart body always holds the file first; it holds a caption field, second, exactly when a non-empty caption was given |
| ApiClient.SortParam | client/services/api/axiosApiService.ts:141 | each review order is sent as its field ("datePosted" or "rating"), a comma and its direction, "desc" or "asc", and nothing else |
| ApiClient.RequestFor | client/services/api/axiosApiService.ts:100-209 | each operation goes to the path of its resource; the reads are GETs, the creations and the photo upload POSTs, the updates PUTs and the deletions DELETEs; the search forwards its filters and the review list its sort, page and size as query parameters, and no other call has any; the restaurant and review writes send their request, the upload its multipart form (file, then any caption); only the upload is multipart, every other call JSON |
| ApiClient.RequestAddressesRoute | client/services/api/axiosApiService.ts:100-188 | each operation's request path parses back to the resource the operation addresses |
| ApiClient.SamePathSameResource | client/services/api/axiosApiService.ts:100-188 | two operations whose requests share a path address the same resource |
| ApiClient.SameVerbSamePathSameKind | client/services/api/axiosApiService.ts:100-209 | two operations that send the same verb to the same path address the same resource through the same service method |
| ApiClient.ExpiringSoonMeansUnderAMinuteLeft | client/services/api/axiosApiService.ts:50-52 | a present, non-zero expiry counts as expiring soon exactly when less than 60 seconds remain, and it stays so as time passes |
| ApiClient.Bearer | client/services/api/axiosApiService.ts:63 | the header value starts with "Bearer " and carries the user's access token after it; with no user it is "Bearer undefined" |
| ApiClient.Auth.constructor | client/services/api/axiosApiService.ts:27-30 | the context starts with the given sign-in state and user, and no sign-in has yet been attempted |
| ApiClient.Auth.SigninSilent | client/services/api/axiosApiService.ts:56 | one silent attempt is counted; success replaces the user and marks them signed in; failure changes nothing else |
| ApiClient.Auth.SigninRedirect | client/services/api/axiosApiService.ts:91 | one interactive login is started; the user is unchanged |
| ApiClient.AxiosApiService.constructor | client/services/api/axiosApiService.ts:29-41 | the service holds the given authentication context |
| ApiClient.AxiosApiService.InterceptRequest | client/services/api/axiosApiService.ts:44-68 | for a signed-in user the token is refreshed at most once, and only when it expires within a minute; the Authorization header then carries the token held after the refresh, or the old one when the refresh failed; an anonymous request goes out unchanged; the request itself and the sign-in flag are never altered |
| ApiClient.AxiosApiService.InterceptResponseError | client/services/api/axiosApiService.ts:74-96 | only a 401 triggers a silent sign-in; its success replays the known request with the new token and leaves the user signed in; its failure starts the interactive login and passes the error on; every other error passes on untouched, with the sign-in state unchanged |
| Home.GetPageNumbers | client/app/page.tsx:71-108 | the loop computes exactly the page window function |
| Home.WindowEmptyWithoutPages | client/app/page.tsx:72 | no page links when the page count is missing or zero |
| Home.WindowListsAllFewPages | client/app/page.tsx:77-80 | with at most five pages, pages 1 to t are listed in order and nothing else |
| Home.WindowShape | client/app/page.tsx:82-105 | for more than five pages and any current page, gives the window's length and what each of its positions holds |
| Home.WindowEnds | client/app/page.tsx:82-105 | for more than five pages and any current page, the window starts with page 1, ends with the last page and has between 3 and 7 slots |
| Home.WindowNumbersIncreaseInRange | client/app/page.tsx:89-96 | for any current page, the listed page numbers strictly increase and lie within 1..t |
| Home.WindowShowsNeighbourhood | client/app/page.tsx:89-96 | for any current page, each of the page and its neighbours that lies within 1..t is listed |
| Home.WindowGapsAreEllipses | client/app/page.tsx:85-100 | for any current page, adjacent numbers are consecutive pages, and an ellipsis stands only between two numbers at least two pages apart |
| Home.WindowEllipsisPlacement | client/app/page.tsx:85-100 | an ellipsis follows page 1 exactly when the current page is beyond 3, and precedes the last page exactly when the current page is more than two before it; there are no others |
| Home.WindowExample | client/app/page.tsx:71-108 | for ten pages with page five current, the window is 1 … 4 5 6 … 10 |
| Home.Pager | client/app/page.tsx:128-173 | the pager appears exactly when there is more than one page; it shows "Previous" unless the server reports the first page and "Next" unless it reports the last, targeting the adjacent pages; its links are the page window |
| Home.StalePageAfterNarrowerSearch | client/app/page.tsx:41 | with page 9 kept after a search that yields 6 pages, the window is `1 … 6`, showing neither page 8 nor 9, and "Previous" targets page 8 |
| Home.PagerTargetsInRange | client/app/page.tsx:132-173 | when the server's flags agree with the current page, every page the pager offers lies within 1..totalPages |
| Home.EffectivePage | client/app/page.tsx:41 | a missing or zero target page falls back to the current page; any other target is used as given |
| Home.PaginatedParams | client/app/page.tsx:39-43 | the search sends the caller's filters unchanged, with the effective page and a page size of 8 |
| Home.HomePage.constructor | client/app/page.tsx:22-29 | the page starts loading, on page 1, with no results, no page count, the first-page flag set and no filters |
| Home.HomePage.SearchRestaurants | client/app/page.tsx:31-63 | the filters are remembered and loading ends; with an API service the paginated parameters are sent; a non-empty reply replaces the results and all three pagination fields together; a failure, or a missing service, leaves them all as they were |
| Home.HomePage.HandlePageChange | client/app/page.tsx:65-68 | moves to the new page and searches with the remembered filters, using the page of the render the handler came from |
| Home.HomePage.Mount | client/app/page.tsx:110-120 | with an API service, one search without filters is sent for the current page, the remembered filters become empty, and a non-empty reply replaces the results and pagination fields together; without one nothing happens |
| SearchBar.SearchFor | client/components/restaurant-search.tsx:23-26 | the search carries the query and the minimum rating, and no other filter |
| SearchBar.NextMinRating | client/components/restaurant-search.tsx:36-58 | pressing a rating selects it exactly when it was not already selected, and clears the filter exactly when it was |
| SearchBar.RatingToggles | client/components/restaurant-search.tsx:34-58 | pressing the same rating twice returns to no filter; pressing another rating switches to it |
| SearchBar.RestaurantSearch.constructor | client/components/restaurant-search.tsx:16-17 | the bar starts with an empty query and no rating |
| SearchBar.RestaurantSearch.SetQuery | client/components/restaurant-search.tsx:68 | typing replaces the query and leaves the rating |
| SearchBar.RestaurantSearch.HandleSearch | client/components/restaurant-search.tsx:22-32 | the search uses the bar's current query and rating |
| SearchBar.RestaurantSearch.HandleMinRatingFilter | client/components/restaurant-search.tsx:34-58 | the rating toggles, and the deferred search uses the new selection, so it agrees with the state |
| RestaurantForm.RequestFromForm | client/app/restaurants/create/page.tsx:78-85 | the request carries every form field unchanged, with the photo references sent as `photoIds` |
| RestaurantForm.FormStore.constructor | client/app/restaurants/create/page.tsx:40-65 | the store starts with the given default values |
| RestaurantForm.FormStore.Reset | client/app/restaurants/update/page.tsx:92 | `reset` replaces all the values |
| RestaurantForm.FormStore.SetPhotos | client/components/create-restaurant-form.tsx:60 | `setValue("photos")` replaces the photo references and nothing else |
| RestaurantForm.FormStore.SetDayHours | client/components/create-restaurant-form.tsx:185-188 | setting a day's hours changes that day only |
| RestaurantForm.OnOpenTimeChange | client/components/create-restaurant-form.tsx:179-203 | the opening time becomes the input, the closing time is kept, and the day is dropped exactly when both times are then empty |
| RestaurantForm.OnCloseTimeChange | client/components/create-restaurant-form.tsx:214-238 | the closing time becomes the input, the opening time is kept, and the day is dropped exactly when both times are then empty |
| RestaurantForm.HoursEditsNeverLeaveBlankRange | client/components/create-restaurant-form.tsx:179-238 | no edit leaves a day with both times empty, and clearing both inputs in either order removes the day |
| RestaurantForm.FormComponent.constructor | client/components/create-restaurant-form.tsx:29-31 | the component shares the page's form store and starts with no previews |
| RestaurantForm.FormComponent.LoadExistingPreviews | client/components/create-restaurant-form.tsx:34-43 | each existing photo reference gets a proxied preview, in order; with none, the previews are left alone |
| RestaurantForm.JoinUploads | client/components/create-restaurant-form.tsx:47-49 | `Promise.all`: the joint upload succeeds exactly when every upload does, and then holds every photo in file order |
| RestaurantForm.FormComponent.HandleFileChange | client/components/create-restaurant-form.tsx:45-65 | once every upload succeeds, the new references and one local preview per file are appended, in file order; any failed upload changes nothing; references and previews stay equally many |
| RestaurantForm.FormComponent.HandleRemovePhoto | client/components/create-restaurant-form.tsx:68-86 | the entry at the index is removed from both the previews and the references, which stay equally many; the removed preview is released exactly when it is a `blob:` URL |
| RestaurantForm.FormComponent.OnOpenTimeInput | client/components/create-restaurant-form.tsx:179-203 | the edited day's hours follow the opening-time rule; other days and fields are unchanged |
| RestaurantForm.FormComponent.OnCloseTimeInput | client/components/create-restaurant-form.tsx:214-238 | the edited day's hours follow the closing-time rule; other days and fields are unchanged |
| CreatePage.UploadPhotoGuard | client/app/restaurants/create/page.tsx:67-72 | the upload call is made exactly when there is an API service; without one the upload fails with "Error: API Service not available!" (the update page's guard, update/page.tsx:136-141, is the same) |
| CreatePage.GuardedUploads | client/components/create-restaurant-form.tsx:47-49 | each selected file's upload goes through the page's guard, without a caption, in file order |
| CreatePage.UploadCalls | client/components/create-restaurant-form.tsx:47-49 | one upload call per file, in order, with an API service, and none without |
| CreatePage.UploadsNeedTheService | client/app/restaurants/create/page.tsx:67-72 | without an API service, selecting any file fails with the service error; with one, the joint upload succeeds exactly when every upload call does |
| CreatePage.GuardMakesUploadCalls | client/app/restaurants/create/page.tsx:67-72 | the calls the upload guard itself makes for the selected files are exactly the upload calls: one per file with an API service, none without |
| CreatePage.CreatePage.SelectPhotos | client/components/create-restaurant-form.tsx:45-65 | choosing files on the create page: without an API service no upload is made and the form and previews stay as they were; with one, the references and previews grow exactly when every upload succeeds |
| CreatePage.AxiosSubmitMessage | client/app/restaurants/create/page.tsx:95-104 | a 400 shows the message from the response body, possibly none; any other axios failure shows "API Error: status: data" |
| CreatePage.CreateSubmitError | client/app/restaurants/create/page.tsx:94-108 | an axios failure shows its message; any other failure keeps the message rendered before the submit |
| CreatePage.ServiceUnavailableGoesUnreported | client/app/restaurants/create/page.tsx:87-108 | on a fresh create page, a missing API service produces no error message |
| CreatePage.CreatePage.constructor | client/app/restaurants/create/page.tsx:37-65 | the page starts with the default form values, a form component over that store with no previews, and no error |
| CreatePage.CreatePage.OnSubmit | client/app/restaurants/create/page.tsx:74-110 | with an API service the error is cleared and the restaurant is created from the form; success stays on the page and a failure sets the create error; without a service nothing is called and the error stays |
| UpdatePage.ResetValues | client/app/restaurants/update/page.tsx:92-115 | the form shows every field of the loaded restaurant, a missing unit as empty text, and the photos as their references in order (none when the restaurant has no photo list) |
| UpdatePage.ReloadedFormResubmitsRestaurant | client/app/restaurants/update/page.tsx:92-154 | submitting a freshly loaded form unchanged sends the restaurant back as loaded: every field, the photo references in order, and the unit filled in |
| UpdatePage.LoadErrorMessage | client/app/restaurants/update/page.tsx:116-127 | the message is "Restaurant not found" exactly for a 404 and "Error fetching restaurant data" exactly for a non-axios failure; any other axios failure shows its status and data; so the three kinds can be told apart |
| UpdatePage.StatusTextShape | client/app/restaurants/update/page.tsx:122 | a rendered status holds no ':' and reads "undefined" exactly when no response arrived |
| UpdatePage.LoadErrorTextSplits | client/app/restaurants/update/page.tsx:116-127 | a load message splits back into the status and the body it shows, because the status holds no colon |
| UpdatePage.LoadErrorMessageDeterminesStatus | client/app/restaurants/update/page.tsx:116-127 | two load failures other than 404 with the same message had the same status, or both no response, and the same body text |
| UpdatePage.SubmitErrorMessage | client/app/restaurants/update/page.tsx:174-189 | an axios failure shows what the create page shows for it; any other failure shows its `String(err)`; no message exactly for a 400 whose body carries none |
| UpdatePage.UpdatePage.constructor | client/app/restaurants/update/page.tsx:38-71 | the page starts loading, with the default form values, a form component over that store with no previews, and no error |
| UpdatePage.UpdatePage.SelectPhotos | client/app/restaurants/update/page.tsx:136-141 | choosing files on the update page: without an API service no upload is made and the form and previews stay as they were; with one, the references and previews grow exactly when every upload succeeds |
| UpdatePage.UpdatePage.Load | client/app/restaurants/update/page.tsx:73-134 | without an API service nothing happens; without an id (absent or empty) an error is shown and nothing is fetched; otherwise the restaurant is fetched and the form is reset from it, or the load error is shown; loading ends |
| UpdatePage.UpdatePage.MountForm | client/app/restaurants/update/page.tsx:192-209 | once loading has ended the form mounts with no previews and its mount effect shows one preview (the proxied URL) per loaded photo reference, so references and previews start out equally many; the form values are untouched |
| UpdatePage.UpdatePage.OnSubmit | client/app/restaurants/update/page.tsx:143-190 | with an API service the error is cleared and the restaurant named by the id is updated (created when there is no id); success navigates to "/" and a failure shows the submit error; without a service nothing is called and the service error is shown |
| RestaurantCard.GetImage | client/components/restaurant-card.tsx:11-21 | there is an image exactly when the photo list, its first entry and that entry's url are all present; it is the proxied url of that first photo |
| RestaurantCard.ImageDependsOnFirstEntryOnly | client/components/restaurant-card.tsx:12-16 | only the first entry matters: later photos never stand in for a missing first photo or url |
| RestaurantCard.ImageSource | client/components/restaurant-card.tsx:42-44 | the card shows the placeholder exactly when there is no image, and the image otherwise |
| RestaurantCard.SummaryImage | client/components/restaurant-card.tsx:11-44 | a restaurant summary with photos shows its first photo through the proxy; one without shows the placeholder |

## Left out

- Rendering: the JSX markup, styling and the loading screen are not modelled. The model keeps only the values that markup reads: the pager controls, the image source and the error text.
- Other files: the restaurant map, the admin page, the context providers, the detail and review pages, and the server side are not part of this model.
- Concurrency: React state updates are applied at once, in program order. Interleavings of overlapping requests and stale closures among them are not modelled, except where one handler reads the previous render's state. That happens in `HandlePageChange`, and in the create page's non-axios error path.
- The `setTimeout` in the rating filter: the deferred search is returned at once, with the parameters it would send.
- Browser object URLs: `URL.createObjectURL` is given as each file's `objectUrl`, and `URL.revokeObjectURL` is reported as the URL released.
- Form validation: react-hook-form's required-field checks and its internals are not modelled. A submit receives the validated data as a parameter. The `getValues("photos") || []` fallback cannot apply, because the photo list is always present here.
- Header names: AxiosHeaders matches header names case-insensitively. Here headers are an exact-key map.
- Axios configuration: the constructor's credentials and XSRF defaults are not modelled. Its JSON content-type default appears as each non-upload request's content type in `RequestFor`. The request-error interceptor and the response-success interceptor only pass their value through, and are not modelled.
- Logging: `console.log` and `console.error` are not modelled.
- Time and numbers: `Date.now()` is passed in as `now`. The expiry and the status are integers. Coordinates are real numbers, not floating point.
- Navigation: `router.push` is returned as the navigation target.
- ApiClient.AxiosApiService.InterceptResponseError: models one decision. The outcome of the replayed request, which can fail with a 401 again, is not part of the result. A `signinRedirect` that itself throws is not modelled.
- ApiClient.AxiosApiService.InterceptRequest: a `signinSilent` that never settles is not modelled.
- RestaurantForm.FormComponent.HandleRemovePhoto: requires an index into the previews. Only the rendered previews' buttons call it, with their own index. An out-of-range index would throw after the lists were updated, and that is not modelled.
- RestaurantForm.FormComponent.HandleFileChange: takes one upload outcome per selected file as a parameter, and `JoinUploads` combines them. The uploads run concurrently, and the order in which they finish is not modelled.
- Token after a silent refresh: the service reads the user from the authentication value captured when it was built. The model assumes that value shows the refreshed user after `signinSilent`. That depends on the identity library, whose code is not part of this model, and the clauses of `InterceptRequest` and `InterceptResponseError` about the refreshed token rest on it.
- RestaurantForm.JoinUploads: a failed joint upload reports the first failure in file order. `Promise.all` reports the first in time, and the form ignores which one it was.

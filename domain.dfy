/** The data shapes shared by every part of the client: the records the
    backend sends and receives. They carry no behaviour beyond accessors. */
module Domain {

  /** A value that may be absent (TypeScript's `undefined` or `null`). */
  datatype Option<+T> = None | Some(value: T) {
    /** `x || d` and `x ?? d` on an optional value. */
    function GetOr(default: T): T {
      match this
      case Some(v) => v
      case None => default
    }
  }

  datatype Day = Monday | Tuesday | Wednesday | Thursday | Friday | Saturday | Sunday

  datatype TimeRange = TimeRange(openTime: string, closeTime: string)

  /** One optional time range per weekday. */
  datatype OperatingHours = OperatingHours(
    monday: Option<TimeRange>,
    tuesday: Option<TimeRange>,
    wednesday: Option<TimeRange>,
    thursday: Option<TimeRange>,
    friday: Option<TimeRange>,
    saturday: Option<TimeRange>,
    sunday: Option<TimeRange>)
  {
    /** The field `operatingHours.<day>`. */
    function Get(d: Day): Option<TimeRange> {
      match d
      case Monday => monday
      case Tuesday => tuesday
      case Wednesday => wednesday
      case Thursday => thursday
      case Friday => friday
      case Saturday => saturday
      case Sunday => sunday
    }

    /** The hours with the field of day `d` replaced by `h`. */
    function With(d: Day, h: Option<TimeRange>): (r: OperatingHours)
      ensures r.Get(d) == h
      ensures forall e: Day :: e != d ==> r.Get(e) == Get(e)
    {
      match d
      case Monday => this.(monday := h)
      case Tuesday => this.(tuesday := h)
      case Wednesday => this.(wednesday := h)
      case Thursday => this.(thursday := h)
      case Friday => this.(friday := h)
      case Saturday => this.(saturday := h)
      case Sunday => this.(sunday := h)
    }
  }

  const ClosedAllWeek := OperatingHours(None, None, None, None, None, None, None)

  datatype Address = Address(
    streetNumber: string,
    streetName: string,
    unit: Option<string>,
    city: string,
    state: string,
    postalCode: string,
    country: string)

  datatype GeoLocation = GeoLocation(latitude: real, longitude: real)

  /** A stored photo; `url` doubles as the identifier a restaurant or review refers to. */
  datatype Photo = Photo(id: string, url: string, caption: Option<string>, uploadDate: string)

  datatype UserSummary = UserSummary(id: string, username: string)

  datatype Review = Review(
    id: string,
    content: string,
    rating: int,
    datePosted: string,
    lastEdited: Option<string>,
    photos: Option<seq<Photo>>,
    writtenBy: UserSummary)

  datatype Restaurant = Restaurant(
    id: string,
    name: string,
    cuisineType: string,
    contactInformation: Option<string>,
    averageRating: Option<real>,
    totalReviews: Option<int>,
    reviews: Option<seq<Review>>,
    address: Address,
    geoLocation: Option<GeoLocation>,
    operatingHours: OperatingHours,
    photos: Option<seq<Photo>>)

  datatype RestaurantSummary = RestaurantSummary(
    id: string,
    name: string,
    cuisineType: string,
    averageRating: Option<real>,
    totalReviews: Option<int>,
    address: Address,
    photos: Option<seq<Photo>>)

  datatype PageMetadata = PageMetadata(pageNumber: int, size: int, totalElements: int, totalPages: int)

  /** The backend's page envelope, with the redundant top-level flags the client reads. */
  datatype PaginatedResponse<T> = PaginatedResponse(
    content: seq<T>,
    pageable: PageMetadata,
    totalPages: int,
    first: bool,
    last: bool)

  /** The body of a create or update of a restaurant. The contact information
      is optional here because the edit form copies it verbatim from a
      restaurant, where it is optional. */
  datatype CreateRestaurantRequest = CreateRestaurantRequest(
    name: string,
    cuisineType: string,
    contactInformation: Option<string>,
    address: Address,
    operatingHours: OperatingHours,
    photoIds: seq<string>)

  /** The body of a create or update of a review. */
  datatype ReviewRequest = ReviewRequest(content: string, rating: int, photoIds: Option<seq<string>>)

  /** Search filters; an absent field means "no constraint". */
  datatype RestaurantSearchParams = RestaurantSearchParams(
    q: Option<string>,
    minRating: Option<int>,
    latitude: Option<real>,
    longitude: Option<real>,
    radius: Option<real>,
    page: Option<int>,
    size: Option<int>)

  const NoFilters := RestaurantSearchParams(None, None, None, None, None, None, None)

  /** A file the user picked in the browser; `objectUrl` stands for the
      `blob:` URL the browser hands out for it. */
  datatype LocalFile = LocalFile(name: string, objectUrl: string)
}

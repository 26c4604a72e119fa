/** The restaurant card's image (client/components/restaurant-card.tsx). */
module RestaurantCard {
  import opened Domain
  import opened ApiClient

  /** A photo list entry as the card inspects it: the JSON it reads may hold
      a null entry or an entry whose url is null. */
  datatype PhotoEntry = NullEntry | Entry(url: Option<string>)

  const Placeholder := "/placeholder.svg?height=300&width=400"

  /** `getImage`: the proxied URL of the first photo, when the list, its
      first entry and that entry's url are all there. */
  function GetImage(photos: Option<seq<PhotoEntry>>): (r: Option<string>)
    ensures r.Some? <==>
      photos.Some? && |photos.value| > 0 && photos.value[0].Entry? && photos.value[0].url.Some?
    ensures r.Some? ==> r.value == PhotoProxyUrl(photos.value[0].url.value)
  {
    if photos.Some? && |photos.value| > 0 && photos.value[0].Entry? && photos.value[0].url.Some? then
      Some(PhotoProxyUrl(photos.value[0].url.value))
    else None
  }

  /** Only the first entry matters: a missing first photo or url is not
      replaced by a later one. */
  lemma ImageDependsOnFirstEntryOnly(first: PhotoEntry, rest1: seq<PhotoEntry>, rest2: seq<PhotoEntry>)
    ensures GetImage(Some([first] + rest1)) == GetImage(Some([first] + rest2))
    ensures first == NullEntry || first == Entry(None) ==> GetImage(Some([first] + rest1)).None?
  {
    assert ([first] + rest1)[0] == first && ([first] + rest2)[0] == first;
  }

  /** The image source the card renders: the photo, or the placeholder when
      there is none; a photo URL is never mistaken for the placeholder. */
  function ImageSource(photos: Option<seq<PhotoEntry>>): (src: string)
    ensures src == Placeholder <==> GetImage(photos).None?
    ensures GetImage(photos).Some? ==> src == GetImage(photos).value
  {
    var image := GetImage(photos);
    if image.Some? then
      assert image.value[1] != Placeholder[1];
      image.value
    else Placeholder
  }

  /** The entries of a restaurant summary's photo list. */
  function Entries(photos: Option<seq<Photo>>): (r: Option<seq<PhotoEntry>>)
    ensures photos.None? <==> r.None?
    ensures photos.Some? ==>
      |r.value| == |photos.value| &&
      forall k :: 0 <= k < |photos.value| ==> r.value[k] == Entry(Some(photos.value[k].url))
  {
    if photos.None? then None
    else Some(seq(|photos.value|, k requires 0 <= k < |photos.value| => Entry(Some(photos.value[k].url))))
  }

  /** A summary with photos shows its first photo; one without shows the placeholder. */
  lemma SummaryImage(s: RestaurantSummary)
    ensures s.photos.Some? && |s.photos.value| > 0 ==>
      ImageSource(Entries(s.photos)) == PhotoProxyUrl(s.photos.value[0].url)
    ensures s.photos.None? || |s.photos.value| == 0 ==> ImageSource(Entries(s.photos)) == Placeholder
  {
  }
}

/** Message rendering helpers: the size an image or video message is drawn at, and which
    URL and caption a shared post shows. Real arithmetic is exact here; the floating-point
    rounding of the app is not modelled. A `None` result stands for an expression that
    throws a TypeError (reading `[0].url` of an absent or empty list, or `.text` of null). */
module Renderer {
  import opened Wrappers

  const MaxWidth: real := 200.0

  datatype Size = Size(width: real, height: real)

  /** `renderImageMessage`: scale down to `MaxWidth` when wider, keeping the aspect ratio. */
  function ImageMessageSize(width: real, height: real): (r: Size)
    ensures r.width <= MaxWidth
    ensures width <= MaxWidth ==> r == Size(width, height)
    ensures width > MaxWidth ==> r.width == MaxWidth
    ensures 0.0 < height ==> 0.0 < r.height
    ensures 0.0 <= height ==> r.height <= height
    ensures r.height * width == height * r.width
  {
    var scale := if width > MaxWidth then MaxWidth / width else 1.0;
    Size(width * scale, height * scale)
  }

  /** `renderVideoMessage` repeats the computation of `renderImageMessage`. */
  function VideoMessageSize(width: real, height: real): (r: Size)
    ensures r == ImageMessageSize(width, height)
  {
    var scale := if width > MaxWidth then MaxWidth / width else 1.0;
    Size(width * scale, height * scale)
  }

  /** Scaling a size that is already scaled changes nothing. */
  lemma ScaleIdempotent(width: real, height: real)
    ensures var r := ImageMessageSize(width, height);
            ImageMessageSize(r.width, r.height) == r
  {
  }

  datatype MediaType = Image | Video

  /** The media of a post or carousel element: `image_versions2.candidates` and
      `video_versions`, each reduced to its URLs, either of which may be absent. */
  datatype Versions = Versions(imageCandidates: Option<seq<string>>, videoVersions: Option<seq<string>>)

  /** A shared post: `product_type`, its own media, `carousel_media`, and `caption.text`
      (None when `caption` is null). */
  datatype MediaPost = MediaPost(
    productType: Option<string>,
    media: Versions,
    carouselMedia: Option<seq<Versions>>,
    caption: Option<string>)

  /** The first URL of a list; None (a TypeError) when the list is absent or empty. */
  function FirstUrl(urls: Option<seq<string>>): (r: Option<string>)
    ensures r.Some? <==> urls.Some? && |urls.value| > 0
    ensures r.Some? ==> r.value == urls.value[0]
  {
    match urls
    case Some(us) => if |us| > 0 then Some(us[0]) else None
    case None => None
  }

  /** The URL a post shows: the first image candidate whenever image versions are present
      (even an empty list, which throws), otherwise the first video version. */
  function DisplayUrl(v: Versions): (r: Option<string>)
    ensures v.imageCandidates.Some? ==> r == FirstUrl(v.imageCandidates)
    ensures v.imageCandidates.None? ==> r == FirstUrl(v.videoVersions)
  {
    if v.imageCandidates.Some? then FirstUrl(v.imageCandidates) else FirstUrl(v.videoVersions)
  }

  datatype ViewerTarget = ViewerTarget(mediaType: MediaType, url: string)

  /** `openMediaViewer`: the type is an image only for `product_type == "clip"`; the URL is
      the post's display URL, except that a `"clips"` post always opens its first video.
      The display URL is read before the `"clips"` test, so it must exist in every case. */
  function OpenMediaViewer(post: MediaPost): (r: Option<ViewerTarget>)
    ensures r.Some? ==> (r.value.mediaType == Image <==> post.productType == Some("clip"))
    ensures post.productType == Some("clips") ==>
              && (r.Some? <==> DisplayUrl(post.media).Some? && FirstUrl(post.media.videoVersions).Some?)
              && (r.Some? ==> r.value == ViewerTarget(Video, post.media.videoVersions.value[0]))
    ensures post.productType != Some("clips") ==>
              && (r.Some? <==> DisplayUrl(post.media).Some?)
              && (r.Some? ==> r.value.url == DisplayUrl(post.media).value)
  {
    var mediaType := if post.productType == Some("clip") then Image else Video;
    match DisplayUrl(post.media)
    case None => None
    case Some(url) =>
      if post.productType == Some("clips") then
        match FirstUrl(post.media.videoVersions)
        case None => None
        case Some(video) => Some(ViewerTarget(Video, video))
      else
        Some(ViewerTarget(mediaType, url))
  }

  /** A `"clips"` post opens the same video whatever its image candidates are, as long as
      reading them does not throw. */
  lemma ClipsIgnoreImages(post: MediaPost, images: Option<seq<string>>)
    requires post.productType == Some("clips")
    requires DisplayUrl(post.media).Some? && DisplayUrl(post.media.(imageCandidates := images)).Some?
    ensures OpenMediaViewer(post) == OpenMediaViewer(post.(media := post.media.(imageCandidates := images)))
  {
  }

  /** What a shared-post bubble shows. */
  datatype Preview = Preview(url: string, caption: string)

  predicate IsCarousel(post: MediaPost) {
    post.carouselMedia.Some? && |post.carouselMedia.value| > 0
  }

  /** The media whose URL the bubble shows: the first carousel element, or the post itself. */
  function PreviewSource(post: MediaPost): Versions {
    if IsCarousel(post) then post.carouselMedia.value[0] else post.media
  }

  /** The preview as the bubble computes it: the carousel branch reads `caption.text`
      without checking that `caption` is present. */
  function MediaSharePreviewAsWritten(post: MediaPost): (r: Option<Preview>)
    ensures r.Some? ==> Some(r.value.url) == DisplayUrl(PreviewSource(post))
    ensures IsCarousel(post) ==> (r.Some? <==> DisplayUrl(PreviewSource(post)).Some? && post.caption.Some?)
  {
    if IsCarousel(post) then
      match DisplayUrl(post.carouselMedia.value[0])
      case None => None
      case Some(url) =>
        match post.caption
        case None => None
        case Some(text) => Some(Preview(url, text))
    else
      match DisplayUrl(post.media)
      case None => None
      case Some(url) => Some(Preview(url, post.caption.GetOr("")))
  }

  /** The preview with the carousel branch guarded as the single-media branch is: a missing
      caption shows as the empty string in both branches. */
  function MediaSharePreview(post: MediaPost): (r: Option<Preview>)
    ensures r.Some? <==> DisplayUrl(PreviewSource(post)).Some?
    ensures r.Some? ==> r.value.url == DisplayUrl(PreviewSource(post)).value
    ensures r.Some? ==> r.value.caption == post.caption.GetOr("")
    ensures IsCarousel(post) && r.Some? ==> Some(r.value.url) == DisplayUrl(post.carouselMedia.value[0])
  {
    match DisplayUrl(PreviewSource(post))
    case None => None
    case Some(url) => Some(Preview(url, post.caption.GetOr("")))
  }

  /** The two agree on every post except a carousel without a caption. */
  lemma PreviewsAgreeExceptCaptionlessCarousel(post: MediaPost)
    requires !IsCarousel(post) || post.caption.Some?
    ensures MediaSharePreviewAsWritten(post) == MediaSharePreview(post)
  {
  }

  /** A carousel whose caption is null: the bubble as written throws, the guarded one
      shows the first element with an empty caption. */
  lemma CaptionlessCarouselThrows()
    ensures var image := Versions(Some(["https://cdn/a.jpg"]), None);
            var post := MediaPost(Some("carousel_container"), Versions(None, None), Some([image]), None);
            && MediaSharePreviewAsWritten(post) == None
            && MediaSharePreview(post) == Some(Preview("https://cdn/a.jpg", ""))
  {
  }
}

/** A user's timeline: new posts, one "You're All Caught Up" marker, then old posts; and
    the choice of how each entry is drawn. */
module Timeline {
  import opened Wrappers

  /** A timeline entry. Posts carry `organic_tracking_token` and `media_type` from the
      backend; `kind` is the `type` field, which only the marker sets. */
  datatype Item = Item(id: string, organicTrackingToken: Option<string>, kind: Option<string>, mediaType: Option<int>)

  const MarkerId := "allCaughtUp"

  function Marker(): Item {
    Item(MarkerId, None, Some("marker"), None)
  }

  predicate IsMarker(item: Item) {
    item.kind == Some("marker")
  }

  /** The list key: the tracking token when it is present and non-empty, otherwise the id. */
  function Key(item: Item): (k: string)
    ensures item.organicTrackingToken.Some? && item.organicTrackingToken.value != "" ==>
              k == item.organicTrackingToken.value
    ensures item.organicTrackingToken.None? || item.organicTrackingToken == Some("") ==> k == item.id
  {
    match item.organicTrackingToken
    case Some(t) => if t != "" then t else item.id
    case None => item.id
  }

  /** `prepareTimelineData(newPosts, oldPosts)`: new posts, the marker, old posts. */
  function PrepareTimelineData(newPosts: seq<Item>, oldPosts: seq<Item>): (r: seq<Item>)
    ensures |r| == |newPosts| + |oldPosts| + 1
    ensures r[|newPosts|] == Marker() && Key(r[|newPosts|]) == MarkerId
    ensures r[..|newPosts|] == newPosts
    ensures r[|newPosts| + 1..] == oldPosts
  {
    newPosts + [Marker()] + oldPosts
  }

  /** How an entry is drawn. `playing` is the focus flag handed to the video post. */
  datatype RenderKind =
    | CaughtUp         // the marker banner
    | Photo            // media_type 1
    | VideoPost(playing: bool)  // media_type 2
    | Carousel         // media_type 8
    | Placeholder      // any other media_type, or none

  /** `renderItem`: the marker first, then a switch on `media_type`. A video plays only when
      its key is among the visible keys and the screen itself has focus. */
  function RenderItem(item: Item, visibleKeys: seq<string>, screenFocused: bool): (k: RenderKind)
    ensures k.CaughtUp? <==> IsMarker(item)
    ensures k.Photo? <==> !IsMarker(item) && item.mediaType == Some(1)
    ensures k.VideoPost? <==> !IsMarker(item) && item.mediaType == Some(2)
    ensures k.Carousel? <==> !IsMarker(item) && item.mediaType == Some(8)
    ensures k.Placeholder? <==> !IsMarker(item) && item.mediaType !in {Some(1), Some(2), Some(8)}
    ensures k.VideoPost? ==> (k.playing <==> Key(item) in visibleKeys && screenFocused)
  {
    if IsMarker(item) then CaughtUp
    else
      var itemFocused := Key(item) in visibleKeys;
      match item.mediaType
      case Some(1) => Photo
      case Some(2) => VideoPost(itemFocused && screenFocused)
      case Some(8) => Carousel
      case _ => Placeholder
  }

  /** `onViewableItemsChanged`: the keys of the entries currently on screen. */
  function VisibleKeys(viewable: seq<Item>): (keys: seq<string>)
    ensures |keys| == |viewable|
    ensures forall i :: 0 <= i < |viewable| ==> keys[i] == Key(viewable[i])
    ensures forall k :: k in keys <==> exists i :: 0 <= i < |viewable| && Key(viewable[i]) == k
  {
    seq(|viewable|, i requires 0 <= i < |viewable| => Key(viewable[i]))
  }

  /** A video post that is on screen plays exactly when the timeline screen has focus. */
  lemma ViewableVideoPlaysWhenFocused(item: Item, viewable: seq<Item>, screenFocused: bool)
    requires item in viewable && !IsMarker(item) && item.mediaType == Some(2)
    ensures RenderItem(item, VisibleKeys(viewable), screenFocused) == VideoPost(screenFocused)
  {
  }

  /** When no post is itself marked as a marker, the assembled timeline draws exactly one
      "caught up" banner, between the new and the old posts. */
  lemma {:induction false} OneCaughtUpBanner(newPosts: seq<Item>, oldPosts: seq<Item>, visibleKeys: seq<string>, focused: bool)
    requires forall i :: 0 <= i < |newPosts| ==> !IsMarker(newPosts[i])
    requires forall i :: 0 <= i < |oldPosts| ==> !IsMarker(oldPosts[i])
    ensures var t := PrepareTimelineData(newPosts, oldPosts);
            forall i :: 0 <= i < |t| ==> (RenderItem(t[i], visibleKeys, focused).CaughtUp? <==> i == |newPosts|)
  {
    var t := PrepareTimelineData(newPosts, oldPosts);
    forall i | 0 <= i < |t|
      ensures RenderItem(t[i], visibleKeys, focused).CaughtUp? <==> i == |newPosts|
    {
      if i < |newPosts| {
        assert t[i] == newPosts[i];
      } else if i > |newPosts| {
        assert t[i] == oldPosts[i - |newPosts| - 1];
      }
    }
  }
}

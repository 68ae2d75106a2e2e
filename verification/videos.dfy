/**
 * The `YoutubeVideo` view and its nested `Thumbnail` and `Storyboard` views
 * (invidious_api_client/models/videos.py).  Every view is a record holding the
 * raw value it was built from and nothing else; an accessor is a pure read of
 * that value.
 */
module Videos {
  import opened Wrappers
  import opened JsonValues

  datatype YoutubeVideo = YoutubeVideo(data: Json)
  datatype Thumbnail = Thumbnail(data: Json)
  datatype Storyboard = Storyboard(data: Json)

  /** The fixed prefix of `youtube_url`. */
  const WatchPrefix: string := "https://youtube.com/watch?v="

  // Scalar accessors: absent (None) when the key is missing or null.

  function VideoType(v: YoutubeVideo): (r: Result<Option<Json>, Fault>)
    ensures ReadsKey(r, v.data, "type")
  {
    Field(v.data, "type")
  }

  function Title(v: YoutubeVideo): (r: Result<Option<Json>, Fault>)
    ensures ReadsKey(r, v.data, "title")
  {
    Field(v.data, "title")
  }

  function VideoId(v: YoutubeVideo): (r: Result<Option<Json>, Fault>)
    ensures ReadsKey(r, v.data, "videoId")
  {
    Field(v.data, "videoId")
  }

  function Description(v: YoutubeVideo): (r: Result<Option<Json>, Fault>)
    ensures ReadsKey(r, v.data, "description")
  {
    Field(v.data, "description")
  }

  function DescriptionHtml(v: YoutubeVideo): (r: Result<Option<Json>, Fault>)
    ensures ReadsKey(r, v.data, "descriptionHtml")
  {
    Field(v.data, "descriptionHtml")
  }

  /** `published`: the date of the `published` epoch; a missing or null
      epoch raises. */
  function Published(v: YoutubeVideo): (r: Result<int, Fault>)
    ensures ReadsTimestamp(r, v.data, "published")
  {
    TimestampField(v.data, "published")
  }

  function PublishedText(v: YoutubeVideo): (r: Result<Option<Json>, Fault>)
    ensures ReadsKey(r, v.data, "publishedText")
  {
    Field(v.data, "publishedText")
  }

  /** `youtube_url`: the watch prefix followed by the formatted video id; a
      missing id is formatted as the text `None`. */
  function YoutubeUrl(v: YoutubeVideo): (r: Result<string, Fault>)
    ensures r.Success? ==> |WatchPrefix| <= |r.value| && r.value[..|WatchPrefix|] == WatchPrefix
    ensures VideoId(v).Failure? ==> r == Failure(AttributeError("get"))
    ensures VideoId(v) == Success(None) ==> r == Success(WatchPrefix + "None")
    ensures (exists id :: VideoId(v) == Success(Some(Str(id)))) ==> r.Success?
  {
    var id :- Get(v.data, "videoId");
    var text :- Render(id);
    Success(WatchPrefix + text)
  }

  /** The id can be read back off the URL: everything after the prefix. */
  lemma YoutubeUrlRoundTrip(v: YoutubeVideo, id: string)
    requires VideoId(v) == Success(Some(Str(id)))
    ensures YoutubeUrl(v).Success?
    ensures YoutubeUrl(v).value == WatchPrefix + id
    ensures YoutubeUrl(v).value[|WatchPrefix|..] == id
  {
    assert Get(v.data, "videoId") == Success(Str(id));
  }

  /** `video_thumbnails`: one `Thumbnail` per raw element, in order; a
      missing key raises instead of giving an empty list. */
  function VideoThumbnails(v: YoutubeVideo): (r: Result<seq<Thumbnail>, Fault>)
    ensures ListRead(r, v.data, "videoThumbnails", x => Thumbnail(x))
  {
    ListField(v.data, "videoThumbnails", x => Thumbnail(x))
  }

  /** `storyboards`: one `Storyboard` per raw element, in order; a missing key
      raises instead of giving an empty list. */
  function Storyboards(v: YoutubeVideo): (r: Result<seq<Storyboard>, Fault>)
    ensures ListRead(r, v.data, "storyboards", x => Storyboard(x))
  {
    ListField(v.data, "storyboards", x => Storyboard(x))
  }

  /** On a video record that holds an array of thumbnails the accessor
      succeeds, and each view wraps the raw element at the same position. */
  lemma ThumbnailsKeepOrder(v: YoutubeVideo, items: seq<Json>)
    requires v.data.Obj? && Lookup(v.data.entries, "videoThumbnails") == Some(Arr(items))
    ensures VideoThumbnails(v).Success?
    ensures |VideoThumbnails(v).value| == |items|
    ensures forall i :: 0 <= i < |items| ==> VideoThumbnails(v).value[i].data == items[i]
  {
    assert HasKey(v.data.entries, "videoThumbnails");
  }

  /** The same for storyboards. */
  lemma StoryboardsKeepOrder(v: YoutubeVideo, items: seq<Json>)
    requires v.data.Obj? && Lookup(v.data.entries, "storyboards") == Some(Arr(items))
    ensures Storyboards(v).Success?
    ensures |Storyboards(v).value| == |items|
    ensures forall i :: 0 <= i < |items| ==> Storyboards(v).value[i].data == items[i]
  {
    assert HasKey(v.data.entries, "storyboards");
  }

  /** A video record without the key: both list accessors raise. */
  lemma MissingListsRaise(v: YoutubeVideo)
    requires v.data.Obj?
    requires !HasKey(v.data.entries, "videoThumbnails") && !HasKey(v.data.entries, "storyboards")
    ensures VideoThumbnails(v) == Failure(TypeError)
    ensures Storyboards(v) == Failure(TypeError)
  {
  }

  // Thumbnail accessors.

  function ThumbnailQuality(t: Thumbnail): (r: Result<Option<Json>, Fault>)
    ensures ReadsKey(r, t.data, "quality")
  {
    Field(t.data, "quality")
  }

  function ThumbnailUrl(t: Thumbnail): (r: Result<Option<Json>, Fault>)
    ensures ReadsKey(r, t.data, "url")
  {
    Field(t.data, "url")
  }

  function ThumbnailWidth(t: Thumbnail): (r: Result<Option<Json>, Fault>)
    ensures ReadsKey(r, t.data, "width")
  {
    Field(t.data, "width")
  }

  function ThumbnailHeight(t: Thumbnail): (r: Result<Option<Json>, Fault>)
    ensures ReadsKey(r, t.data, "height")
  {
    Field(t.data, "height")
  }

  // Storyboard accessors.

  function StoryboardUrl(s: Storyboard): (r: Result<Option<Json>, Fault>)
    ensures ReadsKey(r, s.data, "url")
  {
    Field(s.data, "url")
  }

  function StoryboardTemplateUrl(s: Storyboard): (r: Result<Option<Json>, Fault>)
    ensures ReadsKey(r, s.data, "templateUrl")
  {
    Field(s.data, "templateUrl")
  }

  function StoryboardWidth(s: Storyboard): (r: Result<Option<Json>, Fault>)
    ensures ReadsKey(r, s.data, "width")
  {
    Field(s.data, "width")
  }

  function StoryboardHeight(s: Storyboard): (r: Result<Option<Json>, Fault>)
    ensures ReadsKey(r, s.data, "height")
  {
    Field(s.data, "height")
  }
}

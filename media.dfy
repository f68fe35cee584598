/**
  The playlist handed to the engine: each video (url, title) becomes one media
  item whose uri is the url and whose display title is the title. All three
  source trees declare this conversion with the same body.
 */
module Media {

  datatype Video = Video(url: string, title: string)

  datatype MediaItem = MediaItem(uri: string, displayTitle: string)

  function ToMediaItem(v: Video): (m: MediaItem)
  {
    MediaItem(v.url, v.title)
  }

  /** `map { it.toMediaItem() }` over the list of videos. */
  function ToMediaItems(videos: seq<Video>): (items: seq<MediaItem>)
    ensures |items| == |videos|
    ensures forall i :: 0 <= i < |videos| ==>
      items[i].uri == videos[i].url && items[i].displayTitle == videos[i].title
  {
    if videos == [] then [] else [ToMediaItem(videos[0])] + ToMediaItems(videos[1..])
  }

  /** The reverse reading: the videos a list of media items was built from. */
  function FromMediaItems(items: seq<MediaItem>): (videos: seq<Video>)
    ensures |videos| == |items|
  {
    if items == [] then [] else [Video(items[0].uri, items[0].displayTitle)] + FromMediaItems(items[1..])
  }

  /** Nothing of a video is lost or reordered on the way to the engine. */
  lemma {:induction false} MediaItemsRoundTrip(videos: seq<Video>)
    ensures FromMediaItems(ToMediaItems(videos)) == videos
  {
    if videos != [] {
      MediaItemsRoundTrip(videos[1..]);
      assert ToMediaItems(videos)[1..] == ToMediaItems(videos[1..]);
    }
  }

  /** Appending a video to the playlist appends its item at the end. */
  lemma {:induction false} MediaItemsAppend(videos: seq<Video>, v: Video)
    ensures ToMediaItems(videos + [v]) == ToMediaItems(videos) + [ToMediaItem(v)]
  {
    if videos != [] {
      assert (videos + [v])[1..] == videos[1..] + [v];
      MediaItemsAppend(videos[1..], v);
    }
  }
}

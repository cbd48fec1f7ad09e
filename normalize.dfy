/**
 * Item normalisation of services/geminiService.ts: page items without a video
 * id are dropped, the others become a `Video` whose url is the canonical
 * watch URL built from the id.
 */
module VideoItems {
  import opened Wrappers
  import opened Types

  const WatchPrefix := "https://www.youtube.com/watch?v="

  function WatchUrl(videoId: string): string {
    WatchPrefix + videoId
  }

  /** The id a watch URL names: what follows the prefix, if it starts with it. */
  function VideoIdOf(url: string): Option<string> {
    if |WatchPrefix| <= |url| && url[..|WatchPrefix|] == WatchPrefix
    then Some(url[|WatchPrefix|..]) else None
  }

  /** Removing the prefix from a watch URL gives back the id it was built from. */
  lemma WatchUrlRoundTrip(videoId: string)
    ensures VideoIdOf(WatchUrl(videoId)) == Some(videoId)
  {
    assert WatchUrl(videoId)[..|WatchPrefix|] == WatchPrefix;
    assert WatchUrl(videoId)[|WatchPrefix|..] == videoId;
  }

  /** Different ids give different URLs. */
  lemma WatchUrlInjective(a: string, b: string)
    requires WatchUrl(a) == WatchUrl(b)
    ensures a == b
  {
    WatchUrlRoundTrip(a);
    WatchUrlRoundTrip(b);
  }

  /** The filter `item => item.snippet?.resourceId?.videoId` (or `item.id?.videoId`). */
  predicate HasVideoId(item: Item) {
    Truthy(item.videoId)
  }

  /** The record an item with a video id is mapped to. */
  function ToVideo(item: Item): (v: Video)
    requires HasVideoId(item)
    ensures v.title == item.title
    ensures VideoIdOf(v.url) == item.videoId
  {
    WatchUrlRoundTrip(item.videoId.value);
    Video(item.title, WatchUrl(item.videoId.value))
  }

  /** A record whose url is the watch URL of a non-empty id. */
  predicate IsWatchRecord(v: Video) {
    VideoIdOf(v.url).Some? && VideoIdOf(v.url).value != ""
  }

  /** The record of one item, or nothing when it has no video id. */
  function ItemVideos(item: Item): seq<Video> {
    if HasVideoId(item) then [ToVideo(item)] else []
  }

  /** `items.filter(HasVideoId).map(ToVideo)` */
  function Normalize(items: seq<Item>): (vs: seq<Video>)
    ensures |vs| <= |items|
  {
    if items == [] then []
    else ItemVideos(items[0]) + Normalize(items[1..])
  }

  /** Every record produced carries the watch URL of a non-empty video id. */
  lemma {:induction false} NormalizeYieldsWatchRecords(items: seq<Item>, j: nat)
    requires j < |Normalize(items)|
    ensures IsWatchRecord(Normalize(items)[j])
    decreases |items|
  {
    var head := ItemVideos(items[0]);
    assert Normalize(items) == head + Normalize(items[1..]);
    if j >= |head| {
      NormalizeYieldsWatchRecords(items[1..], j - |head|);
    }
  }

  /** Normalising a concatenation normalises each part. */
  lemma {:induction false} NormalizeAppend(a: seq<Item>, b: seq<Item>)
    ensures Normalize(a + b) == Normalize(a) + Normalize(b)
    decreases |a|
  {
    if a == [] {
      assert a + b == b;
    } else {
      assert (a + b)[0] == a[0] && (a + b)[1..] == a[1..] + b;
      NormalizeAppend(a[1..], b);
      calc {
        Normalize(a + b);
        ItemVideos(a[0]) + Normalize(a[1..] + b);
        ItemVideos(a[0]) + (Normalize(a[1..]) + Normalize(b));
        (ItemVideos(a[0]) + Normalize(a[1..])) + Normalize(b);
      }
    }
  }

  /** A record is produced exactly for the items that have a video id. */
  lemma {:induction false} NormalizeMembers(items: seq<Item>, v: Video)
    ensures v in Normalize(items) <==>
            exists i :: 0 <= i < |items| && HasVideoId(items[i]) && v == ToVideo(items[i])
    decreases |items|
  {
    if items != [] {
      NormalizeMembers(items[1..], v);
      if v in Normalize(items[1..]) {
        var i :| 0 <= i < |items[1..]| && HasVideoId(items[1..][i]) && v == ToVideo(items[1..][i]);
        assert items[i + 1] == items[1..][i];
      }
      if exists i :: 0 <= i < |items| && HasVideoId(items[i]) && v == ToVideo(items[i]) {
        var i :| 0 <= i < |items| && HasVideoId(items[i]) && v == ToVideo(items[i]);
        if i > 0 {
          assert items[1..][i - 1] == items[i];
        }
      }
    }
  }

  /** An item without a video id is dropped and changes nothing else. */
  lemma NormalizeDropsItemWithoutId(items: seq<Item>, i: nat)
    requires i < |items| && !HasVideoId(items[i])
    ensures Normalize(items) == Normalize(items[..i] + items[i + 1..])
  {
    var before, after := items[..i], items[i + 1..];
    var rest := [items[i]] + after;
    assert items == before + rest;
    NormalizeAppend(before, rest);
    assert rest[0] == items[i] && rest[1..] == after;
    assert Normalize(rest) == Normalize(after);
    NormalizeAppend(before, after);
  }
}

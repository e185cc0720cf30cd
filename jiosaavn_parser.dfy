/**
  The search-result normaliser: it turns the upstream API's loosely typed
  search response into a list of simplified song records, and passes the text
  fields through the HTML-entity decoder.
 */
module JioSaavnParser {
  import opened Wrappers
  import opened Js
  import opened JsString

  /**
    One simplified song. `image` is always a string; the other fields carry
    whatever value the upstream sent (or a default), not necessarily a string.
   */
  datatype SimplifiedSong = SimplifiedSong(name: Json, artist: Json, album: Json, image: string, songUrl: Json)

  /**
    How a call ends: the list of records, or the TypeError thrown when the
    element at `index` of `results` is null or undefined (its `type` is read
    outside the per-element `try`, so the whole call throws).
   */
  datatype Parse = Songs(songs: seq<SimplifiedSong>) | TypeError(index: nat)

  const UnknownTitle: Json := Str("Unknown Title")
  const UnknownArtist: Json := Str("Unknown Artist")
  const UnknownAlbum: Json := Str("Unknown Album")

  // ---------------------------------------------------------------------------
  // decodeHtmlEntities
  // ---------------------------------------------------------------------------

  /**
    `decodeHtmlEntities(text)`: a non-string is returned as it is; a string goes
    through five global replaces, of `&`, `<`, `>`, `"` and `'`, each by the very
    same character.
   */
  function DecodeHtmlEntities(text: Json): (r: Json)
    ensures !text.Str? ==> r == text
    ensures text.Str? ==> r.Str?
  {
    if !text.Str? then text
    else Str(ReplaceAll(ReplaceAll(ReplaceAll(ReplaceAll(ReplaceAll(
           text.s, "&", "&"), "<", "<"), ">", ">"), "\"", "\""), "'", "'"))
  }

  /** As written, each replace maps a character to itself, so every value comes back unchanged. */
  lemma DecodeHtmlEntitiesIsIdentity(text: Json)
    ensures DecodeHtmlEntities(text) == text
  {
    if text.Str? {
      var s := text.s;
      ReplaceAllSelf(s, "&");
      ReplaceAllSelf(s, "<");
      ReplaceAllSelf(s, ">");
      ReplaceAllSelf(s, "\"");
      ReplaceAllSelf(s, "'");
    }
  }

  // ---------------------------------------------------------------------------
  // One element of `results`
  // ---------------------------------------------------------------------------

  /** `item.type === 'song' && item.more_info`: the only elements the `try` block sees. */
  predicate IsSongEntry(item: Json)
    requires !Nullish(item)
  {
    Get(item, "type") == Str("song") && Truthy(Get(item, "more_info"))
  }

  /** `more_info?.artistMap?.primary_artists` */
  function PrimaryArtists(info: Json): Json {
    GetOpt(GetOpt(info, "artistMap"), "primary_artists")
  }

  /**
    The artist the `try` block settles on: the first primary artist's `name`
    when the list's `length` is above 0 and that name is truthy, 'Unknown
    Artist' otherwise. `None` when `primary_artists[0]` is null or undefined,
    where reading its `name` throws (the per-element `catch` then skips the
    element).
   */
  function PrimaryArtist(info: Json): (r: Option<Json>)
    ensures r.Some? ==> Truthy(r.value)
  {
    var list := PrimaryArtists(info);
    if Nullish(list) || !GreaterThanZero(Get(list, "length")) then Some(UnknownArtist)
    else if Nullish(First(list)) then None
    else Some(Or(Get(First(list), "name"), UnknownArtist))
  }

  /** The artist for an array of primary artists, the shape the upstream sends. */
  lemma PrimaryArtistOfArray(info: Json)
    requires PrimaryArtists(info).Arr?
    ensures var list := PrimaryArtists(info).items;
      && (list == [] ==> PrimaryArtist(info) == Some(UnknownArtist))
      && (list != [] && Nullish(list[0]) ==> PrimaryArtist(info) == None)
      && ((list != [] && !Nullish(list[0]) && Truthy(Get(list[0], "name")))
            ==> PrimaryArtist(info) == Some(Get(list[0], "name")))
      && ((list != [] && !Nullish(list[0]) && !Truthy(Get(list[0], "name")))
            ==> PrimaryArtist(info) == Some(UnknownArtist))
  {
  }

  /**
    `item.image || ''`; a non-empty string has every '150x150' and then every
    '50x50' replaced by '500x500'; anything else becomes ''.
   */
  function Image(image: Json): string {
    var v := Or(image, Str(""));
    if Truthy(v) && v.Str? then ReplaceAll(ReplaceAll(v.s, "150x150", "500x500"), "50x50", "500x500")
    else ""
  }

  /** The image is '' unless it is a non-empty string; a string holding neither size mark comes back unchanged. */
  lemma ImageSpec(image: Json)
    ensures !(image.Str? && image.s != "") ==> Image(image) == ""
    ensures image.Str? && (forall i: nat :: !MatchAt(image.s, "150x150", i) && !MatchAt(image.s, "50x50", i))
            ==> Image(image) == image.s
  {
    if image.Str? && (forall i: nat :: !MatchAt(image.s, "150x150", i) && !MatchAt(image.s, "50x50", i)) {
      ReplaceAllNoMatch(image.s, "150x150", "500x500");
      ReplaceAllNoMatch(image.s, "50x50", "500x500");
    }
  }

  /**
    Upgrading never shortens a URL: the '150x150' pass keeps its length and the
    '50x50' pass can only lengthen it.
   */
  lemma ImageNotShorter(image: Json)
    requires image.Str? && image.s != ""
    ensures |image.s| <= |Image(image)|
    ensures |ReplaceAll(image.s, "150x150", "500x500")| == |image.s|
  {
    ReplaceAllSameLength(image.s, "150x150", "500x500");
    ReplaceAllNotShorter(ReplaceAll(image.s, "150x150", "500x500"), "50x50", "500x500");
  }

  /** In `p + mark + q`, where only `mark` holds an 'x', the one 'x' is at `|p| + xAt`. */
  lemma OnlyX(p: string, mark: string, q: string, xAt: nat, k: nat)
    requires 'x' !in p && 'x' !in q
    requires xAt < |mark| && mark[xAt] == 'x'
    requires forall c :: 0 <= c < |mark| && c != xAt ==> mark[c] != 'x'
    requires k < |p + mark + q|
    ensures (p + mark + q)[k] == 'x' <==> k == |p| + xAt
  {
    var s := p + mark + q;
    if k < |p| {
      assert s[k] == p[k];
    } else if k >= |p| + |mark| {
      assert s[k] == q[k - |p| - |mark|];
    } else {
      assert s[k] == mark[k - |p|];
    }
  }

  /** A thumbnail URL `p + '150x150' + q` without other 'x' is upgraded to `p + '500x500' + q`. */
  lemma ImageUpgradesThumbnail(p: string, q: string)
    requires 'x' !in p && 'x' !in q
    ensures Image(Str(p + "150x150" + q)) == p + "500x500" + q
  {
    var s := p + "150x150" + q;
    forall i: nat | i != |p| ensures !MatchAt(s, "150x150", i) {
      if i + 7 <= |s| {
        OnlyX(p, "150x150", q, 3, i + 3);
        assert s[i..i + 7][3] == s[i + 3];
      }
    }
    ReplaceAllOnce(p, "150x150", "500x500", q);
    var t := p + "500x500" + q;
    forall i: nat ensures !MatchAt(t, "50x50", i) {
      if i + 5 <= |t| {
        OnlyX(p, "500x500", q, 3, i + 2);
        assert t[i..i + 5][2] == t[i + 2] && t[i..i + 5][0] == t[i];
        if i == |p| + 1 {
          assert t[i] == "500x500"[1];
        }
      }
    }
    ReplaceAllNoMatch(t, "50x50", "500x500");
  }

  /** A small thumbnail URL `p + '50x50' + q` without other 'x' is upgraded to `p + '500x500' + q`. */
  lemma ImageUpgradesSmallThumbnail(p: string, q: string)
    requires 'x' !in p && 'x' !in q
    ensures Image(Str(p + "50x50" + q)) == p + "500x500" + q
  {
    var s := p + "50x50" + q;
    forall i: nat ensures !MatchAt(s, "150x150", i) {
      if i + 7 <= |s| {
        OnlyX(p, "50x50", q, 2, i + 3);
        assert s[i..i + 7][3] == s[i + 3] && s[i..i + 7][4] == s[i + 4];
        if i + 1 == |p| {
          assert s[i + 4] == "50x50"[3];
        }
      }
    }
    ReplaceAllNoMatch(s, "150x150", "500x500");
    forall i: nat | i != |p| ensures !MatchAt(s, "50x50", i) {
      if i + 5 <= |s| {
        OnlyX(p, "50x50", q, 2, i + 2);
        assert s[i..i + 5][2] == s[i + 2];
      }
    }
    ReplaceAllOnce(p, "50x50", "500x500", q);
  }

  /**
    The `try` block for one non-null element, as a function: `None` when no
    record is pushed (not a song entry, the artist read threw, no media URL,
    or no real title).
   */
  function SimplifyItem(item: Json): Option<SimplifiedSong>
    requires !Nullish(item)
  {
    if !IsSongEntry(item) then None
    else
      var info := Get(item, "more_info");
      var name := Or(Get(item, "title"), UnknownTitle);
      match PrimaryArtist(info)
      case None => None
      case Some(artist) =>
        var album := Or(GetOpt(info, "album"), UnknownAlbum);
        var songUrl := Or(GetOpt(info, "encrypted_media_url"), Str(""));
        if Truthy(songUrl) && name != UnknownTitle then
          Some(SimplifiedSong(DecodeHtmlEntities(name), DecodeHtmlEntities(artist),
                              DecodeHtmlEntities(album), Image(Get(item, "image")), songUrl))
        else None
  }

  /**
    An element yields a record exactly when it is a song entry with a truthy
    `title` other than 'Unknown Title', a truthy `more_info.encrypted_media_url`,
    and an artist read that does not throw; the record's fields are then the
    element's own values (or their defaults).
   */
  lemma SimplifyItemSpec(item: Json)
    requires !Nullish(item)
    ensures var info := Get(item, "more_info");
      SimplifyItem(item).Some? <==>
        && IsSongEntry(item)
        && Truthy(Get(item, "title")) && Get(item, "title") != UnknownTitle
        && Truthy(GetOpt(info, "encrypted_media_url"))
        && PrimaryArtist(info).Some?
    ensures SimplifyItem(item).Some? ==>
      var info := Get(item, "more_info");
      var song := SimplifyItem(item).value;
      && song.name == Get(item, "title")
      && song.artist == PrimaryArtist(info).value
      && song.album == Or(GetOpt(info, "album"), UnknownAlbum)
      && song.image == Image(Get(item, "image"))
      && song.songUrl == GetOpt(info, "encrypted_media_url")
      && Truthy(song.name) && Truthy(song.artist) && Truthy(song.album) && Truthy(song.songUrl)
  {
    if SimplifyItem(item).Some? {
      var info := Get(item, "more_info");
      DecodeHtmlEntitiesIsIdentity(Or(Get(item, "title"), UnknownTitle));
      DecodeHtmlEntitiesIsIdentity(PrimaryArtist(info).value);
      DecodeHtmlEntitiesIsIdentity(Or(GetOpt(info, "album"), UnknownAlbum));
    }
  }

  /**
    The `forEach` callback for one element whose `type` read did not throw:
    the `try` block with its `let` reassignments, returning the record it
    pushes, if any.
   */
  method TrySimplify(item: Json) returns (pushed: Option<SimplifiedSong>)
    requires !Nullish(item)
    ensures pushed == SimplifyItem(item)
  {
    pushed := None;
    if !(Get(item, "type") == Str("song") && Truthy(Get(item, "more_info"))) {
      return;
    }
    var info := Get(item, "more_info");
    var name := Or(Get(item, "title"), UnknownTitle);

    var artist := UnknownArtist;
    var list := PrimaryArtists(info);
    if !Nullish(list) && GreaterThanZero(Get(list, "length")) {
      var first := First(list);
      if Nullish(first) {
        // reading `name` of null throws; the catch logs and skips the element
        return;
      }
      artist := Or(Get(first, "name"), artist);
    }

    var album := Or(GetOpt(info, "album"), UnknownAlbum);

    var imageUrl := Image(Get(item, "image"));

    var songUrl := Or(GetOpt(info, "encrypted_media_url"), Str(""));

    if Truthy(songUrl) && name != UnknownTitle {
      pushed := Some(SimplifiedSong(DecodeHtmlEntities(name), DecodeHtmlEntities(artist),
                                    DecodeHtmlEntities(album), imageUrl, songUrl));
    }
  }

  // ---------------------------------------------------------------------------
  // The whole response
  // ---------------------------------------------------------------------------

  /** `apiResponse?.results` when it is an array; `None` otherwise. */
  function ResultsOf(apiResponse: Json): Option<seq<Json>> {
    var results := GetOpt(apiResponse, "results");
    if results.Arr? then Some(results.items) else None
  }

  /** The records pushed for a list of non-null elements, in order. */
  function SimplifyAll(items: seq<Json>): (songs: seq<SimplifiedSong>)
    requires forall k :: 0 <= k < |items| ==> !Nullish(items[k])
    ensures |songs| <= |items|
    decreases |items|
  {
    if items == [] then []
    else
      var init := SimplifyAll(items[..|items| - 1]);
      match SimplifyItem(items[|items| - 1])
      case Some(song) => init + [song]
      case None => init
  }

  /** One more element appends the record it yields, if any. */
  lemma SimplifyAllStep(items: seq<Json>, i: nat)
    requires i < |items|
    requires forall k :: 0 <= k <= i ==> !Nullish(items[k])
    ensures SimplifyItem(items[i]).Some? ==>
      SimplifyAll(items[..i + 1]) == SimplifyAll(items[..i]) + [SimplifyItem(items[i]).value]
    ensures SimplifyItem(items[i]).None? ==> SimplifyAll(items[..i + 1]) == SimplifyAll(items[..i])
  {
    var prefix := items[..i + 1];
    assert prefix[..i] == items[..i] && prefix[i] == items[i];
  }

  /** The values of the `Some` entries, in order. */
  function Somes<T>(opts: seq<Option<T>>): (r: seq<T>)
    ensures |r| <= |opts|
  {
    if opts == [] then []
    else
      var init := Somes(opts[..|opts| - 1]);
      match opts[|opts| - 1]
      case Some(v) => init + [v]
      case None => init
  }

  /**
    `Somes` keeps exactly the `Some` entries, in order: output `j` comes from
    entry `idx[j]`, the indices increase, and every `Some` entry is among them.
   */
  lemma {:induction false} SomesOrder<T>(opts: seq<Option<T>>) returns (idx: seq<nat>)
    ensures |idx| == |Somes(opts)|
    ensures forall j :: 0 <= j < |idx| ==> idx[j] < |opts| && opts[idx[j]] == Some(Somes(opts)[j])
    ensures forall i, j :: 0 <= i < j < |idx| ==> idx[i] < idx[j]
    ensures forall k :: 0 <= k < |opts| && opts[k].Some? ==> k in idx
  {
    if opts == [] {
      idx := [];
    } else {
      var n := |opts| - 1;
      var init := opts[..n];
      assert forall k :: 0 <= k < n ==> init[k] == opts[k];
      var prev := SomesOrder(init);
      var before := Somes(init);
      var out := Somes(opts);
      match opts[n]
      case Some(v) =>
        assert out == before + [v];
        idx := prev + [n];
        forall j | 0 <= j < |idx|
          ensures idx[j] < |opts| && opts[idx[j]] == Some(out[j])
        {
          if j < |prev| {
            assert idx[j] == prev[j] && out[j] == before[j];
          }
        }
      case None =>
        assert out == before;
        idx := prev;
    }
  }

  /** What `SimplifyItem` gives for each element. */
  function Outcomes(items: seq<Json>): (r: seq<Option<SimplifiedSong>>)
    requires forall k :: 0 <= k < |items| ==> !Nullish(items[k])
    ensures |r| == |items|
    ensures forall k :: 0 <= k < |items| ==> r[k] == SimplifyItem(items[k])
  {
    seq(|items|, k requires 0 <= k < |items| => SimplifyItem(items[k]))
  }

  /** The records pushed are the `Some` outcomes of the elements. */
  lemma {:induction false} SimplifyAllIsSomes(items: seq<Json>)
    requires forall k :: 0 <= k < |items| ==> !Nullish(items[k])
    ensures SimplifyAll(items) == Somes(Outcomes(items))
    decreases |items|
  {
    if items != [] {
      var n := |items| - 1;
      SimplifyAllIsSomes(items[..n]);
      assert Outcomes(items)[..n] == Outcomes(items[..n]);
    }
  }

  /**
    The output is the subsequence of the elements that yield a record: output
    `j` comes from element `idx[j]`, the indices increase, and every element
    that yields a record is among them.
   */
  lemma SimplifyAllOrder(items: seq<Json>) returns (idx: seq<nat>)
    requires forall k :: 0 <= k < |items| ==> !Nullish(items[k])
    ensures |idx| == |SimplifyAll(items)|
    ensures forall j :: 0 <= j < |idx| ==> idx[j] < |items| && SimplifyItem(items[idx[j]]) == Some(SimplifyAll(items)[j])
    ensures forall i, j :: 0 <= i < j < |idx| ==> idx[i] < idx[j]
    ensures forall k :: 0 <= k < |items| && SimplifyItem(items[k]).Some? ==> k in idx
  {
    SimplifyAllIsSomes(items);
    idx := SomesOrder(Outcomes(items));
  }

  /** Every record has a truthy `songUrl`, `name`, `artist` and `album`, and a name other than 'Unknown Title'. */
  lemma SimplifyAllRecords(items: seq<Json>)
    requires forall k :: 0 <= k < |items| ==> !Nullish(items[k])
    ensures forall song :: song in SimplifyAll(items) ==>
      && Truthy(song.songUrl) && Truthy(song.name) && Truthy(song.artist) && Truthy(song.album)
      && song.name != UnknownTitle
  {
    var idx := SimplifyAllOrder(items);
    var out := SimplifyAll(items);
    forall song | song in out
      ensures Truthy(song.songUrl) && Truthy(song.name) && Truthy(song.artist) && Truthy(song.album)
      ensures song.name != UnknownTitle
    {
      var j :| 0 <= j < |out| && out[j] == song;
      SimplifyItemSpec(items[idx[j]]);
    }
  }

  /**
    `parseJioSaavnSearch(apiResponse)`: `[]` unless `apiResponse?.results` is
    an array; otherwise each element in turn goes through the `forEach`
    callback, which pushes at most one record. A null or undefined element
    stops the iteration with a TypeError.
   */
  method ParseJioSaavnSearch(apiResponse: Json) returns (r: Parse)
    ensures ResultsOf(apiResponse).None? ==> r == Songs([])
    ensures ResultsOf(apiResponse).Some? ==>
      var items := ResultsOf(apiResponse).value;
      && (r.TypeError? <==> exists k :: 0 <= k < |items| && Nullish(items[k]))
      && (r.TypeError? ==> r.index < |items| && Nullish(items[r.index])
                           && forall k :: 0 <= k < r.index ==> !Nullish(items[k]))
      && (r.Songs? ==> r.songs == SimplifyAll(items))
  {
    var simplifiedSongs: seq<SimplifiedSong> := [];
    var results := GetOpt(apiResponse, "results");
    if !Truthy(results) || !results.Arr? {
      return Songs([]);
    }
    var items := results.items;
    var i := 0;
    while i < |items|
      invariant 0 <= i <= |items|
      invariant forall k :: 0 <= k < i ==> !Nullish(items[k])
      invariant simplifiedSongs == SimplifyAll(items[..i])
    {
      var item := items[i];
      if Nullish(item) {
        return TypeError(i);
      }
      var pushed := TrySimplify(item);
      if pushed.Some? {
        simplifiedSongs := simplifiedSongs + [pushed.value];
      }
      SimplifyAllStep(items, i);
      i := i + 1;
    }
    assert items[..i] == items;
    return Songs(simplifiedSongs);
  }
}

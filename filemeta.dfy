/** Choosing a track's album and cover from the decoded AcoustID lookup and Cover
    Art Archive replies. The JSON is modelled as datatypes; a key the code reads
    but the reply may lack is an `Option`. */
module FileMeta {
  import opened Wrappers
  import opened Text

  /** An artist credit: `{'id': …, 'name': …}`. */
  datatype Credit = Credit(id: Option<string>, name: Option<string>)

  /** A release group. `kind` is its 'type'; `secondaryTypes` tells whether the
      'secondarytypes' key is present at all. */
  datatype ReleaseGroup = ReleaseGroup(
    kind: Option<string>,
    secondaryTypes: bool,
    artists: Option<seq<Credit>>,
    title: Option<string>,
    id: Option<string>)

  datatype Recording = Recording(
    title: Option<string>,
    artists: Option<seq<Credit>>,
    releaseGroups: Option<seq<ReleaseGroup>>)

  datatype LookupResult = LookupResult(recordings: Option<seq<Recording>>)

  /** The top-level lookup reply. */
  datatype Lookup = Lookup(results: Option<seq<LookupResult>>)

  /** One entry of the cover list: its 'types', its 'approved' flag and its
      'thumbnails' dictionary. */
  datatype Image = Image(types: seq<string>, approved: bool, thumbnails: map<string, string>)

  /** Why a reply could not be used: a key that is absent, a list that is empty
      where its first element is read, or no acceptable album in any recording. */
  datatype ParseError = Missing(key: string) | Empty(key: string) | NoAlbum

  /** `self.data`: what the lookup contributes about a track. `art` is absent until
      the cover list has been filtered. */
  datatype TrackData = TrackData(
    track: string,
    album: string,
    albumId: string,
    artist: string,
    artistId: string,
    art: Option<seq<string>>)

  /** `entry['artists'][0]['name']` when it is a string, or None when reading it
      raises. */
  function FirstArtistName(g: ReleaseGroup): Option<string>
  {
    if g.artists.None? || g.artists.value == [] then None else g.artists.value[0].name
  }

  /** A release group the selection accepts: an album with no secondary types whose
      first artist is not credited as "Various …" (or has no usable credit). */
  predicate Qualifies(g: ReleaseGroup)
  {
    && g.kind == Some("Album")
    && !g.secondaryTypes
    && (FirstArtistName(g).None? || !Contains(FirstArtistName(g).value, "Various"))
  }

  /** Entry `i` is where the scan of `groups` stops with a match: it qualifies, and
      every entry before it has a type and does not qualify. */
  ghost predicate PickedAt(groups: seq<ReleaseGroup>, i: int)
  {
    && 0 <= i < |groups|
    && Qualifies(groups[i])
    && forall j :: 0 <= j < i ==> groups[j].kind.Some? && !Qualifies(groups[j])
  }

  /** The inner loop over one recording's release groups: the first qualifying
      entry, unless an entry without a 'type' comes first, whose KeyError abandons
      the recording. */
  function PickIn(groups: seq<ReleaseGroup>): Option<ReleaseGroup>
  {
    if groups == [] then None
    else if groups[0].kind.None? then None
    else if Qualifies(groups[0]) then Some(groups[0])
    else PickIn(groups[1..])
  }

  /** The scan finds something exactly when some entry is where it stops with a
      match, and what it finds is that entry. */
  lemma {:induction false} PickInFirstMatch(groups: seq<ReleaseGroup>)
    ensures PickIn(groups).Some? <==> exists i :: PickedAt(groups, i)
    ensures PickIn(groups).Some? ==> exists i :: PickedAt(groups, i) && groups[i] == PickIn(groups).value
  {
    if groups == [] {
    } else if groups[0].kind.None? {
      assert forall i :: !PickedAt(groups, i);
    } else if Qualifies(groups[0]) {
      assert PickedAt(groups, 0);
    } else {
      PickInFirstMatch(groups[1..]);
      forall i ensures PickedAt(groups, i) <==> i > 0 && PickedAt(groups[1..], i - 1) {
        if i > 0 && PickedAt(groups[1..], i - 1) {
          forall j | 0 <= j < i ensures groups[j].kind.Some? && !Qualifies(groups[j]) {
            if j > 0 {
              assert groups[j] == groups[1..][j - 1];
            }
          }
        }
        if PickedAt(groups, i) {
          assert i != 0;
          forall j | 0 <= j < i - 1 ensures groups[1..][j].kind.Some? && !Qualifies(groups[1..][j]) {
            assert groups[1..][j] == groups[j + 1];
          }
        }
      }
      if PickIn(groups).Some? {
        var i :| PickedAt(groups[1..], i) && groups[1..][i] == PickIn(groups).value;
        assert PickedAt(groups, i + 1);
      }
    }
  }

  /** What one recording contributes: nothing when it has no 'releasegroups'. */
  function Pick(rec: Recording): Option<ReleaseGroup>
  {
    if rec.releaseGroups.None? then None else PickIn(rec.releaseGroups.value)
  }

  /** `album_data` after the outer loop: the outer loop never breaks, so a later
      recording's match replaces an earlier one. */
  function AlbumOf(recs: seq<Recording>): Option<ReleaseGroup>
  {
    if recs == [] then None
    else if Pick(recs[|recs| - 1]).Some? then Pick(recs[|recs| - 1])
    else AlbumOf(recs[..|recs| - 1])
  }

  /** No album is chosen exactly when no recording yields one. */
  lemma {:induction false} AlbumOfNone(recs: seq<Recording>)
    ensures AlbumOf(recs).None? <==> forall k :: 0 <= k < |recs| ==> Pick(recs[k]).None?
  {
    if recs != [] && Pick(recs[|recs| - 1]).None? {
      var init := recs[..|recs| - 1];
      AlbumOfNone(init);
      assert forall k :: 0 <= k < |init| ==> init[k] == recs[k];
    }
  }

  /** A chosen album is the match of some recording after which no recording
      yields one: the last match wins. */
  lemma {:induction false} AlbumOfLastMatch(recs: seq<Recording>)
    ensures AlbumOf(recs).Some? ==> exists k :: (0 <= k < |recs| && Pick(recs[k]) == AlbumOf(recs) &&
      forall k' :: k < k' < |recs| ==> Pick(recs[k']).None?)
  {
    if recs != [] && Pick(recs[|recs| - 1]).None? && AlbumOf(recs).Some? {
      var init := recs[..|recs| - 1];
      AlbumOfLastMatch(init);
      var k :| 0 <= k < |init| && Pick(init[k]) == AlbumOf(init) &&
        forall k' :: k < k' < |init| ==> Pick(init[k']).None?;
      assert forall k' :: 0 <= k' < |init| ==> init[k'] == recs[k'];
      assert Pick(recs[k]) == AlbumOf(recs);
    }
  }

  /** One more recording: its match, if any, replaces the album found so far. */
  lemma AlbumOfStep(recs: seq<Recording>, k: nat)
    requires k < |recs|
    ensures AlbumOf(recs[..k + 1]) == if Pick(recs[k]).Some? then Pick(recs[k]) else AlbumOf(recs[..k])
  {
    assert recs[..k + 1][..k] == recs[..k];
  }

  predicate AllTitled(recs: seq<Recording>)
  {
    forall k :: 0 <= k < |recs| ==> recs[k].title.Some?
  }

  /** `data['results'][0]['recordings']`, when both keys are there and the result
      list is not empty. */
  function FirstRecordings(lookup: Lookup): Option<seq<Recording>>
  {
    if lookup.results.None? || lookup.results.value == [] then None
    else lookup.results.value[0].recordings
  }

  /** The reply carries a non-empty recording list whose first recording names an
      artist with an id and a name, and every recording has a title: everything
      `parseDetails` reads before it looks for an album. */
  predicate Answerable(lookup: Lookup)
  {
    && FirstRecordings(lookup).Some?
    && var recs := FirstRecordings(lookup).value;
    && |recs| > 0
    && recs[0].artists.Some? && |recs[0].artists.value| > 0
    && recs[0].artists.value[0].id.Some? && recs[0].artists.value[0].name.Some?
    && AllTitled(recs)
  }

  /** The whole of the selection, with the error each malformed reply raises. The
      track title is the last recording's; the artist is the first artist of the
      first recording of the first result. */
  function SelectDetails(lookup: Lookup): (r: Result<TrackData, ParseError>)
    ensures r.Success? ==> r.value.art.None?
    ensures r.Success? ==> FirstRecordings(lookup).Some?
    ensures r.Success? ==>
      var recs := FirstRecordings(lookup).value;
      && |recs| > 0
      && recs[|recs| - 1].title == Some(r.value.track)
      && AlbumOf(recs).Some?
      && AlbumOf(recs).value.title == Some(r.value.album)
      && AlbumOf(recs).value.id == Some(r.value.albumId)
      && recs[0].artists.Some? && |recs[0].artists.value| > 0
      && recs[0].artists.value[0] == Credit(Some(r.value.artistId), Some(r.value.artist))
      && AllTitled(recs)
    ensures !Answerable(lookup) ==> r.Failure? && r.error != NoAlbum
    ensures Answerable(lookup) ==>
      var recs := FirstRecordings(lookup).value;
      && (AlbumOf(recs).None? <==> r == Failure(NoAlbum))
      && (AlbumOf(recs).Some? && AlbumOf(recs).value.title.Some? && AlbumOf(recs).value.id.Some? ==> r.Success?)
    ensures r == Failure(NoAlbum) ==> FirstRecordings(lookup).Some?
    ensures r == Failure(NoAlbum) ==>
      var recs := FirstRecordings(lookup).value;
      forall k :: 0 <= k < |recs| ==> Pick(recs[k]).None?
  {
    if lookup.results.None? then Failure(Missing("results"))
    else if lookup.results.value == [] then Failure(Empty("results"))
    else
      var recordings := lookup.results.value[0].recordings;
      if recordings.None? then Failure(Missing("recordings"))
      else
        var recs := recordings.value;
        if recs == [] then Failure(Empty("recordings"))
        else if recs[0].artists.None? then Failure(Missing("artists"))
        else if recs[0].artists.value == [] then Failure(Empty("artists"))
        else
          var artist := recs[0].artists.value[0];
          if artist.id.None? then Failure(Missing("id"))
          else if artist.name.None? then Failure(Missing("name"))
          else if !AllTitled(recs) then Failure(Missing("title"))
          else
            var album := AlbumOf(recs);
            AlbumOfNone(recs);
            if album.None? then Failure(NoAlbum)
            else if album.value.title.None? then Failure(Missing("title"))
            else if album.value.id.None? then Failure(Missing("id"))
            else Success(TrackData(recs[|recs| - 1].title.value, album.value.title.value,
                                   album.value.id.value, artist.name.value, artist.id.value, None))
  }

  /** `"Front" in image["types"] and image["approved"]`. */
  predicate IsFront(img: Image)
  {
    "Front" in img.types && img.approved
  }

  /** `image["thumbnails"]["large"]`, or None when the key is absent. */
  function LargeOf(img: Image): Option<string>
  {
    if "large" in img.thumbnails then Some(img.thumbnails["large"]) else None
  }

  /** Both lists, concatenated, when neither step raised. */
  function Join(a: Option<seq<string>>, b: Option<seq<string>>): Option<seq<string>>
  {
    if a.Some? && b.Some? then Some(a.value + b.value) else None
  }

  /** The cover list `metaData` builds: the large thumbnail of every approved
      front image, in order. A front image without a large thumbnail raises. */
  function FrontCovers(images: seq<Image>): (r: Option<seq<string>>)
    ensures r.Some? ==> |r.value| <= |images|
  {
    if images == [] then Some([])
    else
      var init := FrontCovers(images[..|images| - 1]);
      var img := images[|images| - 1];
      if !IsFront(img) then init
      else if LargeOf(img).None? then None
      else Join(init, Some([LargeOf(img).value]))
  }

  /** Filtering a concatenation filters the parts and concatenates the results:
      the filter keeps order and looks at each image on its own. */
  lemma {:induction false} FrontCoversAppend(a: seq<Image>, b: seq<Image>)
    ensures FrontCovers(a + b) == Join(FrontCovers(a), FrontCovers(b))
    decreases |b|
  {
    if b == [] {
      assert a + b == a;
      if FrontCovers(a).Some? {
        assert FrontCovers(a).value + [] == FrontCovers(a).value;
      }
    } else {
      var b' := b[..|b| - 1];
      FrontCoversAppend(a, b');
      assert (a + b)[..|a + b| - 1] == a + b';
      assert (a + b)[|a + b| - 1] == b[|b| - 1];
      var fa, fb := FrontCovers(a), FrontCovers(b');
      if fa.Some? && fb.Some? {
        var img := b[|b| - 1];
        if IsFront(img) && LargeOf(img).Some? {
          assert fa.value + fb.value + [LargeOf(img).value] == fa.value + (fb.value + [LargeOf(img).value]);
        }
      }
    }
  }

  /** The filter fails exactly when some approved front image lacks a large
      thumbnail; otherwise a URL is kept exactly when it is the large thumbnail of
      an approved front image. */
  lemma {:induction false} FrontCoversMembers(images: seq<Image>)
    ensures FrontCovers(images).None? <==>
      exists i :: 0 <= i < |images| && IsFront(images[i]) && LargeOf(images[i]).None?
    ensures FrontCovers(images).Some? ==> forall u ::
      u in FrontCovers(images).value <==>
      exists i :: 0 <= i < |images| && IsFront(images[i]) && LargeOf(images[i]) == Some(u)
    decreases |images|
  {
    if images != [] {
      var init := images[..|images| - 1];
      var last := |images| - 1;
      FrontCoversMembers(init);
      assert forall i :: 0 <= i < |init| ==> init[i] == images[i];
      if FrontCovers(images).Some? {
        forall u ensures u in FrontCovers(images).value <==>
          exists i :: 0 <= i < |images| && IsFront(images[i]) && LargeOf(images[i]) == Some(u)
        {
          if exists i :: 0 <= i < |images| && IsFront(images[i]) && LargeOf(images[i]) == Some(u) {
            var i :| 0 <= i < |images| && IsFront(images[i]) && LargeOf(images[i]) == Some(u);
            if i < last {
              assert IsFront(init[i]) && LargeOf(init[i]) == Some(u);
            }
          }
        }
      }
    }
  }

  /** The inner loop of `parseDetails`: walk one recording's release groups until an
      album qualifies, or until an entry without a type raises the KeyError that
      ends the scan of that recording. */
  method ScanGroups(groups: seq<ReleaseGroup>) returns (picked: Option<ReleaseGroup>)
    ensures picked == PickIn(groups)
  {
    picked := None;
    var j := 0;
    var stop := false;
    while j < |groups| && !stop
      invariant 0 <= j <= |groups|
      invariant !stop ==> picked == None && PickIn(groups) == PickIn(groups[j..])
      invariant stop ==> picked == PickIn(groups)
      decreases |groups| - j, !stop
    {
      var entry := groups[j];
      assert groups[j..][1..] == groups[j + 1..];
      if entry.kind.None? {
        // KeyError: the enclosing handler moves on to the next recording.
        stop := true;
      } else if entry.kind.value == "Album" && !entry.secondaryTypes {
        match FirstArtistName(entry)
        case None =>
          picked := Some(entry);
          stop := true;
        case Some(filtOn) =>
          if !Contains(filtOn, "Various") {
            picked := Some(entry);
            stop := true;
          } else {
            j := j + 1;
          }
      } else {
        j := j + 1;
      }
    }
    if !stop {
      assert groups[j..] == [];
    }
  }

  /** The outer loop of `parseDetails`: every recording's title in turn (a missing
      one raises), and the album of the last recording with a match. */
  method ScanRecordings(recs: seq<Recording>) returns (r: Option<(string, Option<ReleaseGroup>)>)
    requires |recs| > 0
    ensures r.None? <==> !AllTitled(recs)
    ensures r.Some? ==> recs[|recs| - 1].title == Some(r.value.0) && r.value.1 == AlbumOf(recs)
  {
    var songTitle := "";
    var albumData: Option<ReleaseGroup> := None;
    var k := 0;
    while k < |recs|
      invariant 0 <= k <= |recs|
      invariant AllTitled(recs[..k])
      invariant k > 0 ==> recs[k - 1].title == Some(songTitle)
      invariant albumData == AlbumOf(recs[..k])
    {
      var res := recs[k];
      if res.title.None? {
        assert !AllTitled(recs) by {
          assert recs[k].title.None?;
        }
        return None;
      }
      songTitle := res.title.value;
      var picked: Option<ReleaseGroup> := None;
      if res.releaseGroups.Some? {
        picked := ScanGroups(res.releaseGroups.value);
      }
      AlbumOfStep(recs, k);
      assert AllTitled(recs[..k + 1]) by {
        assert recs[..k + 1][..k] == recs[..k];
      }
      if picked.Some? {
        albumData := picked;
      }
      k := k + 1;
    }
    assert recs[..k] == recs;
    r := Some((songTitle, albumData));
  }

  /** `NukeBoxMeta`: the lookup helper of one upload; `data` is None until a
      lookup has been parsed. */
  class NukeBoxMeta {
    var data: Option<TrackData>

    constructor ()
      ensures data == None
    {
      data := None;
    }

    /** The selection part of `parseDetails(data)`: the artist, then one pass over
        the recordings with an inner scan of each one's release groups, then the
        chosen album's title and id. On success the result is stored in `data`. */
    method ParseDetails(lookup: Lookup) returns (r: Result<TrackData, ParseError>)
      modifies this
      ensures r == SelectDetails(lookup)
      ensures r.Success? ==> data == Some(r.value)
      ensures r.Failure? ==> data == old(data)
    {
      if lookup.results.None? {
        return Failure(Missing("results"));
      }
      if lookup.results.value == [] {
        return Failure(Empty("results"));
      }
      var recordings := lookup.results.value[0].recordings;
      if recordings.None? {
        return Failure(Missing("recordings"));
      }
      var recs := recordings.value;
      if recs == [] {
        return Failure(Empty("recordings"));
      }
      if recs[0].artists.None? {
        return Failure(Missing("artists"));
      }
      if recs[0].artists.value == [] {
        return Failure(Empty("artists"));
      }
      var artistData := recs[0].artists.value[0];
      if artistData.id.None? {
        return Failure(Missing("id"));
      }
      if artistData.name.None? {
        return Failure(Missing("name"));
      }

      var scanned := ScanRecordings(recs);
      if scanned.None? {
        return Failure(Missing("title"));
      }
      var (songTitle, albumData) := scanned.value;
      if albumData.None? {
        return Failure(NoAlbum);
      }
      if albumData.value.title.None? {
        return Failure(Missing("title"));
      }
      if albumData.value.id.None? {
        return Failure(Missing("id"));
      }
      var result := TrackData(songTitle, albumData.value.title.value, albumData.value.id.value,
                              artistData.name.value, artistData.id.value, None);
      data := Some(result);
      r := Success(result);
    }

    /** `metaData(meta)`: filter the cover list, store it under 'art' and return the
        whole record; no other key changes. */
    method MetaData(images: Option<seq<Image>>) returns (r: Result<TrackData, ParseError>)
      requires data.Some?
      modifies this
      ensures images.None? ==> r == Failure(Missing("images"))
      ensures images.Some? && FrontCovers(images.value).None? ==> r == Failure(Missing("large"))
      ensures images.Some? && FrontCovers(images.value).Some? ==>
        r == Success(old(data).value.(art := FrontCovers(images.value)))
      ensures r.Success? ==> data == Some(r.value)
      ensures r.Failure? ==> data == old(data)
    {
      if images.None? {
        return Failure(Missing("images"));
      }
      var imgs := images.value;
      var covers: seq<string> := [];
      var i := 0;
      while i < |imgs|
        invariant 0 <= i <= |imgs|
        invariant FrontCovers(imgs[..i]) == Some(covers)
      {
        var image := imgs[i];
        assert imgs[..i + 1][..i] == imgs[..i];
        assert imgs[..i + 1][i] == image;
        if IsFront(image) {
          if "large" !in image.thumbnails {
            FrontCoversAppend(imgs[..i + 1], imgs[i + 1..]);
            assert imgs[..i + 1] + imgs[i + 1..] == imgs;
            return Failure(Missing("large"));
          }
          covers := covers + [image.thumbnails["large"]];
        }
        i := i + 1;
      }
      assert imgs[..i] == imgs;
      var updated := data.value.(art := Some(covers));
      data := Some(updated);
      r := Success(updated);
    }
  }
}

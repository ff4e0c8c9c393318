/**
  The album extraction of `fetchTopAlbums`: the top tracks are walked in order, a track without
  an album is skipped, and the first track carrying each album id contributes a card for that
  album to a JavaScript `Map` keyed by id, whose values come back in insertion order.
 */
module TopAlbums {
  import opened Wrappers

  datatype Image = Image(url: string)
  datatype Artist = Artist(name: string)

  /** The `album` object of a track of the Web API; an absent `images` or `artists` array is
      the same as an empty one here. */
  datatype Album = Album(id: string, name: string, images: seq<Image>, artists: seq<Artist>,
                         spotifyUrl: string)

  /** A track of `data.items`; `album` is None when the track has none. */
  datatype Track = Track(album: Option<Album>)

  /** The object stored in `albumsMap` for one album. */
  datatype AlbumCard = AlbumCard(id: string, name: string, image: Option<Image>, artist: string,
                                 url: string)

  const UnknownArtist := "Artiste inconnu"

  /** The card of an album: the medium image `images[1]`, else `images[0]`, else null; the
      first artist's name, else 'Artiste inconnu'. */
  function Summarize(a: Album): (c: AlbumCard)
    ensures c.id == a.id && c.name == a.name && c.url == a.spotifyUrl
    ensures c.image.None? <==> a.images == []
    ensures |a.images| >= 2 ==> c.image == Some(a.images[1])
    ensures |a.images| == 1 ==> c.image == Some(a.images[0])
    ensures a.artists != [] ==> c.artist == a.artists[0].name
    ensures a.artists == [] ==> c.artist == UnknownArtist
  {
    AlbumCard(a.id, a.name,
              if |a.images| > 0 then (if |a.images| > 1 then Some(a.images[1]) else Some(a.images[0]))
              else None,
              if |a.artists| > 0 then a.artists[0].name else UnknownArtist,
              a.spotifyUrl)
  }

  /** The ids of the albums the tracks carry. */
  function AlbumIds(ts: seq<Track>): set<string> {
    if ts == [] then {}
    else
      var last := ts[|ts| - 1];
      AlbumIds(ts[..|ts| - 1]) + (if last.album.Some? then {last.album.value.id} else {})
  }

  /** The reference result: walking the tracks in order, a card is appended for a track whose
      album id no earlier track carried. */
  function UniqueAlbums(ts: seq<Track>): seq<AlbumCard> {
    if ts == [] then []
    else
      var prefix := ts[..|ts| - 1];
      var last := ts[|ts| - 1];
      if last.album.Some? && last.album.value.id !in AlbumIds(prefix) then
        UniqueAlbums(prefix) + [Summarize(last.album.value)]
      else UniqueAlbums(prefix)
  }

  /** An id is in AlbumIds exactly when some track carries an album with that id. */
  lemma {:induction false} AlbumIdsMembers(ts: seq<Track>, x: string)
    ensures x in AlbumIds(ts) <==>
            exists i :: 0 <= i < |ts| && ts[i].album.Some? && ts[i].album.value.id == x
  {
    if ts != [] {
      var prefix := ts[..|ts| - 1];
      AlbumIdsMembers(prefix, x);
      if x in AlbumIds(prefix) {
        var i :| 0 <= i < |prefix| && prefix[i].album.Some? && prefix[i].album.value.id == x;
        assert ts[i] == prefix[i];
      }
      if exists i :: 0 <= i < |ts| && ts[i].album.Some? && ts[i].album.value.id == x {
        var i :| 0 <= i < |ts| && ts[i].album.Some? && ts[i].album.value.id == x;
        if i < |prefix| {
          assert prefix[i] == ts[i];
        }
      }
    }
  }

  /** Each album id appears at most once, and exactly the ids the tracks carry appear. */
  lemma {:induction false} UniqueAlbumsIds(ts: seq<Track>)
    ensures var r := UniqueAlbums(ts);
            forall i, j :: 0 <= i < j < |r| ==> r[i].id != r[j].id
    ensures var r := UniqueAlbums(ts);
            forall x :: x in AlbumIds(ts) <==> exists i :: 0 <= i < |r| && r[i].id == x
  {
    if ts != [] {
      var prefix := ts[..|ts| - 1];
      UniqueAlbumsIds(prefix);
      var p := UniqueAlbums(prefix);
      var r := UniqueAlbums(ts);
      var last := ts[|ts| - 1];
      if last.album.Some? && last.album.value.id !in AlbumIds(prefix) {
        assert r == p + [Summarize(last.album.value)];
        assert r[|p|].id == last.album.value.id;
      } else {
        assert r == p;
      }
      forall x ensures x in AlbumIds(ts) <==> exists i :: 0 <= i < |r| && r[i].id == x {
        if x in AlbumIds(prefix) {
          var i :| 0 <= i < |p| && p[i].id == x;
          assert r[i] == p[i];
        }
        if exists i :: 0 <= i < |r| && r[i].id == x {
          var i :| 0 <= i < |r| && r[i].id == x;
          if i < |p| {
            assert p[i] == r[i];
          }
        }
      }
    }
  }

  /** First-occurrence order: the cards of a prefix of the tracks begin the cards of all of
      them, so cards never move once a track has produced them. */
  lemma {:induction false} UniqueAlbumsPrefix(ts: seq<Track>, n: nat)
    requires n <= |ts|
    ensures var p := UniqueAlbums(ts[..n]);
            |p| <= |UniqueAlbums(ts)| && UniqueAlbums(ts)[..|p|] == p
  {
    if n < |ts| {
      var prefix := ts[..|ts| - 1];
      assert prefix[..n] == ts[..n];
      UniqueAlbumsPrefix(prefix, n);
    } else {
      assert ts[..n] == ts;
    }
  }

  /** The track at index `j` whose album id no earlier track carried produces the next card,
      and that card is there in the final result at the position reached so far. */
  lemma FirstTrackMakesCard(ts: seq<Track>, j: nat)
    requires j < |ts| && ts[j].album.Some? && ts[j].album.value.id !in AlbumIds(ts[..j])
    ensures var k := |UniqueAlbums(ts[..j])|;
            k < |UniqueAlbums(ts)| && UniqueAlbums(ts)[k] == Summarize(ts[j].album.value)
  {
    var q := ts[..j + 1];
    assert q[..|q| - 1] == ts[..j];
    UniqueAlbumsPrefix(ts, j + 1);
  }

  /** The `forEach` over `data.items` filling `albumsMap`, then `Array.from(albumsMap.values())`.
      `order` stands for the insertion order a JavaScript Map keeps. */
  method ExtractUniqueAlbums(items: seq<Track>) returns (uniqueAlbums: seq<AlbumCard>)
    ensures uniqueAlbums == UniqueAlbums(items)
    ensures forall i, j :: 0 <= i < j < |uniqueAlbums| ==> uniqueAlbums[i].id != uniqueAlbums[j].id
  {
    var albumsMap: map<string, AlbumCard> := map[];
    var order: seq<string> := [];
    for i := 0 to |items|
      invariant albumsMap.Keys == AlbumIds(items[..i])
      invariant |order| == |UniqueAlbums(items[..i])|
      invariant forall k :: 0 <= k < |order| ==>
                  order[k] in albumsMap && albumsMap[order[k]] == UniqueAlbums(items[..i])[k]
    {
      assert items[..i + 1][..i] == items[..i];
      assert items[..i + 1][i] == items[i];
      var album := items[i].album;
      if album.Some? && album.value.id !in albumsMap {
        albumsMap := albumsMap[album.value.id := Summarize(album.value)];
        order := order + [album.value.id];
      }
    }
    assert items[..|items|] == items;
    uniqueAlbums := seq(|order|, k requires 0 <= k < |order| => albumsMap[order[k]]);
    UniqueAlbumsIds(items);
  }
}

/**
 * Album references and album listing (src/gpp/google_photos.py).
 *
 * ParseAlbumId is parse_album_id. FetchAlbumPhotos is the listing loop of
 * fetch_album_photos: the responses of the mediaItems:search endpoint are an
 * input sequence (pages[k] answers the k-th request), and the album id
 * returned by the sharedAlbums:join call is a parameter.
 */
module GooglePhotos {
  import opened Wrappers

  // ---------------------------------------------------------------------
  // parse_album_id

  /** [A-Za-z0-9_-] */
  predicate IsIdChar(c: char)
  {
    'A' <= c <= 'Z' || 'a' <= c <= 'z' || '0' <= c <= '9' || c == '_' || c == '-'
  }

  /** The greedy ([A-Za-z0-9_-]*) at the start of s: its longest prefix of id characters. */
  function IdRun(s: string): (r: string)
    ensures r <= s
    ensures forall i :: 0 <= i < |r| ==> IsIdChar(r[i])
    ensures |r| == |s| || !IsIdChar(s[|r|])
  {
    if s == [] || !IsIdChar(s[0]) then "" else [s[0]] + IdRun(s[1..])
  }

  const Host: string := "photos.google.com/"

  /** scheme://photos.google.com/kind/ */
  function UrlPrefix(scheme: string, kind: string): string
  {
    scheme + "://" + Host + kind + "/"
  }

  predicate IsScheme(scheme: string)
  {
    scheme == "http" || scheme == "https"
  }

  /** The part of s after http://photos.google.com/<kind>/ or https://photos.google.com/<kind>/, if either starts s. */
  function AfterPrefix(s: string, kind: string): Option<string>
  {
    if UrlPrefix("http", kind) <= s then Some(s[|UrlPrefix("http", kind)|..])
    else if UrlPrefix("https", kind) <= s then Some(s[|UrlPrefix("https", kind)|..])
    else None
  }

  /**
   * The URL pattern of one kind anchored at the start of s: http or https,
   * ://photos.google.com/<kind>/, then a non-empty run of id characters, which
   * is the captured result.
   */
  function MatchUrl(s: string, kind: string): Option<string>
  {
    match AfterPrefix(s, kind)
    case None => None
    case Some(rest) => if IdRun(rest) == "" then None else Some(IdRun(rest))
  }

  /** (album_id, share_token) */
  datatype AlbumRef = AlbumRef(albumId: Option<string>, shareToken: Option<string>)

  /** The ValueError for http input that matches neither URL pattern. */
  datatype ParseError = CannotParse(input: string)

  function ParseAlbumId(s: string): (r: Result<AlbumRef, ParseError>)
    ensures r.Success? ==> (r.value.albumId.Some? <==> r.value.shareToken.None?)
    ensures r.Failure? ==> r.error == CannotParse(s) && "http" <= s
  {
    var share := MatchUrl(s, "share");
    if share.Some? then Success(AlbumRef(None, share))
    else
      var album := MatchUrl(s, "album");
      if album.Some? then Success(AlbumRef(album, None))
      else if !("http" <= s) then Success(AlbumRef(Some(s), None))
      else Failure(CannotParse(s))
  }

  predicate IsId(t: string)
  {
    t != "" && forall i :: 0 <= i < |t| ==> IsIdChar(t[i])
  }

  /** The id run of a run of id characters followed by a non-id character is that run. */
  lemma {:induction false} IdRunOf(t: string, rest: string)
    requires forall i :: 0 <= i < |t| ==> IsIdChar(t[i])
    requires rest == [] || !IsIdChar(rest[0])
    ensures IdRun(t + rest) == t
  {
    if t != [] {
      assert (t + rest)[0] == t[0];
      assert (t + rest)[1..] == t[1..] + rest;
      IdRunOf(t[1..], rest);
      assert [t[0]] + t[1..] == t;
    } else {
      assert t + rest == rest;
    }
  }

  /** Where the two URL prefixes of one kind differ from each other and from another kind. */
  lemma UrlPrefixShape(scheme: string, kind: string)
    requires IsScheme(scheme) && kind != []
    ensures var p := UrlPrefix(scheme, kind);
            |p| == |scheme| + 4 + |Host| + |kind| &&
            p[..4] == "http" &&
            p[4] == (if scheme == "http" then ':' else 's') &&
            p[|scheme| + 3 + |Host|] == kind[0]
  {
    var p := UrlPrefix(scheme, kind);
    assert p == scheme + ("://" + Host) + (kind + "/");
    assert p[|scheme| + 3 + |Host|] == (kind + "/")[0];
  }

  lemma Mismatch(p: string, s: string, k: nat)
    requires k < |p| && k < |s| && p[k] != s[k]
    ensures !(p <= s)
  {
  }

  lemma PrefixRest(p: string, t: string)
    ensures p <= p + t && (p + t)[|p|..] == t
  {
  }

  /** s starts with the prefix of the other scheme in neither kind. */
  lemma OtherScheme(scheme: string, kind: string, t: string)
    requires IsScheme(scheme) && kind != []
    ensures var other := if scheme == "http" then "https" else "http";
            !(UrlPrefix(other, kind) <= UrlPrefix(scheme, kind) + t)
  {
    var other := if scheme == "http" then "https" else "http";
    UrlPrefixShape(scheme, kind);
    UrlPrefixShape(other, kind);
    Mismatch(UrlPrefix(other, kind), UrlPrefix(scheme, kind) + t, 4);
  }

  /** An album URL is not a share URL. */
  lemma AlbumIsNotShare(scheme: string, t: string)
    requires IsScheme(scheme)
    ensures !(UrlPrefix("http", "share") <= UrlPrefix(scheme, "album") + t)
    ensures !(UrlPrefix("https", "share") <= UrlPrefix(scheme, "album") + t)
  {
    var s := UrlPrefix(scheme, "album") + t;
    UrlPrefixShape(scheme, "album");
    UrlPrefixShape(scheme, "share");
    OtherScheme(scheme, "share", []);
    Mismatch(UrlPrefix(scheme, "share"), s, |scheme| + 3 + |Host|);
    if scheme == "http" {
      Mismatch(UrlPrefix("https", "share"), s, 4);
    } else {
      Mismatch(UrlPrefix("http", "share"), s, 4);
    }
  }

  /** The URL prefix of a kind and scheme leaves exactly the part after it. */
  lemma AfterUrlPrefix(scheme: string, kind: string, t: string)
    requires IsScheme(scheme) && kind != []
    ensures AfterPrefix(UrlPrefix(scheme, kind) + t, kind) == Some(t)
  {
    PrefixRest(UrlPrefix(scheme, kind), t);
    OtherScheme(scheme, kind, t);
  }

  /** A share URL whose token is followed by anything but an id character yields (None, token). */
  lemma ShareUrl(scheme: string, token: string, rest: string)
    requires IsScheme(scheme) && IsId(token)
    requires rest == [] || !IsIdChar(rest[0])
    ensures ParseAlbumId(UrlPrefix(scheme, "share") + token + rest) == Success(AlbumRef(None, Some(token)))
  {
    assert UrlPrefix(scheme, "share") + token + rest == UrlPrefix(scheme, "share") + (token + rest);
    AfterUrlPrefix(scheme, "share", token + rest);
    IdRunOf(token, rest);
  }

  /** An album URL whose id is followed by anything but an id character yields (id, None). */
  lemma AlbumUrl(scheme: string, id: string, rest: string)
    requires IsScheme(scheme) && IsId(id)
    requires rest == [] || !IsIdChar(rest[0])
    ensures ParseAlbumId(UrlPrefix(scheme, "album") + id + rest) == Success(AlbumRef(Some(id), None))
  {
    var s := UrlPrefix(scheme, "album") + id + rest;
    assert s == UrlPrefix(scheme, "album") + (id + rest);
    AlbumIsNotShare(scheme, id + rest);
    assert AfterPrefix(s, "share") == None;
    AfterUrlPrefix(scheme, "album", id + rest);
    IdRunOf(id, rest);
  }

  /** Both URL forms start with "http". */
  lemma UrlStartsWithHttp(s: string, scheme: string, kind: string)
    requires IsScheme(scheme) && kind != []
    ensures UrlPrefix(scheme, kind) <= s ==> "http" <= s
  {
    UrlPrefixShape(scheme, kind);
    if UrlPrefix(scheme, kind) <= s {
      assert s[..4] == UrlPrefix(scheme, kind)[..4];
    }
  }

  /** Anything not starting with "http" is taken as a raw album id, unchanged. */
  lemma RawId(s: string)
    requires !("http" <= s)
    ensures ParseAlbumId(s) == Success(AlbumRef(Some(s), None))
  {
    UrlStartsWithHttp(s, "http", "share");
    UrlStartsWithHttp(s, "https", "share");
    UrlStartsWithHttp(s, "http", "album");
    UrlStartsWithHttp(s, "https", "album");
  }

  /**
   * Exactly the strings that start with "http" and match neither URL form are
   * rejected; on success a component taken from a URL is a non-empty run of id
   * characters, and a raw id is the input itself.
   */
  lemma ParseOutcomes(s: string)
    ensures var r := ParseAlbumId(s);
            (r.Failure? <==> "http" <= s && MatchUrl(s, "share").None? && MatchUrl(s, "album").None?) &&
            (r.Success? && r.value.shareToken.Some? ==> IsId(r.value.shareToken.value)) &&
            (r.Success? && r.value.albumId.Some? ==>
               if "http" <= s then IsId(r.value.albumId.value) else r.value.albumId.value == s)
  {
    if !("http" <= s) {
      RawId(s);
    } else {
      MatchIsId(s, "share");
      MatchIsId(s, "album");
    }
  }

  lemma MatchIsId(s: string, kind: string)
    ensures MatchUrl(s, kind).Some? ==> IsId(MatchUrl(s, kind).value)
  {
  }

  lemma ShareExample()
    ensures ParseAlbumId("https://photos.google.com/share/AF1Qip?key=x") == Success(AlbumRef(None, Some("AF1Qip")))
  {
    ShareUrl("https", "AF1Qip", "?key=x");
    ShareLiteral();
  }

  lemma ShareLiteral()
    ensures UrlPrefix("https", "share") + "AF1Qip" + "?key=x" == "https://photos.google.com/share/AF1Qip?key=x"
  {
    HttpsShareLiteral();
  }

  lemma HttpsShareLiteral()
    ensures UrlPrefix("https", "share") == "https://photos.google.com/share/"
  {
  }

  lemma AlbumExample()
    ensures ParseAlbumId("http://photos.google.com/album/AbC_1-z") == Success(AlbumRef(Some("AbC_1-z"), None))
  {
    AlbumUrl("http", "AbC_1-z", "");
    AlbumLiteral();
  }

  lemma AlbumLiteral()
    ensures UrlPrefix("http", "album") + "AbC_1-z" + "" == "http://photos.google.com/album/AbC_1-z"
  {
    assert UrlPrefix("http", "album") == "http://photos.google.com/album/";
  }

  lemma RawExample()
    ensures ParseAlbumId("AF1QipRawId") == Success(AlbumRef(Some("AF1QipRawId"), None))
  {
    Mismatch("http", "AF1QipRawId", 0);
    RawId("AF1QipRawId");
  }

  /** A share URL with an empty token matches neither form and is rejected. */
  lemma EmptyTokenExample()
    ensures ParseAlbumId("https://photos.google.com/share/").Failure?
  {
    var e := "https://photos.google.com/share/";
    HttpsShareLiteral();
    assert e == UrlPrefix("https", "share") + [];
    AfterUrlPrefix("https", "share", []);
    AlbumIsNotShare("https", []);
    UrlPrefixShape("http", "album");
    UrlPrefixShape("https", "album");
    Mismatch(UrlPrefix("http", "album"), e, 4);
    Mismatch(UrlPrefix("https", "album"), e, 26);
    assert "http" <= e;
  }

  /** A URL on another host is rejected. */
  lemma ForeignHostExample()
    ensures ParseAlbumId("https://example.com/album/x").Failure?
  {
    var x := "https://example.com/album/x";
    UrlPrefixShape("http", "share");
    UrlPrefixShape("https", "share");
    UrlPrefixShape("http", "album");
    UrlPrefixShape("https", "album");
    Mismatch(UrlPrefix("http", "share"), x, 4);
    Mismatch(UrlPrefix("https", "share"), x, 26);
    Mismatch(UrlPrefix("http", "album"), x, 4);
    Mismatch(UrlPrefix("https", "album"), x, 26);
    assert "http" <= x;
  }

  // ---------------------------------------------------------------------
  // fetch_album_photos

  /** An item's mediaMetadata: whether it has a "photo" entry, and its width and height if given. */
  datatype Metadata = Metadata(photo: bool, width: Option<int>, height: Option<int>)

  datatype MediaItem = MediaItem(id: string, baseUrl: string, metadata: Option<Metadata>, filename: Option<string>)

  /** One mediaItems:search response; a missing "mediaItems" is the empty sequence. */
  datatype Page = Page(mediaItems: seq<MediaItem>, nextPageToken: Option<string>)

  datatype Photo = Photo(id: string, baseUrl: string, width: int, height: int, filename: string)

  /** The body of one mediaItems:search request. */
  datatype SearchRequest = SearchRequest(albumId: string, pageSize: nat, pageToken: Option<string>)

  datatype Listing = Listing(albumId: string, requests: seq<SearchRequest>, photos: seq<Photo>)

  const PageSize: nat := 100
  const DefaultFilename: string := "unknown.jpg"

  /** An item is a photo when its mediaMetadata is present and has a photo entry. */
  predicate IsPhoto(item: MediaItem)
  {
    item.metadata.Some? && item.metadata.value.photo
  }

  function GetOr<T>(o: Option<T>, default: T): T
  {
    if o.Some? then o.value else default
  }

  /** The record kept for a photo item, with the defaults of meta.get and item.get. */
  function ToPhoto(item: MediaItem): Photo
    requires IsPhoto(item)
  {
    var meta := item.metadata.value;
    Photo(item.id, item.baseUrl, GetOr(meta.width, 0), GetOr(meta.height, 0), GetOr(item.filename, DefaultFilename))
  }

  /** The photos of one page, in order; other items are skipped. */
  function Photos(items: seq<MediaItem>): (r: seq<Photo>)
    ensures |r| <= |items|
  {
    if items == [] then []
    else
      var last := items[|items| - 1];
      Photos(items[..|items| - 1]) + (if IsPhoto(last) then [ToPhoto(last)] else [])
  }

  /** The photos of several pages, page after page. */
  function PagePhotos(pages: seq<Page>): seq<Photo>
  {
    if pages == [] then [] else PagePhotos(pages[..|pages| - 1]) + Photos(pages[|pages| - 1].mediaItems)
  }

  /** Pagination continues only on a present, non-empty nextPageToken. */
  predicate HasNext(page: Page)
  {
    page.nextPageToken.Some? && page.nextPageToken.value != ""
  }

  /** The responses end: some page carries no nextPageToken. */
  predicate Ends(pages: seq<Page>)
  {
    exists k :: 0 <= k < |pages| && !HasNext(pages[k])
  }

  /** The index of the first page without a nextPageToken. */
  function LastPage(pages: seq<Page>): (k: nat)
    requires Ends(pages)
    ensures k < |pages| && !HasNext(pages[k])
    ensures forall j :: 0 <= j < k ==> HasNext(pages[j])
  {
    if !HasNext(pages[0]) then 0
    else
      assert Ends(pages[1..]) by {
        var k :| 0 <= k < |pages| && !HasNext(pages[k]);
        assert k > 0 && pages[1..][k - 1] == pages[k];
      }
      1 + LastPage(pages[1..])
  }

  /** The inner loop of fetch_album_photos: the photo items of one page, converted, in order. */
  method KeepPhotos(items: seq<MediaItem>) returns (kept: seq<Photo>)
    ensures kept == Photos(items)
  {
    kept := [];
    var i := 0;
    while i < |items|
      invariant 0 <= i <= |items|
      invariant kept == Photos(items[..i])
    {
      var item := items[i];
      assert items[..i + 1][..i] == items[..i];
      if !IsPhoto(item) {
        i := i + 1;
        continue;
      }
      var meta := item.metadata.value;
      kept := kept + [Photo(item.id, item.baseUrl, GetOr(meta.width, 0), GetOr(meta.height, 0),
                            GetOr(item.filename, DefaultFilename))];
      i := i + 1;
    }
    assert items[..i] == items;
  }

  /** The album searched: the joined album for a share token, else the parsed id. */
  function SearchedAlbum(ref: AlbumRef, joinedAlbumId: string): string
    requires ref.albumId.Some? || ref.shareToken.Some?
  {
    if ref.shareToken.Some? then joinedAlbumId else ref.albumId.value
  }

  /**
   * The first n search requests: the first without a page token, each later one
   * carrying the nextPageToken of the response before it.
   */
  function Requests(albumId: string, pages: seq<Page>, n: nat): (rs: seq<SearchRequest>)
    requires n <= |pages| + 1
    ensures |rs| == n
    ensures n > 0 ==> rs[0] == SearchRequest(albumId, PageSize, None)
    ensures forall j :: 1 <= j < n ==> rs[j] == SearchRequest(albumId, PageSize, pages[j - 1].nextPageToken)
  {
    seq(n, j requires 0 <= j < n => SearchRequest(albumId, PageSize, if j == 0 then None else pages[j - 1].nextPageToken))
  }

  lemma RequestsStep(albumId: string, pages: seq<Page>, k: nat)
    requires k < |pages|
    ensures Requests(albumId, pages, k + 1) ==
            Requests(albumId, pages, k) + [SearchRequest(albumId, PageSize, if k == 0 then None else pages[k - 1].nextPageToken)]
  {
  }

  lemma PagePhotosStep(pages: seq<Page>, k: nat)
    requires k < |pages|
    ensures PagePhotos(pages[..k + 1]) == PagePhotos(pages[..k]) + Photos(pages[k].mediaItems)
  {
    assert pages[..k + 1][..k] == pages[..k];
  }

  /**
   * fetch_album_photos: parse the reference and join a shared album, then
   * list the album.
   */
  method FetchAlbumPhotos(albumUrlOrId: string, joinedAlbumId: string, pages: seq<Page>)
    returns (r: Result<Listing, ParseError>)
    requires Ends(pages)
    ensures r.Failure? <==> ParseAlbumId(albumUrlOrId).Failure?
    ensures r.Failure? ==> r.error == CannotParse(albumUrlOrId)
    ensures r.Success? ==>
              var albumId := SearchedAlbum(ParseAlbumId(albumUrlOrId).value, joinedAlbumId);
              r.value == Listing(albumId, Requests(albumId, pages, LastPage(pages) + 1),
                                 PagePhotos(pages[..LastPage(pages) + 1]))
  {
    var parsed := ParseAlbumId(albumUrlOrId);
    if parsed.Failure? {
      return Failure(parsed.error);
    }
    var albumId: string;
    if parsed.value.shareToken.Some? {
      albumId := joinedAlbumId;
    } else {
      albumId := parsed.value.albumId.value;
    }
    var requests, photos := ListAlbum(albumId, pages);
    return Success(Listing(albumId, requests, photos));
  }

  /**
   * The while loop of fetch_album_photos: request page after page, keeping
   * the photo items of each, until a response has no nextPageToken. Pages
   * after that one are never requested.
   */
  method ListAlbum(albumId: string, pages: seq<Page>) returns (requests: seq<SearchRequest>, photos: seq<Photo>)
    requires Ends(pages)
    ensures requests == Requests(albumId, pages, LastPage(pages) + 1)
    ensures photos == PagePhotos(pages[..LastPage(pages) + 1])
  {
    photos := [];
    requests := [];
    var pageToken: Option<string> := None;
    var k := 0;
    ghost var last := LastPage(pages);

    while true
      invariant 0 <= k <= last
      invariant k == 0 ==> pageToken == None
      invariant k > 0 ==> pageToken == pages[k - 1].nextPageToken && HasNext(pages[k - 1])
      invariant requests == Requests(albumId, pages, k)
      invariant photos == PagePhotos(pages[..k])
      decreases last - k
    {
      var body := SearchRequest(albumId, PageSize, None);
      if pageToken.Some? && pageToken.value != "" {
        body := body.(pageToken := pageToken);
      }
      RequestsStep(albumId, pages, k);
      requests := requests + [body];
      var data := pages[k];

      var kept := KeepPhotos(data.mediaItems);
      photos := photos + kept;
      PagePhotosStep(pages, k);

      pageToken := data.nextPageToken;
      if !(pageToken.Some? && pageToken.value != "") {
        break;
      }
      k := k + 1;
    }
    assert k == last;
  }

  // ---------------------------------------------------------------------
  // Properties of the item filter

  /** Filtering distributes over concatenation: photos keep their order across pages. */
  lemma {:induction false} PhotosAppend(a: seq<MediaItem>, b: seq<MediaItem>)
    ensures Photos(a + b) == Photos(a) + Photos(b)
  {
    if b != [] {
      var ab := a + b;
      assert ab[..|ab| - 1] == a + b[..|b| - 1];
      assert ab[|ab| - 1] == b[|b| - 1];
      PhotosAppend(a, b[..|b| - 1]);
    } else {
      assert a + b == a;
    }
  }

  /** Every kept record comes from a photo item of the page. */
  lemma {:induction false} PhotosSound(items: seq<MediaItem>, p: Photo)
    requires p in Photos(items)
    ensures exists i :: 0 <= i < |items| && IsPhoto(items[i]) && p == ToPhoto(items[i])
  {
    var init := items[..|items| - 1];
    var last := items[|items| - 1];
    if p in Photos(init) {
      PhotosSound(init, p);
      var i :| 0 <= i < |init| && IsPhoto(init[i]) && p == ToPhoto(init[i]);
      assert items[i] == init[i];
    } else {
      assert IsPhoto(last) && p == ToPhoto(last);
    }
  }

  /** Every photo item of the page is kept. */
  lemma {:induction false} PhotosComplete(items: seq<MediaItem>, i: nat)
    requires i < |items| && IsPhoto(items[i])
    ensures ToPhoto(items[i]) in Photos(items)
  {
    var init := items[..|items| - 1];
    if i < |items| - 1 {
      assert init[i] == items[i];
      PhotosComplete(init, i);
    }
  }

  /** A page with no photo item contributes nothing. */
  lemma {:induction false} NoPhotos(items: seq<MediaItem>)
    requires forall i :: 0 <= i < |items| ==> !IsPhoto(items[i])
    ensures Photos(items) == []
  {
    if items != [] {
      NoPhotos(items[..|items| - 1]);
    }
  }

  /** Missing width and height become 0, a missing filename "unknown.jpg". */
  lemma ToPhotoDefaults(item: MediaItem)
    requires IsPhoto(item)
    ensures var p := ToPhoto(item);
            var meta := item.metadata.value;
            p.id == item.id && p.baseUrl == item.baseUrl &&
            (meta.width.None? ==> p.width == 0) && (meta.width.Some? ==> p.width == meta.width.value) &&
            (meta.height.None? ==> p.height == 0) && (meta.height.Some? ==> p.height == meta.height.value) &&
            (item.filename.None? ==> p.filename == "unknown.jpg") &&
            (item.filename.Some? ==> p.filename == item.filename.value)
  {
  }

  /** The listing of several pages is the listings of the pages one after another. */
  lemma {:induction false} PagePhotosAppend(a: seq<Page>, b: seq<Page>)
    ensures PagePhotos(a + b) == PagePhotos(a) + PagePhotos(b)
  {
    if b != [] {
      var ab := a + b;
      assert ab[..|ab| - 1] == a + b[..|b| - 1];
      assert ab[|ab| - 1] == b[|b| - 1];
      PagePhotosAppend(a, b[..|b| - 1]);
    } else {
      assert a + b == a;
    }
  }
}

/** kd.py's photo helpers: `get_all_photos` and `get_last_photos`. The
    remote album lists photos newest first; `get_last_photos(n)` takes the
    first `n` entries and reverses them into chronological order.

    As written, `get_all_photos` only returns on a 200 reply with hits and
    otherwise falls off its end, returning None, which `get_last_photos`
    then slices (a TypeError). `AllPhotosAsWritten`/`LastPhotosAsWritten`
    keep that behaviour; `AllPhotos`/`LastPhotos` are the corrected
    definitions, where no photos means an empty list, and the rest of the
    model uses those. */
module Photos {
  import opened Wrappers
  import opened Faults

  datatype Photo = Photo(url: string)

  /** The reply to `album/photo/all`; `totalHits` and `photos` are only read on status 200. */
  datatype PhotoListResponse = PhotoListResponse(status: int, totalHits: int, photos: seq<Photo>)

  function Min(a: int, b: int): int {
    if a < b then a else b
  }

  /** Python's `s[0:n]`: a negative `n` counts back from the end. */
  function PrefixSlice<T>(s: seq<T>, n: int): (r: seq<T>)
    ensures n >= 0 ==> |r| == Min(n, |s|)
    ensures n < 0 ==> |r| == (if |s| + n > 0 then |s| + n else 0)
    ensures r <= s
  {
    var k := if n >= 0 then Min(n, |s|) else if |s| + n > 0 then |s| + n else 0;
    s[..k]
  }

  /** Python's `s[::-1]`. */
  function Reverse<T>(s: seq<T>): (r: seq<T>)
    ensures |r| == |s|
    ensures forall i :: 0 <= i < |s| ==> r[i] == s[|s| - 1 - i]
  {
    if |s| == 0 then [] else Reverse(s[1..]) + [s[0]]
  }

  lemma ReverseReverse<T>(s: seq<T>)
    ensures Reverse(Reverse(s)) == s
  {
  }

  /** `[photo['url'] for photo in photos]`. */
  function Urls(photos: seq<Photo>): (r: seq<string>)
    ensures |r| == |photos|
    ensures forall i :: 0 <= i < |r| ==> r[i] == photos[i].url
  {
    seq(|photos|, i requires 0 <= i < |photos| => photos[i].url)
  }

  /** Whether the reply carries a photo list the script reads. */
  predicate HasPhotos(resp: PhotoListResponse) {
    resp.status == 200 && resp.totalHits > 0
  }

  // As written

  /** `get_all_photos` as written: None unless the reply is 200 with hits. */
  function AllPhotosAsWritten(resp: PhotoListResponse): (r: Option<seq<Photo>>)
    ensures r.Some? <==> HasPhotos(resp)
    ensures r.Some? ==> r.value == resp.photos
  {
    if HasPhotos(resp) then Some(resp.photos) else None
  }

  /** `get_last_photos` as written: slicing None raises TypeError. */
  function LastPhotosAsWritten(resp: PhotoListResponse, n: int): (r: Result<seq<string>, Fault>)
    ensures r.Failure? <==> !HasPhotos(resp)
    ensures r.Failure? ==> r.error == NoneNotSliceable
  {
    match AllPhotosAsWritten(resp)
    case None => Failure(NoneNotSliceable)
    case Some(all) => Success(Reverse(Urls(PrefixSlice(all, n))))
  }

  /** An account without photos: asking for the last 0 photos, which the
      `draft --create` command always does by default, raises. */
  lemma NoPhotosRaises()
    ensures LastPhotosAsWritten(PhotoListResponse(200, 0, []), 0) == Failure(NoneNotSliceable)
  {
  }

  // Corrected

  /** `get_all_photos` with no photos read as an empty list. */
  function AllPhotos(resp: PhotoListResponse): (r: seq<Photo>)
    ensures HasPhotos(resp) ==> r == resp.photos
    ensures !HasPhotos(resp) ==> r == []
  {
    if HasPhotos(resp) then resp.photos else []
  }

  /** `get_last_photos(n)`: the URLs of the first `n` listed photos, in
      reverse list order, i.e. oldest first. */
  function LastPhotos(resp: PhotoListResponse, n: int): (r: seq<string>)
    ensures n >= 0 ==> |r| == Min(n, |AllPhotos(resp)|)
    ensures |r| <= |AllPhotos(resp)|
    ensures forall i :: 0 <= i < |r| ==> r[i] == AllPhotos(resp)[|r| - 1 - i].url
  {
    Reverse(Urls(PrefixSlice(AllPhotos(resp), n)))
  }

  /** The corrected definition changes nothing where the original returns. */
  lemma LastPhotosAgrees(resp: PhotoListResponse, n: int)
    ensures LastPhotosAsWritten(resp, n).Success? ==> LastPhotosAsWritten(resp, n).value == LastPhotos(resp, n)
    ensures !HasPhotos(resp) ==> LastPhotos(resp, n) == []
  {
  }

  /** Reversing the result gives back the listed order: the `k` newest photos, newest first. */
  lemma LastPhotosNewestFirst(resp: PhotoListResponse, n: int)
    requires n >= 0
    ensures Reverse(LastPhotos(resp, n)) == Urls(AllPhotos(resp)[..Min(n, |AllPhotos(resp)|)])
  {
    var k := Min(n, |AllPhotos(resp)|);
    var r := LastPhotos(resp, n);
    var u := Urls(AllPhotos(resp)[..k]);
    assert |Reverse(r)| == |u|;
    forall i | 0 <= i < |u|
      ensures Reverse(r)[i] == u[i]
    {
      assert Reverse(r)[i] == r[k - 1 - i];
    }
  }
}

/**
 * The choice of the picture to show on the image detail page.  An image
 * record may carry its address under `url`, `fileUrl` or `path`; the page
 * shows the first of them, in that order, that is a string starting with
 * "http", and no picture when none is.
 */
module ImageDetailPage {
  import opened Wrappers

  /**
   * The candidate fields of an image record: `Some(text)` when the field is
   * a string, `None` when it is missing or of another type.
   */
  datatype Image = Image(url: Option<string>, fileUrl: Option<string>, path: Option<string>)

  const HttpPrefix := "http"

  /** `typeof field === 'string' && field.startsWith('http')`. */
  predicate IsHttp(field: Option<string>) {
    field.Some? && |field.value| >= |HttpPrefix| && field.value[..|HttpPrefix|] == HttpPrefix
  }

  /** The address to show, or `None` (shown as no picture). */
  function ImageUrl(image: Image): (r: Option<string>)
    ensures r.Some? ==> |r.value| >= 4 && r.value[..4] == "http"
    ensures r.Some? ==> Some(r.value) in {image.url, image.fileUrl, image.path}
    ensures r.None? <==> !IsHttp(image.url) && !IsHttp(image.fileUrl) && !IsHttp(image.path)
    ensures IsHttp(image.url) ==> r == image.url
    ensures !IsHttp(image.url) && IsHttp(image.fileUrl) ==> r == image.fileUrl
  {
    if IsHttp(image.url) then image.url
    else if IsHttp(image.fileUrl) then image.fileUrl
    else if IsHttp(image.path) then image.path
    else None
  }

  /** The first candidate in the list that qualifies. */
  function FirstHttp(candidates: seq<Option<string>>): (r: Option<string>)
    ensures r.Some? ==> IsHttp(r) && (exists j :: 0 <= j < |candidates| && candidates[j] == r &&
                                        forall i :: 0 <= i < j ==> !IsHttp(candidates[i]))
    ensures r.None? <==> forall k :: 0 <= k < |candidates| ==> !IsHttp(candidates[k])
  {
    if candidates == [] then None
    else if IsHttp(candidates[0]) then candidates[0]
    else
      var r := FirstHttp(candidates[1..]);
      assert r.Some? ==> (exists j :: 0 <= j < |candidates| && candidates[j] == r &&
                            forall i :: 0 <= i < j ==> !IsHttp(candidates[i])) by {
        if r.Some? {
          var j :| 0 <= j < |candidates[1..]| && candidates[1..][j] == r &&
            forall i :: 0 <= i < j ==> !IsHttp(candidates[1..][i]);
          assert candidates[j + 1] == r;
          forall i | 0 <= i < j + 1
            ensures !IsHttp(candidates[i])
          {
            if i > 0 {
              assert candidates[i] == candidates[1..][i - 1];
            }
          }
        }
      }
      r
  }

  /** The page's choice is the first qualifying field in the order url, fileUrl, path. */
  lemma ImageUrlIsFirstHttp(image: Image)
    ensures ImageUrl(image) == FirstHttp([image.url, image.fileUrl, image.path])
  {
    var c := [image.url, image.fileUrl, image.path];
    assert c[1..] == [image.fileUrl, image.path];
    assert c[1..][1..] == [image.path];
    assert c[1..][1..][1..] == [];
    assert FirstHttp(c[1..][1..]) == if IsHttp(image.path) then image.path else None;
    assert FirstHttp(c[1..]) == if IsHttp(image.fileUrl) then image.fileUrl else FirstHttp(c[1..][1..]);
  }
}

/** Image path normalisation (frontend/src/utils/imageHelper.js). */
module ImageHelper {
  import opened Common
  import opened Text

  const BASE_URL: string := "http://localhost:5000"

  /** Already a full URL (an external address or a browser object URL). */
  predicate IsFullUrl(s: string) { StartsWith(s, "http") || StartsWith(s, "blob") }

  /** `path` is None for `undefined`/`null`; both it and `''` are falsy. */
  function GetImageUrl(path: Option<string>): (url: string)
    ensures path.None? || path.value == "" ==> url == ""
    ensures path.Some? && IsFullUrl(path.value) ==> url == path.value
    ensures path.Some? && !IsFullUrl(path.value) && StartsWith(path.value, "/uploads") ==> url == BASE_URL + path.value
    ensures path.Some? && !IsFullUrl(path.value) && !StartsWith(path.value, "/uploads") ==> url == path.value
  {
    if path.None? || path.value == "" then ""
    else if IsFullUrl(path.value) then path.value
    else if StartsWith(path.value, "/uploads") then BASE_URL + path.value
    else path.value
  }

  lemma StartsWithConcat(a: string, b: string, prefix: string)
    requires StartsWith(a, prefix)
    ensures StartsWith(a + b, prefix)
  {
    assert (a + b)[..|prefix|] == a[..|prefix|];
  }

  /** Normalising an already normalised URL changes nothing. */
  lemma GetImageUrlIdempotent(path: Option<string>)
    ensures GetImageUrl(Some(GetImageUrl(path))) == GetImageUrl(path)
  {
    var url := GetImageUrl(path);
    if path.Some? && url == BASE_URL + path.value {
      assert StartsWith(BASE_URL, "http");
      StartsWithConcat(BASE_URL, path.value, "http");
    }
  }

  /** A non-empty result always ends with the path it was given. */
  lemma GetImageUrlEndsWithPath(path: Option<string>)
    requires GetImageUrl(path) != ""
    ensures path.Some? && |path.value| <= |GetImageUrl(path)|
    ensures var url := GetImageUrl(path); url[|url| - |path.value|..] == path.value
  {
    var url := GetImageUrl(path);
    if url == BASE_URL + path.value {
      assert url[|BASE_URL|..] == path.value;
    }
  }
}

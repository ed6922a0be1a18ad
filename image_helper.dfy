/** Image URL resolution. `base` is `API_BASE_URL`: `REACT_APP_API_URL` from the build
    environment, or `http://localhost:5000` when that is unset. */
module ImageHelper {
  import opened Wrappers
  import opened Text

  const DefaultApiBase := "http://localhost:5000"
  const Placeholder := "assets/img/placeholder.jpg"
  const AssetDir := "assets/img/"

  /** `API_BASE_URL`: the configured value when it is truthy, else the local default. */
  function ApiBase(configured: string): (b: string)
    ensures configured != "" ==> b == configured
    ensures configured == "" ==> b == DefaultApiBase
  {
    if configured != "" then configured else DefaultApiBase
  }

  predicate EndsWith(s: string, suffix: string) {
    |suffix| <= |s| && s[|s| - |suffix|..] == suffix
  }

  /** `getImageUrl(path)`: the placeholder for a missing path, the backend URL for an uploaded
      `/...` path, an `http...` URL as it is, and a file under `assets/img/` otherwise. */
  function GetImageUrl(base: string, path: string): (url: string)
    ensures path == "" ==> url == Placeholder
    ensures path != "" && StartsWith(path, "/") ==> url == base + path
    ensures path != "" && !StartsWith(path, "/") && StartsWith(path, "http") ==> url == path
    ensures path != "" && !StartsWith(path, "/") && !StartsWith(path, "http") ==> url == AssetDir + path
  {
    if path == "" then Placeholder
    else if StartsWith(path, "/") then base + path
    else if StartsWith(path, "http") then path
    else AssetDir + path
  }

  lemma EndsWithConcat(u: string, s: string)
    ensures EndsWith(u + s, s)
  {
    assert (u + s)[|u + s| - |s|..] == s;
  }

  /** Every non-empty path survives as the tail of its URL, and no URL is empty. */
  lemma ImageUrlKeepsPath(base: string, path: string)
    ensures GetImageUrl(base, path) != ""
    ensures path != "" ==> EndsWith(GetImageUrl(base, path), path)
  {
    if path != "" {
      if StartsWith(path, "/") {
        EndsWithConcat(base, path);
      } else if StartsWith(path, "http") {
        EndsWithConcat("", path);
        assert "" + path == path;
      } else {
        EndsWithConcat(AssetDir, path);
      }
    }
  }

  /** With an `http...` base, a URL built from an uploaded or absolute path resolves to itself:
      passing a resolved URL through `getImageUrl` again changes nothing. */
  lemma ImageUrlFixpoint(base: string, path: string)
    requires StartsWith(base, "http")
    requires StartsWith(path, "/") || StartsWith(path, "http")
    ensures GetImageUrl(base, GetImageUrl(base, path)) == GetImageUrl(base, path)
  {
    var url := GetImageUrl(base, path);
    if StartsWith(path, "/") {
      assert url[..4] == base[..4];
      assert url[0] == 'h';
    } else {
      assert url[0] == 'h';
    }
  }

  /** `getBackendImageUrl(filename)`: `null` for a missing name, `base + name` for a `/...` path,
      `base + "/uploads/" + name` otherwise. */
  function GetBackendImageUrl(base: string, filename: string): (url: Option<string>)
    ensures url.None? <==> filename == ""
    ensures url.Some? && StartsWith(filename, "/") ==> url.value == base + filename
    ensures url.Some? && !StartsWith(filename, "/") ==> url.value == base + "/uploads/" + filename
  {
    if filename == "" then None
    else if StartsWith(filename, "/") then Some(base + filename)
    else Some(base + "/uploads/" + filename)
  }

  /** Both shapes of a backend URL start with the base and end with the file name, and both
      put a `/` right after the base. */
  lemma BackendUrlShape(base: string, filename: string)
    requires filename != ""
    ensures var url := GetBackendImageUrl(base, filename).value;
      StartsWith(url, base) && EndsWith(url, filename) && url[|base|] == '/'
  {
    var url := GetBackendImageUrl(base, filename).value;
    if StartsWith(filename, "/") {
      EndsWithConcat(base, filename);
      assert url[..|base|] == base;
    } else {
      EndsWithConcat(base + "/uploads/", filename);
      assert url[..|base|] == base;
    }
  }
}

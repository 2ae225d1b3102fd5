/**
 * The image-path normalisation that many widgets repeat as a local
 * `normalizeImagePath`: a blank path falls back to a default, an absolute
 * `http://` or `https://` URL is kept (trimmed), and any other path is
 * trimmed and given a leading "/" so that it resolves from the site root.
 * The home banner's variant drops external URLs instead of keeping them.
 */
module ImagePath {
  import opened Wrappers
  import opened JsStrings

  /** A trimmed path that names an absolute web URL. */
  predicate IsExternal(t: string) {
    StartsWith(t, "http://") || StartsWith(t, "https://")
  }

  /** Missing, empty or whitespace-only: what `!path || path.trim() === ''` rejects. */
  predicate IsBlank(path: Option<string>) {
    path.None? || AllSpace(path.value)
  }

  /** The shape of every path the normaliser produces from a non-blank input. */
  predicate IsNormalImagePath(s: string) {
    s != [] && IsTrimmed(s) && (IsExternal(s) || StartsWith(s, "/"))
  }

  /** A path given a leading "/" unless it already has one. */
  function Rooted(t: string): (r: string)
    ensures StartsWith(r, "/")
    ensures r == t || r == "/" + t
    ensures StartsWith(t, "/") ==> r == t
    ensures !StartsWith(t, "/") ==> r == "/" + t
    ensures t != [] && IsTrimmed(t) ==> r != [] && IsTrimmed(r)
  {
    if StartsWith(t, "/") then t
    else
      assert ("/" + t)[..1] == "/";
      "/" + t
  }

  /**
   * `normalizeImagePath(path, fallback)` as written in the blog list, blog
   * banner, project card, contact page and about section widgets.
   */
  function NormalizeImagePath(path: Option<string>, fallback: string): (r: string)
    ensures IsBlank(path) ==> r == fallback
    ensures !IsBlank(path) ==> IsNormalImagePath(r)
    ensures !IsBlank(path) ==> r == Trim(path.value) || r == "/" + Trim(path.value)
    ensures !IsBlank(path) && IsExternal(Trim(path.value)) ==> r == Trim(path.value)
    ensures !IsBlank(path) && !IsExternal(Trim(path.value)) ==> r == Rooted(Trim(path.value))
  {
    if IsBlank(path) then fallback
    else
      var t := Trim(path.value);
      if IsExternal(t) then t else Rooted(t)
  }

  /** The paths the normaliser leaves alone are exactly the normal ones. */
  lemma NormalizeFixpoints(s: string, fallback: string)
    requires IsNormalImagePath(fallback)
    ensures NormalizeImagePath(Some(s), fallback) == s <==> IsNormalImagePath(s)
  {
    if IsNormalImagePath(s) {
      TrimOfTrimmed(s);
    }
  }

  /** Normalising twice is normalising once. */
  lemma NormalizeIdempotent(path: Option<string>, fallback: string)
    requires IsNormalImagePath(fallback)
    ensures var r := NormalizeImagePath(path, fallback);
            NormalizeImagePath(Some(r), fallback) == r
  {
    var r := NormalizeImagePath(path, fallback);
    NormalizeFixpoints(r, fallback);
  }

  /** `isExternalUrl` of the home banner. */
  function IsExternalUrl(path: Option<string>): (b: bool)
    ensures b <==> !IsBlank(path) && IsExternal(Trim(path.value))
  {
    if IsBlank(path) then false else IsExternal(Trim(path.value))
  }

  /**
   * The home banner's `normalizeImagePath(path, fallback = '')`: like the
   * shared normaliser, except that an external URL becomes "".
   */
  function NormalizeLocalImagePath(path: Option<string>, fallback: string): (r: string)
    ensures IsBlank(path) ==> r == fallback
    ensures IsExternalUrl(path) ==> r == ""
    ensures !IsBlank(path) && !IsExternalUrl(path) ==> StartsWith(r, "/") && IsNormalImagePath(r)
  {
    if IsBlank(path) then fallback
    else
      var t := Trim(path.value);
      if IsExternal(t) then "" else Rooted(t)
  }

  /** The home-banner variant agrees with the shared normaliser on everything but external URLs. */
  lemma LocalVariantAgrees(path: Option<string>, fallback: string)
    ensures NormalizeLocalImagePath(path, fallback) ==
            if IsExternalUrl(path) then "" else NormalizeImagePath(path, fallback)
  {
  }
}

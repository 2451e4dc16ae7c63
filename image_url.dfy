/** `getImageUrl`: how a stored image reference becomes the URL an `<img>` loads. */
module ImageUrl {
  import opened Wrappers
  import opened Types
  import opened JsText

  const Https: string := "https://"
  const Placeholder: string := Https + "placehold.co/400x400?text=No+Image"
  const DefaultBase: string := Https + "shitsu.convex.cloud"
  const ImagePath: string := "/getImage?storageId="

  predicate IsAbsolute(image: string) {
    StartsWith(image, "http://") || StartsWith(image, "https://")
  }

  /** `siteUrl || convexUrl || "https://shitsu.convex.cloud"`: the first configured, non-empty base. */
  function BaseUrl(siteUrl: Option<string>, convexUrl: Option<string>): (base: string)
    ensures Truthy(siteUrl) ==> base == siteUrl.value
    ensures !Truthy(siteUrl) && Truthy(convexUrl) ==> base == convexUrl.value
    ensures !Truthy(siteUrl) && !Truthy(convexUrl) ==> base == DefaultBase
    ensures base != ""
  {
    if Truthy(siteUrl) then siteUrl.value else if Truthy(convexUrl) then convexUrl.value else DefaultBase
  }

  /** `getImageUrl(image)`, with the two environment variables as parameters. */
  function GetImageUrl(image: string, siteUrl: Option<string>, convexUrl: Option<string>): (url: string)
    ensures image == "" ==> url == Placeholder
    ensures image != "" && IsAbsolute(image) ==> url == image
    ensures image != "" && !IsAbsolute(image) ==>
      url == BaseUrl(siteUrl, convexUrl) + ImagePath + image
      && url[|BaseUrl(siteUrl, convexUrl) + ImagePath|..] == image
    ensures url != ""
  {
    if image == "" then Placeholder
    else if IsAbsolute(image) then image
    else
      var prefix := BaseUrl(siteUrl, convexUrl) + ImagePath;
      assert (prefix + image)[|prefix|..] == image;
      prefix + image
  }

  /** With an absolute base every URL produced is absolute, so resolving a resolved URL changes nothing. */
  lemma ResolveTwice(image: string, siteUrl: Option<string>, convexUrl: Option<string>)
    requires IsAbsolute(BaseUrl(siteUrl, convexUrl))
    ensures IsAbsolute(GetImageUrl(image, siteUrl, convexUrl))
    ensures GetImageUrl(GetImageUrl(image, siteUrl, convexUrl), siteUrl, convexUrl) == GetImageUrl(image, siteUrl, convexUrl)
  {
    var base := BaseUrl(siteUrl, convexUrl);
    if image != "" && !IsAbsolute(image) {
      var url := base + ImagePath + image;
      if StartsWith(base, "http://") {
        assert url[..7] == base[..7];
      } else {
        assert url[..8] == base[..8];
      }
    } else if image == "" {
      assert Placeholder[..|Https|] == Https;
    }
  }

  /** When neither variable is configured, every stored reference resolves under the default base. */
  lemma DefaultBaseIsAbsolute()
    ensures IsAbsolute(BaseUrl(None, None))
  {
    assert DefaultBase[..|Https|] == Https;
  }

  /** The thumbnail of a product: its first image, or the placeholder when it has none. */
  function FirstImageUrl(images: seq<string>, siteUrl: Option<string>, convexUrl: Option<string>): (url: string)
    ensures images == [] ==> url == Placeholder
    ensures images != [] ==> url == GetImageUrl(images[0], siteUrl, convexUrl)
  {
    if images == [] then Placeholder else GetImageUrl(images[0], siteUrl, convexUrl)
  }
}

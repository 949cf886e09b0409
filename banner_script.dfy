/**
 * The render half of the CookieYes component: the banner-ID guard and the
 * `<Script>` element whose source URL is templated from the banner ID.
 */
module BannerScript {
  import opened Optional

  /** The value the ID takes when nobody has configured a real banner. */
  const Placeholder: string := "your_cookieyes_banner_id_here"

  /** The fixed parts of the CookieYes CDN URL around the banner ID. */
  const CdnPrefix: string := "https://cdn-cookieyes.com/client_data/"
  const ScriptSuffix: string := "/script.js"

  /** The `id` attribute and loading strategy of the rendered element. */
  const ScriptElementId: string := "cookieyes"
  const LoadStrategy: string := "beforeInteractive"

  /**
   * The guard: an empty string is falsy, and the placeholder counts as unset.
   * It rejects exactly the IDs whose script URL would be the bare template or
   * the placeholder's URL.
   */
  predicate IsConfigured(bannerId: string)
    ensures IsConfigured(bannerId) <==>
      ScriptSrc(bannerId) != ScriptSrc("") && ScriptSrc(bannerId) != ScriptSrc(Placeholder)
  {
    bannerId != "" && bannerId != Placeholder
  }

  /** The script URL for a banner ID: prefix, the ID verbatim, suffix. */
  function ScriptSrc(bannerId: string): (src: string)
    ensures |src| == |CdnPrefix| + |bannerId| + |ScriptSuffix|
    ensures src[..|CdnPrefix|] == CdnPrefix
    ensures src[|CdnPrefix|..|CdnPrefix| + |bannerId|] == bannerId
    ensures src[|CdnPrefix| + |bannerId|..] == ScriptSuffix
  {
    CdnPrefix + bannerId + ScriptSuffix
  }

  /** The banner ID a script URL was built from, if it has the CDN shape. */
  function BannerIdOf(src: string): Option<string>
  {
    if |CdnPrefix| + |ScriptSuffix| <= |src|
       && src[..|CdnPrefix|] == CdnPrefix
       && src[|src| - |ScriptSuffix|..] == ScriptSuffix
    then Some(src[|CdnPrefix|..|src| - |ScriptSuffix|])
    else None
  }

  /** The banner ID can be read back from the URL built for it. */
  lemma SrcRoundTrip(bannerId: string)
    ensures BannerIdOf(ScriptSrc(bannerId)) == Some(bannerId)
  {
  }

  /** Conversely, a URL that reads back as some ID is the URL built for that ID. */
  lemma SrcFromBannerId(src: string, bannerId: string)
    requires BannerIdOf(src) == Some(bannerId)
    ensures ScriptSrc(bannerId) == src
  {
  }

  /** Different banner IDs load different scripts. */
  lemma ScriptSrcInjective(id1: string, id2: string)
    requires ScriptSrc(id1) == ScriptSrc(id2)
    ensures id1 == id2
  {
  }

  /** The `<Script>` element the component renders. */
  datatype ScriptElement = ScriptElement(elementId: string, src: string, strategy: string)

  /**
   * What the component renders for a banner ID: nothing when the guard fails,
   * otherwise exactly one script element loading that banner's script.
   */
  function Render(bannerId: string): (r: Option<ScriptElement>)
    ensures r.None? <==> bannerId == "" || bannerId == Placeholder
    ensures r.Some? ==> r.value.src == CdnPrefix + bannerId + ScriptSuffix
    ensures r.Some? ==> BannerIdOf(r.value.src) == Some(bannerId)
    ensures r.Some? ==> r.value.elementId == ScriptElementId && r.value.strategy == LoadStrategy
  {
    if !IsConfigured(bannerId) then None
    else Some(ScriptElement(ScriptElementId, ScriptSrc(bannerId), LoadStrategy))
  }
}

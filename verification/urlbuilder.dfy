/**
 * `url.Builder`: knows the redirect API's base URL and builds the self link of
 * a redirect by appending its id, with no separator added.
 */
module UrlBuilder {
  import opened GoStrings

  /**
   * The builder holds the base URL it was made with; it is modelled by the text
   * `url.URL.String()` gives for it (parsing that URL is not modelled).
   */
  datatype Builder = Builder(redirectAPIURL: GoString) {

    /** `GetRedirectAPIURL`: the base URL the builder was made with, which begins every self URL it builds. */
    function GetRedirectAPIURL(): (u: GoString)
      ensures forall id: GoString :: HasPrefix(BuildRedirectSelfURL(id), u)
    {
      redirectAPIURL
    }

    /** `BuildRedirectSelfURL`: the base URL immediately followed by the id. */
    function BuildRedirectSelfURL(redirectID: GoString): (href: GoString)
      ensures HasPrefix(href, redirectAPIURL)
      ensures href[|redirectAPIURL|..] == redirectID
      ensures |href| == |redirectAPIURL| + |redirectID|
    {
      redirectAPIURL + redirectID
    }
  }

  /** `NewBuilder`. */
  function NewBuilder(redirectAPIURL: GoString): (b: Builder)
    ensures b.GetRedirectAPIURL() == redirectAPIURL
  {
    Builder(redirectAPIURL)
  }

  /** One builder never gives two ids the same self link. */
  lemma SelfURLInjective(b: Builder, id1: GoString, id2: GoString)
    requires b.BuildRedirectSelfURL(id1) == b.BuildRedirectSelfURL(id2)
    ensures id1 == id2
  {
    var h := b.BuildRedirectSelfURL(id1);
    assert id1 == h[|b.redirectAPIURL|..];
  }

  /** The public base the service is deployed with, as the component tests expect it. */
  const PublicRedirectsURL: GoString := "https://api.beta.ons.gov.uk/v1/redirects/"
}

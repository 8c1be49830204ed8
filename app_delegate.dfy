/**
 * The app delegate's URL entry point (C# `AppDelegate.OpenUrl`) and the deep
 * link's round trip from the widget entry to the page.
 */
module AppDelegate {
  import opened Wrappers
  import Numbers
  import Strings
  import WidgetConstants
  import Url
  import Provider
  import App
  import MainPage
  import WidgetDataService

  /**
   * `new Uri(url.AbsoluteString)`: .NET lower-cases the scheme and the host;
   * the query is kept as parsed.
   */
  function AsSystemUri(url: Url.Uri): (u: Url.Uri)
    ensures |u.scheme| == |url.scheme| && |u.host| == |url.host| && u.query == url.query
    ensures forall i :: 0 <= i < |u.host| ==> !('A' <= u.host[i] <= 'Z')
    ensures forall i :: 0 <= i < |u.scheme| ==> !('A' <= u.scheme[i] <= 'Z')
    ensures u.scheme == Strings.ToLower(url.scheme) && u.host == Strings.ToLower(url.host)
  {
    Url.Uri(Strings.ToLower(url.scheme), Strings.ToLower(url.host), url.query)
  }

  /**
   * `OpenUrl`: a URL of the widget's scheme is handled by the app and reported
   * as handled; any other goes to the base implementation, whose answer is
   * `baseResult`, and changes nothing here.
   */
  method OpenUrl(url: Url.Uri, page: MainPage.MainPage?, now: string, baseResult: bool) returns (handled: bool)
    modifies if page == null then {} else {page as object, page.container as object}
    ensures url.scheme == WidgetConstants.UrlScheme ==> handled
    ensures url.scheme != WidgetConstants.UrlScheme ==> handled == baseResult
    ensures url.scheme != WidgetConstants.UrlScheme && page != null ==> unchanged(page, page.container)
    ensures (url.scheme == WidgetConstants.UrlScheme && page != null
             && App.WidgetLinkCounter(AsSystemUri(url)).Some?) ==>
              && page.counter == App.WidgetLinkCounter(AsSystemUri(url)).value
              && page.statusMessage == "Updated via widget tap"
              && page.container.files == WidgetDataService.Sent(page.container.appResolves, old(page.container.files),
                                           MainPage.OutgoingRecord(page.counter, now))
              && page.propertyChanges == old(page.propertyChanges)
                                         + (if old(page.counter) == page.counter then [] else ["Counter"])
                                         + ["StatusMessage"]
    ensures (url.scheme == WidgetConstants.UrlScheme && page != null
             && App.WidgetLinkCounter(AsSystemUri(url)).None?) ==> unchanged(page, page.container)
  {
    if url.scheme == WidgetConstants.UrlScheme {
      App.HandleWidgetUrl(AsSystemUri(url), page, now);
      return true;
    }
    handled := baseResult;
  }

  /** The deep link parses into the widget's scheme and host and a single `counter` pair. */
  lemma DeepLinkParses(counter: int)
    ensures Url.ParseUrl(Provider.DeepLink(counter))
            == Some(Url.Uri(WidgetConstants.UrlScheme, WidgetConstants.UrlHost,
                            [Url.QueryPair(Some("counter"), Numbers.IntToString(counter))]))
  {
    var text := Numbers.IntToString(counter);
    assert '&' !in text && '#' !in text by {
      forall i | 0 <= i < |text| ensures text[i] != '&' && text[i] != '#' { }
    }
    Url.ParseComposed(WidgetConstants.UrlScheme, WidgetConstants.UrlHost, "counter", text);
  }

  /** The .NET view of the widget's own URLs is the URL itself: both parts are already lower case. */
  lemma WidgetUriIsCanonical(q: seq<Url.QueryPair>)
    ensures AsSystemUri(Url.Uri(WidgetConstants.UrlScheme, WidgetConstants.UrlHost, q))
            == Url.Uri(WidgetConstants.UrlScheme, WidgetConstants.UrlHost, q)
  {
    WidgetConstants.UrlPartsAreLowerCase();
  }

  /**
   * The deep link of a widget entry showing `counter` is claimed by the app,
   * and hands the page exactly that counter when it fits a C# `int`; a wider
   * counter makes the link do nothing.
   */
  lemma DeepLinkRoundTrip(counter: int)
    ensures var url := Url.ParseUrl(Provider.DeepLink(counter));
            && url.Some?
            && url.value.scheme == WidgetConstants.UrlScheme
            && App.WidgetLinkCounter(AsSystemUri(url.value)) == if Numbers.IsInt32(counter) then Some(counter) else None
  {
    var text := Numbers.IntToString(counter);
    var q := [Url.QueryPair(Some("counter"), text)];
    DeepLinkParses(counter);
    WidgetUriIsCanonical(q);
    Url.QueryGetSingle("counter", text);
    Numbers.ParseRenderedInt(counter);
  }
}

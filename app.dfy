/**
 * Deep-link handling in the app (C# `App`): a link
 * `mauiapplewidgets://widget?counter=<n>` hands `n` to the current page.
 * Dispatching to the UI thread is left out; the page showing at that moment,
 * if it is a `MainPage`, is a parameter.
 */
module App {
  import opened Wrappers
  import Numbers
  import Strings
  import WidgetConstants
  import Url
  import WidgetDataService
  import MainPage

  /**
   * The counter a link carries, as `HandleWidgetUrl` decides: the scheme and
   * host must be the widget's, the `counter` value must be present and not
   * empty, and it must parse as a C# `int`.
   */
  function WidgetLinkCounter(uri: Url.Uri): (r: Option<Numbers.Int32>)
    ensures r.Some? ==> uri.scheme == WidgetConstants.UrlScheme && uri.host == WidgetConstants.UrlHost
    ensures r.Some? ==> exists v :: Url.QueryGet(uri.query, "counter") == Some(v)
                                 && v != "" && Numbers.TryParseInt32(v) == Some(r.value)
    ensures (&& uri.scheme == WidgetConstants.UrlScheme && uri.host == WidgetConstants.UrlHost
             && Url.QueryGet(uri.query, "counter").Some?
             && Numbers.TryParseInt32(Url.QueryGet(uri.query, "counter").value).Some?) ==> r.Some?
  {
    if uri.scheme != WidgetConstants.UrlScheme || uri.host != WidgetConstants.UrlHost then None
    else
      match Url.QueryGet(uri.query, "counter")
      case None => None
      case Some(v) =>
        if v == "" then None
        else match Numbers.TryParseInt32(v)
          case None => None
          case Some(n) => Some(n)
  }

  /** `HandleWidgetUrl(uri)`: a link that carries a counter is passed on; any other is ignored. */
  method HandleWidgetUrl(uri: Url.Uri, page: MainPage.MainPage?, now: string)
    modifies if page == null then {} else {page as object, page.container as object}
    ensures page != null && WidgetLinkCounter(uri).Some? ==>
              && page.counter == WidgetLinkCounter(uri).value
              && page.statusMessage == "Updated via widget tap"
              && page.container.files == WidgetDataService.Sent(page.container.appResolves, old(page.container.files),
                                           MainPage.OutgoingRecord(page.counter, now))
              && page.propertyChanges == old(page.propertyChanges)
                                         + (if old(page.counter) == page.counter then [] else ["Counter"])
                                         + ["StatusMessage"]
    ensures page != null && WidgetLinkCounter(uri).None? ==> unchanged(page, page.container)
  {
    var count := WidgetLinkCounter(uri);
    if count.Some? {
      NotifyMainPageOfIncomingUrl(count.value, page, now);
    }
  }

  /** `NotifyMainPageOfIncomingUrl(n)`: the page showing, if it is the main page, adopts `n`. */
  method NotifyMainPageOfIncomingUrl(counterValue: Numbers.Int32, page: MainPage.MainPage?, now: string)
    modifies if page == null then {} else {page as object, page.container as object}
    ensures page != null ==>
              && page.counter == counterValue
              && page.statusMessage == "Updated via widget tap"
              && page.container.files == WidgetDataService.Sent(page.container.appResolves, old(page.container.files),
                                           MainPage.OutgoingRecord(counterValue, now))
              && page.propertyChanges == old(page.propertyChanges)
                                         + (if old(page.counter) == counterValue then [] else ["Counter"])
                                         + ["StatusMessage"]
  {
    if page != null {
      page.OnResumedByUrl(counterValue, now);
    }
  }

  /** Links that are not for the widget, or carry no usable counter, are ignored. */
  lemma RejectedLinks(q: seq<Url.QueryPair>)
    ensures WidgetLinkCounter(Url.Uri("https", WidgetConstants.UrlHost, q)).None?
    ensures WidgetLinkCounter(Url.Uri(WidgetConstants.UrlScheme, "other", q)).None?
    ensures WidgetLinkCounter(Url.Uri(WidgetConstants.UrlScheme, WidgetConstants.UrlHost, [])).None?
    ensures WidgetLinkCounter(Url.Uri(WidgetConstants.UrlScheme, WidgetConstants.UrlHost,
                                      [Url.QueryPair(Some("counter"), "")])).None?
    ensures WidgetLinkCounter(Url.Uri(WidgetConstants.UrlScheme, WidgetConstants.UrlHost,
                                      [Url.QueryPair(Some("counter"), "abc")])).None?
  {
    Url.QueryGetSingle("counter", "");
    Url.QueryGetSingle("counter", "abc");
    Numbers.NonNumericRefused();
  }

  /**
   * A repeated `counter` is joined with ',' by the query parser, which
   * `int.TryParse` refuses: such a link is ignored.
   */
  lemma RepeatedCounterIgnored()
    ensures WidgetLinkCounter(Url.Uri(WidgetConstants.UrlScheme, WidgetConstants.UrlHost,
                                      [Url.QueryPair(Some("counter"), "1"), Url.QueryPair(Some("counter"), "2")])).None?
  {
    Url.QueryGetRepeated("counter", "1", "2");
    assert "1" + "," + "2" == "1,2";
    Numbers.CommaRefused();
  }
}

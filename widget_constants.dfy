/** The app-side constants of the widget exchange (C# `WidgetConstants`). */
module WidgetConstants {
  import Strings

  /** The App Group both processes are provisioned for. */
  const GroupId: string := "group.com.mauiapplewidgets.app"
  /** The slot the app writes and the widget reads. */
  const FromAppFile: string := "widget_data_fromapp.json"
  /** The slot the widget writes and the app reads and clears. */
  const FromWidgetFile: string := "widget_data_fromwidget.json"
  const UrlScheme: string := "mauiapplewidgets"
  const UrlHost: string := "widget"
  /** The timeline kind the app asks the OS to reload. */
  const WidgetKind: string := "SimpleWidget"

  /** The default `kind` argument of `RefreshWidget`. */
  const DefaultRefreshKind: string := "SimpleWidget"

  /** The two slots are different files, and the refresh default is the widget kind. */
  lemma SlotsDistinct()
    ensures FromAppFile != FromWidgetFile
    ensures WidgetKind == DefaultRefreshKind
  {
  }

  /**
   * The scheme and host are already lower case, so .NET's lower-casing of a
   * parsed URL keeps them.
   */
  lemma UrlPartsAreLowerCase()
    ensures Strings.ToLower(UrlScheme) == UrlScheme
    ensures Strings.ToLower(UrlHost) == UrlHost
  {
    SchemeIsLowerCase();
    HostIsLowerCase();
  }

  lemma SchemeIsLowerCase()
    ensures Strings.ToLower(UrlScheme) == UrlScheme
  {
    var scheme := UrlScheme;
    assert scheme == "mauiapplewidgets";
    assert forall i :: 0 <= i < |scheme| ==> !('A' <= scheme[i] <= 'Z');
    Strings.ToLowerKeepsLowerCase(scheme);
  }

  lemma HostIsLowerCase()
    ensures Strings.ToLower(UrlHost) == UrlHost
  {
    var host := UrlHost;
    assert host == "widget";
    assert forall i :: 0 <= i < |host| ==> !('A' <= host[i] <= 'Z');
    Strings.ToLowerKeepsLowerCase(host);
  }
}

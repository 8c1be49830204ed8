/** The widget-side constants of the exchange (Swift `Settings`). */
module Settings {
  import WidgetConstants

  const groupId: string := "group.com.mauiapplewidgets.app"
  const fromAppFile: string := "widget_data_fromapp.json"
  const fromWidgetFile: string := "widget_data_fromwidget.json"
  const widgetKind: string := "SimpleWidget"
  const urlScheme: string := "mauiapplewidgets"
  const urlHost: string := "widget"

  /**
   * Each widget-side constant equals its app-side counterpart, and the two
   * slot names differ: the single-writer argument rests on this.
   */
  lemma AgreesWithApp()
    ensures groupId == WidgetConstants.GroupId
    ensures fromAppFile == WidgetConstants.FromAppFile
    ensures fromWidgetFile == WidgetConstants.FromWidgetFile
    ensures widgetKind == WidgetConstants.WidgetKind
    ensures urlScheme == WidgetConstants.UrlScheme
    ensures urlHost == WidgetConstants.UrlHost
    ensures fromAppFile != fromWidgetFile
  {
  }
}

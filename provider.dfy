/**
 * The widget's timeline provider (Swift `Provider`), its entry and its
 * configuration. Every entry outside a preview carries the reconciled counter
 * and message and a deep link back into the app; the clock reading `now` is a
 * parameter.
 */
module Provider {
  import opened AppGroup
  import Numbers
  import Settings
  import SharedStorage
  import Url

  /** Swift `SimpleEntry`; `date` is the clock reading at creation. */
  datatype SimpleEntry = SimpleEntry(
    date: string,
    title: string,
    counter: int,
    message: string,
    emoji: string,
    widgetUrl: string)

  /** Swift `ConfigurationAppIntent`: what the user configured on the widget. */
  datatype ConfigurationAppIntent = ConfigurationAppIntent(displayTitle: string, favoriteEmoji: string)

  /** The parameter defaults of the configuration intent. */
  const DefaultConfiguration := ConfigurationAppIntent("My Widget", "🚀")

  /** The part of WidgetKit's context the provider looks at. */
  datatype Context = Context(isPreview: bool)

  datatype ReloadPolicy = AtEnd | Never | After(date: string)

  datatype Timeline = Timeline(entries: seq<SimpleEntry>, policy: ReloadPolicy)

  /** The link an entry opens: `mauiapplewidgets://widget?counter=<counter>`. */
  function DeepLink(counter: int): (url: string)
    ensures |url| > 0
  {
    Url.Compose(Settings.urlScheme, Settings.urlHost, "counter", Numbers.IntToString(counter))
  }

  /** `createPreviewEntry()`: fixed sample content and no link. */
  function CreatePreviewEntry(now: string): (e: SimpleEntry)
    ensures e.title == "My Widget" && e.counter == 42 && e.message == "Preview"
    ensures e.emoji == "🚀" && e.widgetUrl == "" && e.date == now
  {
    SimpleEntry(now, "My Widget", 42, "Preview", "🚀", "")
  }

  /**
   * `createEntry(for:in:)`. A preview shows the sample entry whatever is
   * stored; otherwise the entry shows the last writer's counter and message,
   * the configured title (or "My Widget" when it is empty), the configured
   * emoji, and a link that carries the counter.
   */
  function CreateEntry(configuration: ConfigurationAppIntent, context: Context,
                       resolvable: bool, files: Files, now: string): (e: SimpleEntry)
    ensures e.title != ""
    ensures e.widgetUrl == "" <==> context.isPreview
    ensures context.isPreview ==> e == CreatePreviewEntry(now)
    ensures !context.isPreview ==>
              && e.date == now
              && e.counter == SharedStorage.GetBestCounter(resolvable, files)
              && e.message == SharedStorage.GetBestMessage(resolvable, files)
              && e.widgetUrl == DeepLink(e.counter)
              && e.emoji == configuration.favoriteEmoji
              && (configuration.displayTitle != "" ==> e.title == configuration.displayTitle)
              && (configuration.displayTitle == "" ==> e.title == "My Widget")
  {
    if context.isPreview then CreatePreviewEntry(now)
    else
      var counter := SharedStorage.GetBestCounter(resolvable, files);
      var message := SharedStorage.GetBestMessage(resolvable, files);
      var title := if configuration.displayTitle == "" then "My Widget" else configuration.displayTitle;
      SimpleEntry(now, title, counter, message, configuration.favoriteEmoji, DeepLink(counter))
  }

  /** `placeholder(in:)`: the preview entry, never read from storage. */
  function Placeholder(context: Context, now: string): (e: SimpleEntry)
    ensures e.widgetUrl == "" && e.counter == 42
    ensures e == CreatePreviewEntry(now)
  {
    CreatePreviewEntry(now)
  }

  /** `snapshot(for:in:)`. */
  function Snapshot(configuration: ConfigurationAppIntent, context: Context,
                    resolvable: bool, files: Files, now: string): (e: SimpleEntry)
    ensures e == CreateEntry(configuration, context, resolvable, files, now)
  {
    CreateEntry(configuration, context, resolvable, files, now)
  }

  /**
   * `timeline(for:in:)`: a single entry and no scheduled refresh; the widget
   * changes only when someone asks the widget center to reload it.
   */
  function GetTimeline(configuration: ConfigurationAppIntent, context: Context,
                       resolvable: bool, files: Files, now: string): (t: Timeline)
    ensures |t.entries| == 1 && t.policy == Never
    ensures t.entries[0] == Snapshot(configuration, context, resolvable, files, now)
  {
    Timeline([CreateEntry(configuration, context, resolvable, files, now)], Never)
  }

  /** What a preview shows does not depend on the configuration or on storage. */
  lemma PreviewIgnoresStorage(c1: ConfigurationAppIntent, c2: ConfigurationAppIntent,
                              r1: bool, f1: Files, r2: bool, f2: Files, now: string)
    ensures CreateEntry(c1, Context(true), r1, f1, now) == CreateEntry(c2, Context(true), r2, f2, now)
  {
  }

  /** The counter an entry shows and the counter its link carries are the same. */
  lemma EntryLinkMatchesCounter(configuration: ConfigurationAppIntent, resolvable: bool, files: Files, now: string)
    ensures var e := CreateEntry(configuration, Context(false), resolvable, files, now);
            e.widgetUrl == Url.Compose("mauiapplewidgets", "widget", "counter", Numbers.IntToString(e.counter))
  {
  }
}

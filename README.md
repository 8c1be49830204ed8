# Counter widget sync and task tracker intents, modelled in Dafny

This project models two samples from the .NET MAUI / Apple platform-feature
repository.

**Widgets.** A MAUI app and a WidgetKit extension share one counter through
two JSON files in an App Group container:

- The app writes `widget_data_fromapp.json`. The widget writes
  `widget_data_fromwidget.json`.
- The widget shows the counter of whichever record carries the later
  `updatedAt` (last writer wins; the app wins ties).
- The widget's "+" and "-" buttons write the successor or predecessor of that
  counter.
- The app consumes the widget's record, deletes it and echoes the counter
  back.
- A widget tap opens `mauiapplewidgets://widget?counter=<n>`, which hands `n`
  to the app's page.

The container is a class holding a map from file name to slot. A slot is
either a decoded record or corrupt; a missing file is a name absent from the
map. The C# reader decodes into 32-bit fields and the Swift reader into
64-bit fields. Swift's trapping `+ 1` is an explicit `Trapped` outcome. C#
`Counter++` wraps.

**AppIntents.** Siri/Shortcuts intents written in Swift reach a C# task
service through a bridge of sentinel-encoded records:

- notes `""` mean "no notes";
- minutes `-1` mean "no estimate";
- a raw filter value `-1` means "no filter".

The task service is a class holding a list of mutable task objects.
`Complete` and `SetDueDate` update one object in place, and `Create` and
`Delete` change the list. Queries are functions over a snapshot (`View()`)
of the tasks' fields. `OrderByDescending` is a stable insertion sort, proved
sorted, a permutation and stable. The weak `TaskBridgeManager.shared.provider`
is a nullable provider reference; a null provider is the "app not ready"
path.

Parameters stand for the things outside the core:

- clock readings (`now`, `today`) and generated ids (`newId`);
- whether the container resolves in each process;
- the outcome of an atomic file write (`written`) and whether the widget
  center proxy works (`proxyOk`);
- the page showing when a link arrives;
- the formatted due-date text.

## Model

| member | source | states |
|---|---|---|
| WidgetDataModel.CSharpDefault | Widgets/Services/WidgetData.cs:9-28 | a C# record built with no initialisers has version 1, counter 0, empty title, message and extras, and the construction time as `updatedAt` |
| WidgetDataModel.SwiftDefault | Widgets/XCodeWidget/SimpleWidgetExtension/WidgetData.swift:4-11 | the Swift defaults are the same except that `updatedAt` is empty |
| WidgetDataModel.JsonNamesAgree | Widgets/XCodeWidget/SimpleWidgetExtension/WidgetData.swift:4-11 | both sides use the same six distinct JSON member names (the C# `JsonPropertyName`s equal the Swift property names) |
| Settings.AgreesWithApp | Widgets/XCodeWidget/SimpleWidgetExtension/Settings.swift:6-13 | every widget-side constant equals its app-side counterpart, and the two slot names differ |
| WidgetConstants.SlotsDistinct | Widgets/Services/WidgetConstants.cs:6-25 | the from-app and from-widget files are different, and `WidgetKind` is the default kind of `RefreshWidget` |
| WidgetConstants.UrlPartsAreLowerCase | Widgets/Services/WidgetConstants.cs:18-21 | the URL scheme and host are already lower case |
| AppGroup.Load | Widgets/XCodeWidget/SimpleWidgetExtension/SharedStorage.swift:21-39 | a read yields a record exactly when the container resolves, the file exists and decodes, and its numbers fit the reader's integer width; the record is the stored one |
| SharedStorage.ReadAppData | Widgets/XCodeWidget/SimpleWidgetExtension/SharedStorage.swift:21-39 | the widget reads the app's record exactly when the container resolves, the from-app file exists and decodes, and its numbers fit a Swift `Int`; the record is the stored one |
| SharedStorage.ReadWidgetData | Widgets/XCodeWidget/SimpleWidgetExtension/SharedStorage.swift:43-52 | the same for its own from-widget file |
| SharedStorage.GetBestCounter | Widgets/XCodeWidget/SimpleWidgetExtension/SharedStorage.swift:70-85 | 0 with no readable record; the app's counter when the widget's record is missing or not later; the widget's counter when the app's record is missing or strictly earlier |
| SharedStorage.GetBestMessage | Widgets/XCodeWidget/SimpleWidgetExtension/SharedStorage.swift:87-101 | the same choice for the message, with "" when no record is readable |
| SharedStorage.WidgetWrite | Widgets/XCodeWidget/SimpleWidgetExtension/SharedStorage.swift:56-65 | a widget write replaces only the from-widget slot, and changes nothing when the container does not resolve or the write fails |
| SharedStorage.WriteWidgetData | Widgets/XCodeWidget/SimpleWidgetExtension/SharedStorage.swift:56-65 | the container's files become the widget-write result |
| SharedStorage.LastWriterUnique | Widgets/XCodeWidget/SimpleWidgetExtension/SharedStorage.swift:70-85 | the last-writer relation (a present record, no present record later, the app on ties) picks at most one record |
| SharedStorage.BestIsLastWriter | Widgets/XCodeWidget/SimpleWidgetExtension/SharedStorage.swift:70-101 | `getBestCounter` and `getBestMessage` are 0 and "" without readable records, and otherwise both come from the one last writer |
| SharedStorage.EmptyStampNeverWins | Widgets/XCodeWidget/SimpleWidgetExtension/SharedStorage.swift:77 | a record stamped "" loses to a stamped one, and a widget record stamped "" always loses |
| SharedStorage.LaterWidgetWins | Widgets/XCodeWidget/SimpleWidgetExtension/SharedStorage.swift:77 | a widget record stamped an hour after the app's shows the widget's counter |
| SharedStorage.SameSecondAppWriteLoses | Widgets/XCodeWidget/SimpleWidgetExtension/SharedStorage.swift:77 | an app record with fractional seconds loses to a widget record of the same second written earlier |
| WidgetDataService.Sent | Widgets/Platforms/iOS/WidgetDataService.cs:33-40 | sending replaces only the from-app slot, and only when the container resolves |
| WidgetDataService.SendDataToWidget | Widgets/Platforms/iOS/WidgetDataService.cs:33-40 | the container's files become the send result |
| WidgetDataService.ReadDataFromWidget | Widgets/Platforms/iOS/WidgetDataService.cs:42-56 | the app reads the widget's record exactly when the container resolves, the from-widget file exists and decodes, and its numbers fit a C# `int`; the record is the stored one |
| WidgetDataService.Cleared | Widgets/Platforms/iOS/WidgetDataService.cs:58-63 | clearing removes only the from-widget file, and only when the container resolves |
| WidgetDataService.ClearWidgetIncomingData | Widgets/Platforms/iOS/WidgetDataService.cs:58-63 | the container's files become the clear result |
| WidgetDataService.RefreshWidget | Widgets/Platforms/iOS/WidgetDataService.cs:65-76 | a reload of `kind` is requested, or nothing when the proxy throws |
| WidgetDataService.ClearedReadsNothing | Widgets/Platforms/iOS/WidgetDataService.cs:42-63 | after clearing, the app reads no widget record, and the widget still reads the same app record |
| WidgetDataService.SentReachesWidget | Widgets/Platforms/iOS/WidgetDataService.cs:33-40 | a record with C# `int` fields, once sent, is read back unchanged by the widget's 64-bit reader |
| WidgetDataService.WidgetWriteReachesApp | Widgets/Platforms/iOS/WidgetDataService.cs:42-56 | the app reads the widget's record back exactly when its counter and version fit 32 bits, and reads nothing otherwise |
| IncrementCounterIntent.IncrementRecord | Widgets/XCodeWidget/SimpleWidgetExtension/Intents/IncrementCounterIntent.swift:18-25 | the written record is version 1, empty title, message "incremented via widget", the successor of the reconciled counter, the current time and no extras |
| IncrementCounterIntent.BestCounterIsInt64 | Widgets/XCodeWidget/SimpleWidgetExtension/SharedStorage.swift:70-85 | the reconciled counter is always a Swift `Int` |
| IncrementCounterIntent.Perform | Widgets/XCodeWidget/SimpleWidgetExtension/Intents/IncrementCounterIntent.swift:11-31 | the tap traps exactly when the successor overflows; otherwise it writes the successor and requests one reload of the widget kind |
| IncrementCounterIntent.AppRecordKept | Widgets/XCodeWidget/SimpleWidgetExtension/Intents/IncrementCounterIntent.swift:26 | the tap never changes the app's record |
| IncrementCounterIntent.IncrementAdvances | Widgets/XCodeWidget/SimpleWidgetExtension/Intents/IncrementCounterIntent.swift:11-31 | after a tap the widget shows the successor exactly when the app's record is absent or strictly older than the tap; otherwise it still shows the app's counter |
| IncrementCounterIntent.FailedWriteChangesNothing | Widgets/XCodeWidget/SimpleWidgetExtension/SharedStorage.swift:56-65 | a tap whose write fails, or whose container does not resolve, leaves the files unchanged |
| IncrementCounterIntent.TrapsOnlyAtMax | Widgets/XCodeWidget/SimpleWidgetExtension/Intents/IncrementCounterIntent.swift:14 | the addition traps exactly when the reconciled counter is the largest `Int` |
| DecrementCounterIntent.DecrementRecord | Widgets/XCodeWidget/SimpleWidgetExtension/Intents/DecrementCounterIntent.swift:15-22 | the written record is version 1, empty title, message "decremented via widget", the predecessor of the reconciled counter, the current time and no extras |
| DecrementCounterIntent.Perform | Widgets/XCodeWidget/SimpleWidgetExtension/Intents/DecrementCounterIntent.swift:8-26 | the tap traps exactly when the predecessor overflows; otherwise it writes the predecessor and requests one reload |
| DecrementCounterIntent.DecrementRetreats | Widgets/XCodeWidget/SimpleWidgetExtension/Intents/DecrementCounterIntent.swift:8-26 | the widget shows the predecessor exactly when the tap is the last writer |
| DecrementCounterIntent.IncrementThenDecrementRestores | Widgets/XCodeWidget/SimpleWidgetExtension/Intents/DecrementCounterIntent.swift:8-26 | a "+" tap that is the last writer, followed by a later "-" tap, gives back the counter shown before both |
| Provider.DeepLink | Widgets/XCodeWidget/SimpleWidgetExtension/Provider.swift:40 | the entry's link is never empty; `AppDelegate.DeepLinkRoundTrip` states what it parses into |
| Provider.CreatePreviewEntry | Widgets/XCodeWidget/SimpleWidgetExtension/Provider.swift:52-61 | the preview entry has the fixed sample title, counter 42, message, emoji and no link |
| Provider.CreateEntry | Widgets/XCodeWidget/SimpleWidgetExtension/Provider.swift:27-50 | a preview shows the sample entry; otherwise the entry shows the reconciled counter and message, the configured emoji, the configured title or exactly "My Widget" when it is empty, a link, and the current time as its date; only previews lack a link |
| Provider.Placeholder | Widgets/XCodeWidget/SimpleWidgetExtension/Provider.swift:10-12 | the placeholder is the preview entry (counter 42, no link), whatever is stored |
| Provider.Snapshot | Widgets/XCodeWidget/SimpleWidgetExtension/Provider.swift:15-17 | the gallery snapshot is the entry that `createEntry` builds, the same one the timeline holds |
| Provider.GetTimeline | Widgets/XCodeWidget/SimpleWidgetExtension/Provider.swift:20-23 | the timeline holds one entry, equal to the snapshot, and never reloads by itself |
| Provider.PreviewIgnoresStorage | Widgets/XCodeWidget/SimpleWidgetExtension/Provider.swift:28-30 | a preview entry depends on neither the configuration nor the container |
| Provider.EntryLinkMatchesCounter | Widgets/XCodeWidget/SimpleWidgetExtension/Provider.swift:40-48 | the link carries the very counter the entry shows |
| MainPage.OutgoingRecord | Widgets/MainPage.xaml.cs:91-100 | the app's record is version 1, title "MauiAppleWidgets", message "Sent from app", the page counter, the current time and no extras |
| MainPage.MainPage.constructor | Widgets/MainPage.xaml.cs:9-14 | a new page starts with counter 0 and an empty status |
| MainPage.MainPage.SetCounter | Widgets/MainPage.xaml.cs:16-26 | the `Counter` setter announces a change only when the value differs |
| MainPage.MainPage.SetStatusMessage | Widgets/MainPage.xaml.cs:28-37 | the `StatusMessage` setter announces every assignment |
| MainPage.MainPage.SyncOutgoingData | Widgets/MainPage.xaml.cs:91-100 | the page counter is sent to the from-app slot |
| MainPage.MainPage.LoadIncomingWidgetData | Widgets/MainPage.xaml.cs:59-73 | a readable widget record is adopted: the counter is taken, the status becomes "Updated by widget: <message>", the widget file is deleted and the counter echoed back; without one only the status is cleared and nothing else changes |
| MainPage.MainPage.OnAppearing | Widgets/MainPage.xaml.cs:39-43 | appearing does what `LoadIncomingWidgetData` does: adopt, set the status, delete and echo a pending widget record, or else only clear the status |
| MainPage.MainPage.OnResumed | Widgets/MainPage.xaml.cs:46-49 | resuming does the same as appearing, with the same full effect on counter, status, files and announcements |
| MainPage.MainPage.OnResumedByUrl | Widgets/MainPage.xaml.cs:52-57 | the link's counter is adopted with the "Updated via widget tap" status and sent back; "Counter" is announced only when the value changes, "StatusMessage" always |
| MainPage.MainPage.OnAddClicked | Widgets/MainPage.xaml.cs:75-81 | "+" wraps the counter up by one, clears the status, sends the counter and requests a reload |
| MainPage.MainPage.OnSubtractClicked | Widgets/MainPage.xaml.cs:83-89 | "-" wraps the counter down by one, clears the status, sends the counter and requests a reload |
| MainPage.AddThenSubtractRestores | Widgets/MainPage.xaml.cs:75-89 | "+" and "-" undo each other, across the 32-bit wrap-around too |
| MainPage.AddWrapsAtMax | Widgets/MainPage.xaml.cs:77 | "+" on the largest `int` gives the smallest |
| MainPage.ConsumedRecordIsShownByWidget | Widgets/MainPage.xaml.cs:59-73 | after the app consumes a widget record, the widget reads no record of its own and shows the consumed counter |
| MainPage.SyncIsShownByWidget | Widgets/MainPage.xaml.cs:91-100 | after a send, the widget shows the page counter unless it holds a record stamped later |
| App.WidgetLinkCounter | Widgets/App.xaml.cs:30-42 | a link yields a counter only for the widget's scheme and host and a non-empty `counter` value that parses as an `int`, and always does then |
| App.HandleWidgetUrl | Widgets/App.xaml.cs:30-42 | a link carrying a counter sets the page counter, the status and the files sent back, with the setters' announcements; any other link changes nothing |
| App.NotifyMainPageOfIncomingUrl | Widgets/App.xaml.cs:44-55 | the page showing, when it is the main page, adopts the counter, the status, the files sent back and the announcements |
| App.RejectedLinks | Widgets/App.xaml.cs:32-40 | links with another scheme or host, or without a usable `counter` value, are ignored |
| App.RepeatedCounterIgnored | Widgets/App.xaml.cs:35-38 | a link repeating `counter` is ignored, because the joined value does not parse |
| AppDelegate.AsSystemUri | Widgets/Platforms/iOS/AppDelegate.cs:16 | re-parsing the URL lower-cases its scheme and its host and keeps its query |
| AppDelegate.OpenUrl | Widgets/Platforms/iOS/AppDelegate.cs:12-22 | URLs of the widget scheme are claimed; one that carries a counter sets the page's counter, status, files and announcements, and one that does not changes nothing; other URLs go to the base handler and change nothing |
| AppDelegate.DeepLinkParses | Widgets/XCodeWidget/SimpleWidgetExtension/Provider.swift:40 | the entry link parses into the widget scheme, the widget host and one `counter` pair |
| AppDelegate.WidgetUriIsCanonical | Widgets/Platforms/iOS/AppDelegate.cs:16 | re-parsing leaves the widget's own URLs unchanged |
| AppDelegate.DeepLinkRoundTrip | Widgets/Platforms/iOS/AppDelegate.cs:12-22 | tapping an entry hands the page exactly the counter the entry shows when it fits an `int`, and does nothing otherwise |
| Numbers.Wrap32 | AppIntents/MauiAppIntentsSample/Platforms/iOS/AppIntentsBridge.cs:38-41 | the `(int)` cast keeps values that fit and is otherwise congruent modulo 2^32 |
| Numbers.Wrap32Moves | Widgets/MainPage.xaml.cs:77-85 | a wrapped `++` or `--` always changes the counter |
| Numbers.TryParseInt32 | Widgets/App.xaml.cs:38 | `int.TryParse` succeeds only with a value in the `int` range |
| Numbers.ParseRenderedInt | Widgets/App.xaml.cs:38 | parsing a Swift-rendered integer gives it back exactly when it fits an `int` |
| Numbers.NonNumericRefused | Widgets/App.xaml.cs:38 | "abc", "" and "-" are refused |
| Numbers.CommaRefused | Widgets/App.xaml.cs:38 | "1,2" is refused |
| Strings.LexLeqTotal | Widgets/XCodeWidget/SimpleWidgetExtension/SharedStorage.swift:77 | the string `>=` used on timestamps is a total order (with reflexivity, antisymmetry and transitivity) |
| Strings.ContainsIffOccurs | AppIntents/MauiAppIntentsSample/Services/TaskService.cs:97-98 | `Contains` holds exactly when the query occurs at some position |
| Url.ParseComposed | Widgets/Platforms/iOS/AppDelegate.cs:16 | `scheme://host?name=value` parses back into exactly those parts |
| Url.QueryGetRepeated | Widgets/App.xaml.cs:35-36 | a repeated query name reads back as its values joined with ',' |
| TaskItem.TaskItem.constructor | AppIntents/MauiAppIntentsSample/Models/TaskItem.cs:3-14 | a new task has a fresh id, empty title, medium priority, personal category, nothing optional, is open, and was created now |
| TaskList.IndexOfId | AppIntents/MauiAppIntentsSample/Services/TaskService.cs:29 | the position found is the first task with the id; none exactly when no task has it |
| TaskList.FindById | AppIntents/MauiAppIntentsSample/Services/TaskService.cs:25-31 | the task found has the id; none exactly when no task has it |
| TaskList.CompleteChangesOnlyTheTarget | AppIntents/MauiAppIntentsSample/Services/TaskService.cs:55-65 | completing flags the first task with the id and changes nothing else; with no such task nothing changes |
| TaskList.CompleteIdempotent | AppIntents/MauiAppIntentsSample/Services/TaskService.cs:55-65 | completing twice is completing once |
| TaskList.SetDueDateChangesOnlyTheTarget | AppIntents/MauiAppIntentsSample/Services/TaskService.cs:67-77 | setting a due date changes only that task's due date |
| TaskList.DeleteRemovesOne | AppIntents/MauiAppIntentsSample/Services/TaskService.cs:79-89 | deleting removes exactly the first task with the id and keeps the others in order |
| TaskList.DeleteKeepsIdsUnique | AppIntents/MauiAppIntentsSample/Services/TaskService.cs:79-89 | with distinct ids, the deleted id is gone and the ids stay distinct |
| TaskList.UpdatesKeepIds | AppIntents/MauiAppIntentsSample/Services/TaskService.cs:55-77 | completing and setting a due date keep every id in place |
| TaskList.Where | AppIntents/MauiAppIntentsSample/Services/TaskService.cs:110-116 | `Where` keeps exactly the matching tasks |
| TaskList.WhereMultiset | AppIntents/MauiAppIntentsSample/Services/TaskService.cs:110-116 | `Where` keeps each matching task as often as it occurs, and no other |
| TaskList.ToLowerIdempotent | AppIntents/MauiAppIntentsSample/Services/TaskService.cs:95 | lower-casing twice is lower-casing once |
| TaskList.SearchIgnoresCase | AppIntents/MauiAppIntentsSample/Services/TaskService.cs:95-98 | lower-casing the query first changes nothing: a task matches when its title or notes contain the query ignoring case, and the empty query matches all |
| TaskList.FilterChainSoundAndComplete | AppIntents/MauiAppIntentsSample/Services/TaskService.cs:104-119 | the chained filters keep exactly the tasks meeting every given condition |
| TaskList.OrderByCreatedDesc | AppIntents/MauiAppIntentsSample/Services/TaskService.cs:21 | the ordering has as many tasks as it was given |
| TaskList.OrderSortedPermutation | AppIntents/MauiAppIntentsSample/Services/TaskService.cs:21 | `OrderByDescending(CreatedAt)` is sorted newest first and a permutation of its input |
| TaskList.OrderKeepsMembers | AppIntents/MauiAppIntentsSample/Services/TaskService.cs:21 | the ordering holds exactly the tasks it was given |
| TaskList.OrderIsStable | AppIntents/MauiAppIntentsSample/Services/TaskService.cs:21 | tasks created at the same time keep their relative order |
| TaskService.OrderByCreatedDescIsOrderedFrom | AppIntents/MauiAppIntentsSample/Services/TaskService.cs:21 | the ordering is sorted, a permutation and stable |
| TaskService.NewTask | AppIntents/MauiAppIntentsSample/Services/TaskService.cs:36-44 | an object initializer gives a fresh open task with exactly the given fields |
| TaskService.SeedTasks | AppIntents/MauiAppIntentsSample/Services/TaskService.cs:123-132 | there are five sample tasks |
| TaskService.SeedTasksOpenAndUnique | AppIntents/MauiAppIntentsSample/Services/TaskService.cs:123-132 | the sample tasks are open, and their ids are distinct exactly when the generated ids are |
| TaskService.NewSeedTasks | AppIntents/MauiAppIntentsSample/Services/TaskService.cs:125-131 | five distinct fresh objects, holding the sample tasks in order |
| TaskService.TaskService.View | AppIntents/MauiAppIntentsSample/Services/TaskService.cs:7 | the snapshot holds the current fields of every task, in list order |
| TaskService.TaskService.constructor | AppIntents/MauiAppIntentsSample/Services/TaskService.cs:12-15 | a new service holds exactly the sample tasks, each object once |
| TaskService.TaskService.GetAll | AppIntents/MauiAppIntentsSample/Services/TaskService.cs:17-23 | every task, sorted newest first, stable and a permutation of the list |
| TaskService.TaskService.GetById | AppIntents/MauiAppIntentsSample/Services/TaskService.cs:25-31 | the first task with the id; none exactly when no task has it |
| TaskService.TaskService.Search | AppIntents/MauiAppIntentsSample/Services/TaskService.cs:91-102 | exactly the tasks whose title or notes contain the query ignoring case, newest first and stable |
| TaskService.TaskService.GetFiltered | AppIntents/MauiAppIntentsSample/Services/TaskService.cs:104-119 | exactly the tasks of the given category and priority (open ones unless `showCompleted`), newest first and stable |
| TaskService.TaskService.Create | AppIntents/MauiAppIntentsSample/Services/TaskService.cs:33-53 | one new open task with the given fields is appended and returned; the others are unchanged, and ids stay distinct when the new id is new |
| TaskService.TaskService.Complete | AppIntents/MauiAppIntentsSample/Services/TaskService.cs:55-65 | the result is true exactly when a task has the id, and that task is completed in place |
| TaskService.TaskService.SetDueDate | AppIntents/MauiAppIntentsSample/Services/TaskService.cs:67-77 | the result is true exactly when a task has the id, and its due date is set in place |
| TaskService.TaskService.Delete | AppIntents/MauiAppIntentsSample/Services/TaskService.cs:79-89 | the result is true exactly when a task has the id, and that task is removed |
| TaskPriority.FromRawValue | AppIntents/MauiAppIntentsSample.AppIntents/Sources/Enums/TaskPriority.swift:4-8 | `TaskPriority(rawValue:)` succeeds exactly on 0..3, with a case of that raw value |
| TaskPriority.TitleOr | AppIntents/MauiAppIntentsSample.AppIntents/Sources/Enums/TaskPriority.swift:12-17 | every priority has a display title, and the fallback is never used |
| TaskPriority.RawValueRoundTrip | AppIntents/MauiAppIntentsSample.AppIntents/Sources/Enums/TaskPriority.swift:4-8 | raw value and case convert into each other |
| TaskPriority.EveryCaseHasTitle | AppIntents/MauiAppIntentsSample.AppIntents/Sources/Enums/TaskPriority.swift:12-17 | the titles are Low, Medium, High and Urgent |
| TaskPriority.AgreesWithTaskPriorityLevel | AppIntents/MauiAppIntentsSample/Models/TaskItem.cs:16-22 | the Swift raw values equal the C# enum values |
| TaskCategory.FromRawValue | AppIntents/MauiAppIntentsSample.AppIntents/Sources/Enums/TaskCategory.swift:4-9 | `TaskCategory(rawValue:)` succeeds exactly on 0..4, with a case of that raw value |
| TaskCategory.TitleOr | AppIntents/MauiAppIntentsSample.AppIntents/Sources/Enums/TaskCategory.swift:13-19 | every category has a display title, and the fallback is never used |
| TaskCategory.RawValueRoundTrip | AppIntents/MauiAppIntentsSample.AppIntents/Sources/Enums/TaskCategory.swift:4-9 | raw value and case convert into each other |
| TaskCategory.EveryCaseHasTitle | AppIntents/MauiAppIntentsSample.AppIntents/Sources/Enums/TaskCategory.swift:13-19 | the titles are Work, Personal, Shopping, Health and Fitness |
| TaskCategory.AgreesWithTaskCategoryType | AppIntents/MauiAppIntentsSample/Models/TaskItem.cs:24-31 | the Swift raw values equal the C# enum values |
| BridgeModels.NotesFromWire | AppIntents/MauiAppIntentsSample.AppIntents/Sources/Entities/TaskEntity.swift:45 | empty notes on the wire mean no notes |
| BridgeModels.MinutesFromWire | AppIntents/MauiAppIntentsSample.AppIntents/Sources/Entities/TaskEntity.swift:49 | a negative estimate on the wire means no estimate |
| BridgeModels.NotesRoundTrip | AppIntents/MauiAppIntentsSample.AppIntents/Sources/Bridge/BridgeModels.swift:8 | notes survive the "" sentinel exactly when they are not `Some("")` |
| BridgeModels.MinutesRoundTrip | AppIntents/MauiAppIntentsSample.AppIntents/Sources/Bridge/BridgeModels.swift:12 | an estimate survives the -1 sentinel exactly when it is absent or non-negative |
| TaskEntity.FromBridge | AppIntents/MauiAppIntentsSample.AppIntents/Sources/Entities/TaskEntity.swift:42-51 | the entity copies the bridge fields, decodes the sentinels, and falls back to medium and personal for unknown raw values |
| TaskEntity.Subtitle | AppIntents/MauiAppIntentsSample.AppIntents/Sources/Entities/TaskEntity.swift:32-39 | the subtitle is the priority title and the category title joined by " · " |
| TaskEntity.FromBridgeAll | AppIntents/MauiAppIntentsSample.AppIntents/Sources/Entities/TaskQuery.swift:24 | mapping keeps the length and converts each item |
| TaskEntity.KnownRawValuesSurvive | AppIntents/MauiAppIntentsSample.AppIntents/Sources/Entities/TaskEntity.swift:46-47 | known raw values come through as their own cases |
| AppIntentsBridge.ToBridge | AppIntents/MauiAppIntentsSample/Platforms/iOS/AppIntentsBridge.cs:78-91 | the bridge item copies the fields; present notes and estimates are copied, absent notes become "" and an absent estimate exactly -1 |
| AppIntentsBridge.ToBridgeAll | AppIntents/MauiAppIntentsSample/Platforms/iOS/AppIntentsBridge.cs:24 | `Select(ToBridge)` keeps the length and converts each task |
| AppIntentsBridge.FromSentinel | AppIntents/MauiAppIntentsSample/Platforms/iOS/AppIntentsBridge.cs:61-64 | a raw value counts as given exactly when its `(int)` cast is non-negative, and then it is that cast |
| AppIntentsBridge.EntityRoundTrip | AppIntents/MauiAppIntentsSample/Platforms/iOS/AppIntentsBridge.cs:78-91 | a task crossing to Swift keeps id, title, due date and completion; notes exactly when not `Some("")`; its estimate; and its known enum values |
| AppIntentsBridge.EnumsSurviveTheBridge | AppIntents/MauiAppIntentsSample.AppIntents/Sources/Entities/TaskEntity.swift:46-47 | a known C# enum value arrives as the Swift case of that raw value |
| AppIntentsBridge.SentinelRoundTrip | AppIntents/MauiAppIntentsSample/Platforms/iOS/AppIntentsBridge.cs:41 | an estimate sent as `?? -1` arrives as none exactly when it was none or its cast is negative, and unchanged when it is in 0..`int.MaxValue` |
| AppIntentsBridge.MinusOneIsNoFilter | AppIntents/MauiAppIntentsSample/Platforms/iOS/AppIntentsBridge.cs:61-64 | -1 means "no filter" |
| AppIntentsBridge.AppIntentsBridgeProvider.constructor | AppIntents/MauiAppIntentsSample/Platforms/iOS/AppIntentsBridge.cs:17-20 | the provider wraps the given service |
| AppIntentsBridge.AppIntentsBridgeProvider.GetAllTasks | AppIntents/MauiAppIntentsSample/Platforms/iOS/AppIntentsBridge.cs:22-25 | every task converted, newest first |
| AppIntentsBridge.AppIntentsBridgeProvider.GetTask | AppIntents/MauiAppIntentsSample/Platforms/iOS/AppIntentsBridge.cs:27-31 | the converted task with the id; none exactly when no task has it |
| AppIntentsBridge.AppIntentsBridgeProvider.SearchTasks | AppIntents/MauiAppIntentsSample/Platforms/iOS/AppIntentsBridge.cs:53-56 | exactly the matching tasks converted, newest first |
| AppIntentsBridge.AppIntentsBridgeProvider.GetTasksByFilter | AppIntents/MauiAppIntentsSample/Platforms/iOS/AppIntentsBridge.cs:58-68 | the service's `GetFiltered` result under the decoded filters, converted item by item in the same order and length: exactly the tasks meeting the filters, newest first |
| AppIntentsBridge.AppIntentsBridgeProvider.CreateTask | AppIntents/MauiAppIntentsSample/Platforms/iOS/AppIntentsBridge.cs:33-46 | one task with the decoded fields is appended, and its conversion is returned (never none) |
| AppIntentsBridge.AppIntentsBridgeProvider.CompleteTask | AppIntents/MauiAppIntentsSample/Platforms/iOS/AppIntentsBridge.cs:48-51 | the service's completion, with its result |
| AppIntentsBridge.AppIntentsBridgeProvider.SetDueDate | AppIntents/MauiAppIntentsSample/Platforms/iOS/AppIntentsBridge.cs:70-73 | the service's due-date update, with its result |
| TaskQuery.KnownIds | AppIntents/MauiAppIntentsSample.AppIntents/Sources/Entities/TaskQuery.swift:11-14 | exactly the given ids that name a task (an id is kept iff it is given and known) |
| TaskQuery.KnownIdsAppend | AppIntents/MauiAppIntentsSample.AppIntents/Sources/Entities/TaskQuery.swift:11-14 | the kept ids are in input order: one more id at the end is kept at the end exactly when a task has it |
| TaskQuery.EntitiesIn | AppIntents/MauiAppIntentsSample.AppIntents/Sources/Entities/TaskQuery.swift:11-14 | one entity per known id, for that id's task |
| TaskQuery.EntitiesFor | AppIntents/MauiAppIntentsSample.AppIntents/Sources/Entities/TaskQuery.swift:8-15 | nothing without a provider; otherwise the entity of every id the provider knows, in order, and unknown ids dropped |
| TaskQuery.EntitiesMatching | AppIntents/MauiAppIntentsSample.AppIntents/Sources/Entities/TaskQuery.swift:18-26 | nothing without a provider; otherwise exactly the entities of the matching tasks |
| TaskQuery.SuggestedEntities | AppIntents/MauiAppIntentsSample.AppIntents/Sources/Entities/TaskQuery.swift:29-37 | nothing without a provider; otherwise one entity per task, in the order of `getAllTasks`, covering every task |
| CreateTaskIntent.Dialog | AppIntents/MauiAppIntentsSample.AppIntents/Sources/Intents/CreateTaskIntent.swift:71 | the reply reads "Created '<title>' with <Priority> priority in <Category>" |
| CreateTaskIntent.Answer | AppIntents/MauiAppIntentsSample.AppIntents/Sources/Intents/CreateTaskIntent.swift:57-72 | no created item is `operationFailed`; otherwise the created entity and the dialog |
| CreateTaskIntent.Perform | AppIntents/MauiAppIntentsSample.AppIntents/Sources/Intents/CreateTaskIntent.swift:47-73 | `appNotReady` without a provider; otherwise the sent task is appended and its entity returned with the dialog |
| CreateTaskIntent.OptionalsArriveAsSent | AppIntents/MauiAppIntentsSample.AppIntents/Sources/Intents/CreateTaskIntent.swift:62-63 | notes arrive exactly when not `Some("")`, and an estimate in the parameter's range arrives unchanged |
| CreateTaskIntent.ReturnedEntityIsTheRequest | AppIntents/MauiAppIntentsSample.AppIntents/Sources/Intents/CreateTaskIntent.swift:57-68 | the returned entity is the request: title, priority, category, due date, estimate and notes as given, and open |
| CompleteTaskIntent.Perform | AppIntents/MauiAppIntentsSample.AppIntents/Sources/Intents/CompleteTaskIntent.swift:26-37 | `appNotReady` without a provider; `taskNotFound` exactly when no task has the id; otherwise it is completed and the dialog is "Done! '<title>' has been marked as completed." |
| CompleteTaskIntent.CompletedTaskIsFound | AppIntents/MauiAppIntentsSample.AppIntents/Sources/Intents/CompleteTaskIntent.swift:31 | looking the task up afterwards finds it completed |
| SetDueDateIntent.Perform | AppIntents/MauiAppIntentsSample.AppIntents/Sources/Intents/SetDueDateIntent.swift:20-35 | `appNotReady` without a provider; `taskNotFound` exactly when no task has the id; otherwise its due date is set and the dialog names the task and date |
| SetDueDateIntent.DueDateIsFound | AppIntents/MauiAppIntentsSample.AppIntents/Sources/Intents/SetDueDateIntent.swift:25 | looking the task up afterwards finds the new due date |
| ListTasksIntent.CategoryFilter | AppIntents/MauiAppIntentsSample.AppIntents/Sources/Intents/ListTasksIntent.swift:42 | an absent category reaches C# as "no filter", and a given one as its raw value |
| ListTasksIntent.PriorityFilter | AppIntents/MauiAppIntentsSample.AppIntents/Sources/Intents/ListTasksIntent.swift:43 | an absent priority reaches C# as "no filter", and a given one as its raw value |
| ListTasksIntent.FilterDescription | AppIntents/MauiAppIntentsSample.AppIntents/Sources/Intents/ListTasksIntent.swift:49-58 | "<Category> <Priority>", one of them, or "all" |
| ListTasksIntent.Plural | AppIntents/MauiAppIntentsSample.AppIntents/Sources/Intents/ListTasksIntent.swift:62 | the suffix is empty exactly for one task |
| ListTasksIntent.Perform | AppIntents/MauiAppIntentsSample.AppIntents/Sources/Intents/ListTasksIntent.swift:36-64 | `appNotReady` without a provider; otherwise exactly the entities of the tasks meeting the given filters, and "Found N <desc> task(s)" |
| SearchTasksIntent.Perform | AppIntents/MauiAppIntentsSample.AppIntents/Sources/Intents/SearchTasksIntent.swift:26-42 | `appNotReady` without a provider; otherwise the matching entities, empty exactly when no task matches, with the "No tasks found" or "Found N task(s)" dialog |

## Left out

- JSON encoding and file I/O. A file is a decoded record or `Corrupt`. Exceptions from `File.WriteAllText` and `File.Delete` in the app, which the C# code does not catch, are not modelled.
- Logging, the `lock` in the task service and the `TasksChanged` event. The lock only serialises calls; the event only notifies listeners.
- Concurrency between the two processes, and `Dispatcher.Dispatch` in `App.NotifyMainPageOfIncomingUrl`. Each call is one atomic step.
- Clocks, GUIDs and date formatting. `DateTime.UtcNow`, `ISO8601DateFormatter`, `Guid.NewGuid` and `DateFormatter` become parameters, so the set-due-date dialog takes the formatted date text as a parameter.
- Full URL parsing. NSURL/System.Uri and `ParseQueryString` are reduced to scheme, host and query pairs, with no percent-decoding and no normalisation beyond lower-casing the scheme and the host. A `new Uri` that throws is not modelled.
- Unicode case folding. `ToLowerInvariant` and `OrdinalIgnoreCase` are ASCII-only.
- Dates. They are integers (seconds), and `DateTime`/`NSDate` conversions are the identity.
- Object identity in query results. Queries return snapshots of task fields, not references to the task objects.
- CreateTaskIntent.Perform: the 1...480 range of the estimate parameter is enforced by the Shortcuts UI, not by `perform`, so the model accepts any estimate. The `operationFailed` branch is modelled by `CreateTaskIntent.Answer`: the C# provider never returns nil, so `Perform` cannot reach it.
- ListTasksIntent.Perform: the `showCompleted` default of `false` is the constant `DefaultShowCompleted`, because choosing a parameter's default is done by the intent framework.
- `OpenTaskIntent` (it only opens the app), the shortcuts, intent donation, view models and views. These are UI glue with no logic over the shared state.
- The `IntentError` messages. They are display text only; the model keeps the three error cases.
- `SimpleWidgetView` and the widget configuration UI. Only the entry the provider builds is modelled.
- Provider.DeepLink: its contract states only that the link is non-empty. What the link parses into is stated by `AppDelegate.DeepLinkParses` and `AppDelegate.DeepLinkRoundTrip`.
- TaskService.SeedTasks: its contract states only the count of five. The sample titles, priorities, categories, dates and estimates are given by its definition alone; `TaskService.SeedTasksOpenAndUnique` states that all are open and that their ids are distinct.

The code gives ties in `getBestCounter`/`getBestMessage` to the app (`>=`), so "a widget tap is shown" needs the tap to be stamped strictly later than the app's record. `IncrementCounterIntent.IncrementAdvances` states that strict condition. The app stamps with fractional seconds and the widget without; within one second '.' sorts before 'Z', so the widget record wins against a later app record of the same second (`SharedStorage.SameSecondAppWriteLoses`).

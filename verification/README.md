# PreintHelper logging helpers, modelled in Dafny

This project models the logging helpers of `PreintHelper.swift`, a small iOS
logging façade.

- **`String.logFilePath`** turns a `#file` path into a breadcrumb. The path is
  split on `/`. It is cut at the *last* `SetupProject` component, or not cut
  at all when there is none. The remaining components are joined with `" > "`.
- **`logger`, `logNetwork`, `logError`** write to two sinks. One sink is the
  remote crash-reporting service, which takes a log line or an exception
  record. The other is the console, which takes a delimited block.
  `logNetwork` prints only when `needPrint` is set. It escalates to
  `logError` when `sendNonFatalError` is set.
- **`ViewLogger.body`** logs `"<last path component> OPENED>>>"` when a view
  appears and `"... CLOSED<<<"` when it disappears.

Modules:

- `Components` (`components.dfy`): Foundation's `components(separatedBy:)` and the Swift standard library's `joined(separator:)`, `lastIndex(of:)`, `suffix(_:)` and `last`, as functions, with the split/join round trips.
- `PathFormat` (`path_format.dfy`): `logFilePath` and its properties.
- `Render` (`render.dfy`): how `Int` line numbers are interpolated into messages.
- `Logging` (`logging.dfy`): the sink events, one pure function per entry point giving the events a call appends, and the class `LogSinks` whose methods append them. `LogSinks` keeps one ordered trace; `Remote` and `Console` project out what each sink received.
- `ViewLogging` (`view_logging.dfy`): the lifecycle label and the `onAppear`/`onDisappear` action.

An absolute path such as `/tmp/Other/File.ext` splits into
`["", "tmp", "Other", "File.ext"]`. Without `SetupProject` every component is
kept, the empty first one included, so the breadcrumb is
`" > tmp > Other > File.ext"`; `PathFormat.LogFilePathAbsoluteWithoutMarker`
states that such a breadcrumb starts with `" > "`. `logFilePath` is idempotent
on every input, because a breadcrumb contains no `/`.

## Model

| member | source | states |
|---|---|---|
| `Components.Split` | PreintHelper.swift:18 | `components(separatedBy: "/")` yields one more piece than there are separators, and no piece contains the separator |
| `Components.JoinSplit` | PreintHelper.swift:18 | joining the pieces with the separator gives back the original string, so splitting loses nothing |
| `Components.SplitJoin` | PreintHelper.swift:18 | splitting a join of separator-free pieces gives back exactly those pieces |
| `Components.Join` | PreintHelper.swift:20 | `joined(separator:)` of no pieces is the empty string, and a joined string begins with its first piece |
| `Components.LastIndexOf` | PreintHelper.swift:19 | `lastIndex(of:)` gives an index that holds the element with no later occurrence, and gives nil exactly when the element is absent |
| `Components.Suffix` | PreintHelper.swift:20 | `suffix(n)` has `min(n, count)` elements and they are the last ones of the sequence |
| `Components.Last` | PreintHelper.swift:91 | `last` is nil exactly for an empty sequence and otherwise is its final element |
| `Components.SplitLastIsTail` | PreintHelper.swift:91 | the last piece of `components(separatedBy:)` is the tail of the string after its last separator, or the whole string when there is none |
| `PathFormat.MarkerStart` | PreintHelper.swift:19-20 | `index ?? 0` is a valid index into any non-empty component list |
| `PathFormat.LogFilePathFromLastMarker` | PreintHelper.swift:17-21 | when `SetupProject` is a component at index i with no later occurrence, the breadcrumb is the components from i on joined with " > ", and it begins with `SetupProject` |
| `PathFormat.LogFilePathWithoutMarker` | PreintHelper.swift:18-20 | without `SetupProject` the breadcrumb is every component joined with " > ", with nothing dropped |
| `PathFormat.LogFilePath` | PreintHelper.swift:17-21 | `logFilePath` is defined for every string, and a breadcrumb never contains '/' |
| `PathFormat.LogFilePathIdempotent` | PreintHelper.swift:17-21 | applying `logFilePath` to a breadcrumb returns it unchanged |
| `PathFormat.LogFilePathNestedMarkers` | PreintHelper.swift:19-20 | with two `SetupProject` directories the path is cut at the inner one |
| `PathFormat.LogFilePathAbsoluteWithoutMarker` | PreintHelper.swift:18-20 | without `SetupProject`, an absolute path keeps its empty first component, so its breadcrumb starts with " > " |
| `Render.NatToDecimal` | PreintHelper.swift:38 | a line number renders as a non-empty string of decimal digits with no leading zero |
| `Render.IntToString` | PreintHelper.swift:38 | an `Int` renders with a leading '-' exactly when it is negative, followed by digits |
| `Render.IntRoundTrip` | PreintHelper.swift:38 | the rendered line number reads back as the same number |
| `Render.IntToStringInjective` | PreintHelper.swift:38 | distinct line numbers render differently |
| `Logging.LoggerMessageLineInjective` | PreintHelper.swift:38 | two `logger` remote lines that differ only in the line number are different text, so the line can be read off the message |
| `Logging.SinksPartition` | PreintHelper.swift:38-80 | the model's single trace loses and duplicates nothing: as multisets, the crash reporter's events and the console's events together are exactly the events written (lines 38, 39, 53, 55, 72, 73), so each reaches exactly one sink |
| `Logging.LoggerMessage` | PreintHelper.swift:38 | the remote line of `logger` starts with "log from logger file=" and the breadcrumb, and ends with " logger=" and the items |
| `Logging.NetworkMessage` | PreintHelper.swift:53 | the remote line of `logNetwork` is "log from netowrk log=" followed by exactly the items |
| `Logging.ErrorName` | PreintHelper.swift:72 | the exception name is "log error at " followed by exactly the environment tag |
| `Logging.ErrorReason` | PreintHelper.swift:72 | the exception reason starts with "file=" and the breadcrumb, and ends with " error=" and the items |
| `Logging.SinksAppend` | PreintHelper.swift:38-80 | appending events to the trace appends to each sink separately, in order |
| `Logging.LoggerTrace` | PreintHelper.swift:37-47 | `logger` appends exactly two events: first one remote log line "log from logger file=<breadcrumb> Function=<f> Line=<l> logger=<items>", then one console block with breadcrumb, function, line, column and items |
| `Logging.ErrorTrace` | PreintHelper.swift:70-80 | `logError` appends exactly two events: first one exception record named "log error at <env>" with reason "file=<breadcrumb> Function=<f> Line=<l> error=<items>", then one console block |
| `Logging.NetworkTrace` | PreintHelper.swift:52-65 | `logNetwork` always begins with the remote line "log from netowrk log=<items>"; it prints a console block iff `needPrint`; it produces an exception record iff `sendNonFatalError`; it sends 1 or 2 remote events and 0 to 2 console blocks accordingly |
| `Logging.NetworkOwnSinks` | PreintHelper.swift:53-60 | the events `logNetwork` writes itself are one remote line and, when printing, one console block, and none is an exception record |
| `Logging.NetworkSinks` | PreintHelper.swift:53-64 | the remote and console events of `logNetwork` are its own line (and block, if printed) followed by those of the escalation |
| `Logging.LoggerRemoteOmitsColumn` | PreintHelper.swift:38-43 | the remote line of `logger` is the same for every column, while the console block differs exactly when the column does |
| `Logging.NetworkEscalatesToError` | PreintHelper.swift:62-64 | with `sendNonFatalError`, `logNetwork` does what it does without it, followed by exactly `logError` with the same items, file, function and line |
| `Logging.NetworkDefaultsAreQuiet` | PreintHelper.swift:52-60 | with default flags `logNetwork` writes one remote log line and nothing to the console |
| `Logging.LogSinks.Logger` | PreintHelper.swift:37-48 | the call appends `LoggerTrace` to the trace, one line to the remote sink and one block to the console, and leaves earlier events as they were |
| `Logging.LogSinks.LogError` | PreintHelper.swift:70-81 | the call appends `ErrorTrace` to the trace, one exception record to the remote sink and one block to the console |
| `Logging.LogSinks.LogNetwork` | PreintHelper.swift:52-65 | the call appends `NetworkTrace`, calling `LogError` for the escalation; the remote sink grows by 1 or 2 and the console by 0 to 2 according to the flags |
| `ViewLogging.FileName` | PreintHelper.swift:91 | `components(separatedBy: "/").last` is never nil, so the `?? file` fallback is never taken, and the name contains no '/' |
| `ViewLogging.Tag` | PreintHelper.swift:94-97 | shape facts only about the two literal tags " OPENED>>>" and " CLOSED<<<": each is ten characters, starts with a space and has no '/' |
| `ViewLogging.ViewLabel` | PreintHelper.swift:94-97 | every label ends with the lifecycle tag |
| `ViewLogging.ViewLabelNamesLeaf` | PreintHelper.swift:91-97 | the label is the part of the file path after its last '/' (the whole path if it has none) followed by " OPENED>>>" or " CLOSED<<<" |
| `ViewLogging.LogLifecycle` | PreintHelper.swift:90-99 | appearing or disappearing makes exactly one `logger` call with the label as items and the view's captured call site |

## Left out

- The crash-reporting SDK (`Crashlytics.crashlytics()`, lines 38, 53 and 72) is an external service. Its calls are modelled only as events appended to the remote sink. Its failures are not modelled; the source neither handles nor reports them.
- `ProjectConfiguration.shared.environment` is not part of this model. Its tag is a parameter of `LogError` and `LogNetwork`, read per call as the source reads it per call.
- The SwiftUI glue (`ViewLogger` as a `ViewModifier`, `View.logging`, lines 84-107) is UI-framework code. Only the label and the logged call are kept.
- `#file`, `#function`, `#line` and `#column` are compile-time captures. Here they are explicit parameters.
- The generic payload `T` is given already rendered as a `string`.
- Console blocks are events carrying their fields. The emoji delimiters and the line layout are not rendered. `logNetwork`'s `separator` and `terminator` arguments only affect that layout.
- Swift's `Int` is 64 bits wide; line and column numbers here are unbounded integers. `#line` values never approach the bound.
- The commented-out `NSError` path (line 71) and the unused enums `ErrorDomains` and `FirebaseErrorCode` (lines 109-121) are dead code.
- Thread safety and interleaving of console output are concurrency matters. The source does not implement them, so the model does not claim them.
- Strings are modelled as sequences of Unicode code points. Swift compares `String` and `Character` values by grapheme cluster under canonical equivalence, which is not captured: `"a/\u{301}b"` need not split at its '/' in Swift (the '/' and the combining accent form one `Character`), while `Split` splits it. For the ASCII path separator and `SetupProject` marker on ordinary paths the two comparisons agree.

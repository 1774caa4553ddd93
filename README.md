# clog in Dafny

A model of `clog`, a small leveled logger for Go. The model covers four parts:

- **Levels.** A log level is a 32-bit unsigned severity, from Fatal (0) to Debug (4). It has a lower-case name, and a parser turns names back into levels.
- **The record formatter.** It builds one line of text per call:
  - the timestamp, padded to 25 columns;
  - the upper-cased level name, padded to 5 columns;
  - the context tag in brackets;
  - the message, with CR and LF spelled out as `\r` and `\n`;
  - unless the call stack is hidden, ` (file:line)`, where `file` is shortened to what follows its last `/` past the first character.
- **The `Clog` logger.** It holds the threshold, the output writer, the hide-callstack flag and the context formatter. Its setters change one field each. Its leveled calls (`Debug` … `Fatal`) compare their severity with the threshold, and either write one line or do nothing.
- **The unit tests of the package.** The steps of `TestClog` that write through a logger become methods: `DefaultLevelScenario`, `DebugLevelScenario`, `LogfScenario` and `HiddenCallstackScenario`. Each method's contract states the record the step writes. The regular expression of the last step is matched by the record that the lemma `WarnRecordLayout` gives. `TestReplacer` becomes the lemma `EscapeLines`. Two parts of `TestClog` depend on `fmt.Sprintf` and are not modelled: the `%d` step, and the `%v` arguments of the `Logf` step, which the model takes with the message already formatted (see "## Left out").

The files:

- `wrappers.dfy` holds `Option`.
- `levels.dfy` holds the `Level` newtype, `String`, `StringToLevel`, `DebugEnabled` and the threshold test. It models `level.go`; the same declarations also open `clog.go`.
- `format.dfy` is the pure formatter. It has the `hideCallstack` parameter of `format.go`'s free function. It shortens the file name the way the loop in `clog.go` does.
- `logger.dfy` holds the `Clog` class, a `Writer` class standing for `io.Writer`, and the short-file loop as a method. `Clog.FormatOutputLine` is proved equal to `Format.FormatOutput`.

Inputs the logger takes from its environment become parameters:

- the formatted clock reading, `now`;
- the result of the call-stack lookup, `caller: Option<Location>`, where `None` means the lookup failed;
- the package variable `globalLogLevel`.

The context type is a type parameter, `Ctx`. A ghost counter `formatterCalls` records every call to the context formatter. It is how the model shows that a filtered-out call never asks the formatter for a tag.

## Model

| member | source | states |
|---|---|---|
| Levels.LevelString | level.go:35-50 | total; the result is one of the six names, and it is "unknown" exactly for values above Debug |
| Levels.StringToLevel | level.go:52-67 | the result is always a named level; a result other than Info comes only from "fatal", "error", "warn", "warning" or "debug" |
| Levels.DebugEnabled | level.go:30-33 | holds iff the global level lets Debug records through, i.e. iff it is Debug or an unnamed value above it |
| Levels.LevelsStrictlyOrdered | level.go:10-21 | Fatal = 0 < Error < Warn < Info < Debug = 4 |
| Levels.LevelStringInjective | level.go:35-50 | the five named levels have pairwise distinct names |
| Levels.LevelRoundTrip | level.go:35-67 | parsing the name of a named level gives that level back |
| Levels.UnknownLevelParsesToInfo | clog.go:41-73 | a value above Debug prints as "unknown", which parses as Info |
| Levels.ParsedLevelPrintsKnown | level.go:52-67 | the name of a parsed level is never "unknown", and parsing it again gives the same level |
| Levels.StringToLevelExact | level.go:52-67 | for each level other than Info: a string parses to it iff the string is its name (or "warning", for Warn) |
| Levels.StringToLevelDefault | level.go:52-67 | every string that is not a non-Info name parses to Info |
| Levels.StringToLevelExamples | level.go:52-67 | "warning" is Warn; "", "DEBUG" and "Warn" are Info (the match is case-sensitive) |
| Levels.Enabled | clog.go:154 | the admission test of `levelContextLog`, with no contract of its own: `EnabledMonotone` and `EnabledExtremes` state which thresholds admit which levels, and `Clog.LevelContextLog` states what an admitted call and a refused call do |
| Levels.EnabledMonotone | clog.go:153-156 | a more verbose threshold lets through everything a less verbose one does |
| Levels.EnabledExtremes | clog.go:153-156 | Fatal passes every threshold; Debug passes only thresholds at Debug or above |
| Levels.InitialGlobalLevelFilters | level.go:23-33 | the global level starts at Info: Debug is off, and the other four named levels are on |
| Format.Escape | format.go:15 | the escaped message contains no raw CR or LF |
| Format.EscapeSingle | clog.go:115 | CR becomes backslash-r, LF becomes backslash-n, and every other character stays as it is |
| Format.EscapeAppend | format.go:15 | escaping works character by character: escaping a concatenation is concatenating the escapes |
| Format.EscapeLength | clog.go:115 | the escaped length is the input length plus the number of CRs and LFs |
| Format.EscapeIdentity | format.go:15 | a string without CR or LF is left unchanged |
| Format.EscapeIdempotent | format.go:15 | escaping twice is escaping once |
| Format.EscapeNotInjective | format.go:15 | a raw LF and the two characters backslash-n escape to the same text |
| Format.EscapeAround | format.go:21 | a line break between two pieces without breaks becomes its two-character spelling |
| Format.EscapeMessageWithBreaks | format.go:21 | a message `l1 LF l2 CR l3` becomes `l1 \n l2 \r l3` on one line |
| Format.EscapeLines | clog_test.go:59-67 | the replacer test: `LF x LF y LF z LF` becomes `\n x \n y \n z \n` |
| Format.Upper | format.go:25 | same length as the input, each ASCII lower-case letter upper-cased and every other character kept |
| Format.LevelField | format.go:24-25 | the level column text: 4 or 5 letters for the named levels, "UNKNOWN" for all others, never a line break |
| Format.LevelFieldIsUpper | format.go:25 | the level column text is `strings.ToUpper(level.String())` |
| Format.Pad | format.go:24 | `%-Ns`: the result has length max(N, len), starts with the input, and is filled with spaces; it never truncates |
| Format.PadNoLineBreak | format.go:24 | `%-Ns` padding neither adds nor removes a line break |
| Format.Digits | format.go:34 | at least one character long |
| Format.DigitsWellFormed | format.go:34 | the digits are all decimal digits, without a leading zero |
| Format.DigitsNoLineBreak | format.go:34 | a run of decimal digits contains no CR or LF |
| Format.DigitsRoundTrip | format.go:34 | reading the digits back gives the number |
| Format.Decimal | format.go:34 | `%d` is at least one character long |
| Format.DecimalRoundTrip | format.go:34 | `%d` reads back to the number, with a leading '-' exactly for negative numbers, and has no line break |
| Format.ResolveCaller | format.go:27-31 | a successful lookup is used as it is; a failed one becomes file "???" and line 0 |
| Format.LastSlash | clog.go:133-138 | the index where the short-file loop stops: 0, or a '/' at index at least 1 with no '/' after it |
| Format.LastSlashIsLast | clog.go:133-138 | no '/' follows the index where the loop stops |
| Format.ShortFile | clog.go:133-138 | the short name is a suffix of the path |
| Format.ShortFileNoSlash | clog.go:133-138 | the short name has no '/' after its first character, and none at all when the path was shortened |
| Format.ShortFileAfterLastSlash | clog.go:133-138 | with a '/' at some index k of at least 1 and none after it, the short name is what follows k |
| Format.ShortFileKeepsPath | clog.go:133-138 | without a '/' past the first character (a lone leading '/' included), the path is kept whole |
| Format.ShortFileExamples | clog.go:133-138 | "/home/u/app/main.go" gives "main.go"; "/main.go", "???" and "" are kept |
| Format.Layout | format.go:24 | `"%-25s %-5s [%s] %s"`, with no contract of its own: `LayoutLevelColumns` and `LayoutMessageColumns` state where each field sits, and `LayoutNoLineBreak` states that the layout neither adds nor hides a line break |
| Format.LayoutLevelColumns | format.go:24-25 | in `%-25s %-5s …` the timestamp opens the line, and the level text sits in full after it and a space |
| Format.LayoutMessageColumns | format.go:24-25 | the tag sits in brackets and the text follows it; the text starts at least 35 plus the tag's length in |
| Format.FormatOutput | format.go:17-36 | `formatOutput`, with no contract of its own. Its meaning comes from five lemmas: `HiddenForm` gives the exact hidden-stack record, `ShownExtendsHidden` says the shown record is that record plus the location, `HiddenColumns` and `ShownColumns` say where each field sits, and `FormatOutputShape` gives its length and ends |
| Format.FormatOutputShape | format.go:17-36 | the record is at least 35 + tag + message characters long and starts with the timestamp; it ends with the escaped message when the stack is hidden, and with ')' when it is shown |
| Format.HiddenForm | format.go:23-26 | hidden stack: exactly pad(now, 25) + " " + pad(upper(level.String()), 5) + " [" + tag + "] " + escaped message |
| Format.ShownExtendsHidden | format.go:27-35 | shown stack: the hidden-form line followed by " (" + short file + ":" + line + ")" |
| Format.HiddenIgnoresCaller | format.go:23-26 | with the stack hidden, the result of the caller lookup has no influence |
| Format.LocationSuffix | format.go:34 | `" (%s:%d)"` of the short file and the line, with no contract of its own: `UnknownLocationSuffix` gives its value after a failed lookup, `LocationSuffixNoLineBreak` states that it has a line break exactly when the short file name has, and `DecimalRoundTrip` and the `ShortFile` lemmas give its parts |
| Format.UnknownLocationSuffix | format.go:28-31 | a failed lookup is shown as " (???:0)" |
| Format.FailedLookupSuffix | format.go:27-35 | a record after a failed lookup is the hidden form followed by " (???:0)" |
| Format.HiddenColumns | format.go:23-26 | the level, tag and message columns of a hidden-stack record |
| Format.ShownColumns | format.go:34-35 | the level, tag and message columns of a shown-stack record |
| Format.LevelColumnHoldsName | format.go:24-25 | the level text appears in full in its column, however long it is: UNKNOWN keeps all seven letters |
| Format.MessageColumnHoldsMessage | format.go:24-25 | the tag sits in brackets, and the escaped message follows it at the message column |
| Format.LayoutNoLineBreak | format.go:24 | the laid-out line has a line break exactly when one of its four fields has |
| Format.LocationSuffixNoLineBreak | format.go:34-35 | ` (file:line)` contains a line break exactly when the short file name does, and never when the whole path has none |
| Format.LineHasNoLineBreak | format.go:21-35 | only the message is escaped: the record is free of CR and LF exactly when the timestamp, the tag and, if the location is shown, the short file name are |
| Format.DirectoryBreakDropped | format.go:33-35 | a line break in the directory part of the path does not reach a record that shows the location |
| Format.WarnRecordLayout | clog_test.go:51-54 | a hidden-stack Warn record of a break-free message is `pad(now, 25) WARN  [tag] msg`, the line the test's regular expression matches |
| Format.UnknownLevelRecord | format.go:24-25 | an unnamed level prints as UNKNOWN, two characters past the width |
| Logger.Writer.Write | clog.go:145 | a write appends its text to what the writer has received |
| Logger.Fprintln | clog.go:145 | `fmt.Fprintln` writes the line and a newline once |
| Logger.ShortFileName | clog.go:132-138 | the backwards loop computes `ShortFile` |
| Logger.Clog.constructor | clog.go:86-95 | the threshold is the global level and the output is stdout; the stack is shown; the formatter answers "-" to every context; no formatter call yet |
| Logger.Clog.CurrentLevel | clog.go:96-98 | returns the threshold |
| Logger.Clog.SetLevel | clog.go:100-103 | the threshold becomes the given level; nothing else changes |
| Logger.Clog.SetLevelByString | clog.go:105-108 | the threshold becomes `StringToLevel(s)`; nothing else changes |
| Logger.Clog.SetContextFormatter | clog.go:110-113 | the formatter becomes the given function; nothing else changes |
| Logger.Clog.SetOutput | clog.go:187-191 | the output becomes the given writer and the receiver is returned; nothing else changes |
| Logger.Clog.HideCallstack | clog.go:193-197 | the flag is set and the receiver is returned; nothing else changes |
| Logger.Clog.FormatOutputLine | clog.go:117-141 | the method's line equals `FormatOutput` with the logger's own flag |
| Logger.Clog.Log | clog.go:143-146 | appends exactly one record plus newline whatever the threshold, using the tag as given |
| Logger.Clog.Logf | clog.go:148-151 | appends exactly one record plus newline whatever the threshold, using the tag as given |
| Logger.Clog.LevelContextLog | clog.go:153-160 | if the threshold admits the level: one record, with the formatter's tag, is appended and the formatter is called once; otherwise the output is unchanged and the formatter is not called |
| Logger.Clog.Debug | clog.go:162-165 | `LevelContextLog` at Debug |
| Logger.Clog.Info | clog.go:167-170 | `LevelContextLog` at Info |
| Logger.Clog.Warn | clog.go:172-175 | `LevelContextLog` at Warn |
| Logger.Clog.Error | clog.go:177-180 | `LevelContextLog` at Error |
| Logger.Clog.Fatal | clog.go:182-185 | `LevelContextLog` at Fatal, which every threshold admits: always one record, and the program goes on |
| Logger.DefaultLevelScenario | clog_test.go:27-31 | at the initial level a Debug call writes nothing, and an Info call writes exactly its record tagged "-" |
| Logger.DebugLevelScenario | clog_test.go:38-40 | after `SetLevelByString("debug")` a Debug call writes its record |
| Logger.LogfScenario | clog_test.go:42-45 | `Logf` writes its record with the given tag, even below the threshold |
| Logger.HiddenCallstackScenario | clog_test.go:48-54 | a new logger with the stack hidden writes one Warn record with no location |

## Left out

- The clock: `time.Now().Format(...)` becomes the string parameter `now`. The model does not capture the layout's trimming of trailing zeros.
- `runtime.Caller`: the lookup becomes the parameter `caller`. The frame depths 3 and 4 passed by `Log` and `levelContextLog` are not modelled.
- `fmt.Sprintf(format, args...)`: the leveled calls and `Logf` take the message already formatted. Go applies `Sprintf` to the message even when no arguments are given. That rewrites a stray `%` in the text, and the model does not capture it.
- Logger.Clog.Logf: states the write for an already-formatted message only, because the format verbs and the variadic arguments are not modelled.
- `filepath.Base` in format.go:33 is replaced by the loop of clog.go:133-138. One formatter family is kept, and the loop is the code available to verify. The two differ:
  - on a trailing '/': Base gives the last element, the loop gives "";
  - on the empty path: Base gives ".", the loop gives "";
  - on a lone leading '/', as in "/main.go": Base drops it, the loop keeps it.
- `strings.ToUpper` is modelled on ASCII letters only. This is exact here, because it is applied only to the level names.
- Strings are sequences of characters. Column widths count characters, as Go's `%-Ns` counts runes. Byte encoding is not modelled.
- The atomic load and store of the level become a plain field read and write. Concurrency is out of scope.
- A nil writer or a nil context formatter: Go accepts `SetOutput(nil)` and `SetContextFommatter(nil)`. It then panics at the next write (clog.go:145, :150, :159) or at the next admitted leveled call (clog.go:158). The model's `output` is a non-null `Writer` and its `ctxFmt` a total function, so neither state can arise.
- The `%d` step of `TestClog` (clog_test.go:33-35): it checks `fmt.Sprintf`'s substitution, which is not modelled.
- Write errors: `Writer` accepts every write. `fmt.Fprintln`'s ignored error has no counterpart.
- `GlobalLevel()` and the package variable `globalLogLevel`: the variable becomes a parameter of the constructor and of `DebugEnabled`, and `InitialGlobalLevel` is its initial value. `GlobalLevel` itself would be the identity on that parameter.
- The package-level forwarders (clog.go:199-250) and logger.go: thin wrappers around one default `Clog`.
- context.go: `DefaultContextFormatter` is the same constant "-" formatter the constructor installs.
- `Level.String` and `StringToLevel` in clog.go:41-73 repeat those of level.go and are modelled once.
- lumberjack_test.go and the examples directory: file rotation through an external library, outside the logger.

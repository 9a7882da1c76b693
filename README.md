# awslogcheck core, modelled in Dafny

awslogcheck reads the last hour of a CloudWatch Logs group that carries fluentd
Kubernetes envelopes. It drops every line that matches one of the loaded rule
patterns. It excludes whole streams whose pod runs an ignored image or container.
It mails what remains as HTML reports cut into chunks of bounded size.

This project models the current pipeline of `internal/app` and `internal/configapp`:

- `configapp.dfy`: the configuration records, the two "transport configured" checks and `GetRulesDir`.
- `matchers.dfy`: the rule matcher and the two ignore-list matchers, over an abstract regex engine.
- `rulefiles.dfy`: what `LoadRules` reads. The rules directory walk is an ordered list of entries. `bufio.Scanner` is modelled with `ScanLines`.
- `aggregation.dfy`: decoding events, the rule check, stream poisoning and the per-stream buckets (`streamEvents`). The buckets are compared with a reference reading of the whole input.
- `fetch.dfy`: the `FilterLogEvents` paging loop and the recursive `findLogGroup`. Both consume oracle answers, one per call.
- `report.dfy`: sorted stream keys, timestamp sort and the report lines the producer pushes.
- `chunking.dfy`: the report writer's chunking state machine, with its invariant and the bodies it sends.
- `mail.dfy`: the mail transports as SendReport sees them. A `Mailer` object records every `Send` call and answers it from an oracle.
- `app.dfy`: the `App` object. It covers `New`, `LoadRules` (which appends to the `rules` field), `SendReport`, the writer `collectLinesOfReportAndSendReport` and the sequentialised `LogCheck`.

These collaborators are parameters of the model:
- the regex engine (`compiles`, `matches`);
- JSON decoding (`decode`, None on malformed input);
- the rate limiters and the context (one boolean per call);
- the AWS clients (`FetchStep` and `DescribeStep` sequences);
- the UTC time formatter (`fmt`);
- `net.SplitHostPort` (`split`);
- `os.Stat` (`stat`) and the directory of the binary (`binDir`);
- the network answer to the n-th mail `Send` (`Mailer.accepts`);
- the outcome of `GetTimeStampMsRangeofLastHour` (`timeRange`).

The model follows the code where the code and its comments or tests suggest otherwise:
- `GetRulesDir` never yields an empty path, so the `ErrNoRulesFolder` branch of `LoadRules` is dead. The model proves this and does not return the error. A configuration with an empty `RulesDir` goes to the next-to-the-binary branch.
- `GetRulesDir` returns the candidate path when `os.Stat` fails for a reason other than "does not exist". `LoadRules` then makes its own `os.Stat` call on that path (app.go:70). The model gives both calls the same `stat` answer, so that call fails too.
- Blank lines of a rule file become empty rules.
- A poisoned bucket still receives events. They are discarded only when the report is written.
- `LogCheck` returns a formatted "not found" error, not the `ErrLogGroupNotFound` sentinel. The model's `LogGroupNotFound` stands for that error.
- `logcheck.go` as shown does not compile against its neighbours:
  - it calls `findLogGroup` without the context argument;
  - it reads `SmtpConfig.MaxReportSize` where the field is `SMTPConfig`.

  The model takes the evident intent: the lookup as in `cloudwatchlogs.go`, and the limit of the SMTP section.

## Model

| member | source | states |
|---|---|---|
| ConfigApp.IsMailGunConfigured | internal/configapp/configapp.go:71-73 | Both the API key and the domain are set. Its property, agreement with the check `NewMailgunService` makes, is carried by App.MailgunConfiguredIffServiceBuilds. |
| ConfigApp.IsSMTPConfigured | internal/configapp/configapp.go:76-78 | Login, password and server set and a non-zero port. What it leaves to `NewSMTPService` is carried by App.SmtpConfiguredServiceRefusesOnlyAddress. |
| ConfigApp.GetRulesDir | internal/configapp/configapp.go:82-98 | An explicit rules directory is returned unchanged. Otherwise it returns the binary's directory + separator + "rules"; that path is `ErrRulesDirNotFound` only when stat says it does not exist, and an absolute-path failure is an error. A path returned is never empty. |
| App.MailgunConfiguredIffServiceBuilds | internal/configapp/configapp.go:71-73 | `IsMailGunConfigured` (API key and domain both set) holds exactly when `NewMailgunService` accepts the pair, so SendReport never returns the service-creation error. |
| App.SmtpConfiguredServiceRefusesOnlyAddress | internal/configapp/configapp.go:76-78 | Once `IsSMTPConfigured` holds (login, password and server set, port non-zero), `NewSMTPService` refuses only when `server:port` does not split into a non-empty host and port. |
| Matchers.IsLineMatchWithOneRule | internal/app/app.go:193-205 | True iff some rule that compiles matches the line; rules that do not compile are skipped; an empty rule list gives false. |
| Matchers.AnyPatternMatches | internal/app/app.go:163-191 | The MustCompile loop shared by both ignore checks: true iff some pattern of the list matches; an empty list gives false. |
| Matchers.IsImageIgnored | internal/app/app.go:163-173 | True iff some image pattern matches the image. Every pattern must compile. |
| Matchers.IsContainerIgnored | internal/app/app.go:175-191 | True iff some container-name pattern matches the name. Every pattern must compile. |
| Matchers.RuleMatcherAgreesWhenAllCompile | internal/app/app.go:163-205 | When every rule compiles, the skipping matcher and the MustCompile matcher give the same answer. |
| Matchers.InvalidRuleIsInert | internal/app/app.go:194-202 | Removing a rule that does not compile, wherever it is in the list, changes no answer. |
| RuleFiles.ScanLines | internal/app/app.go:87-93 | The tokens `bufio.Scanner` yields with ScanLines, one per line, a final `\r` dropped. Its properties are carried by RuleFiles.ScanLinesRoundTrip (every line kept, nothing added), RuleFiles.ScanLinesCount (one token per newline plus an unterminated tail) and RuleFiles.ScanLineIsFirstToken (the step-by-step loop yields it). |
| RuleFiles.Walk | internal/app/app.go:74-100 | The rules the walk callback appends and whether it returned an error. Its properties are carried by RuleFiles.WalkCharacterization and RuleFiles.WalkStopsAtFailure. |
| RuleFiles.IndexOfNewline | internal/app/app.go:87-93 | The index of the first newline, or the length when there is none; no newline before it. |
| RuleFiles.ScanLine | internal/app/app.go:87-93 | One `Scan` on non-empty input consumes at least one character and no more than the input. |
| RuleFiles.ScanLineIsFirstToken | internal/app/app.go:87-93 | The token of one `Scan` call is the first of the scanned lines, and the rest of the lines come from the input after it. |
| RuleFiles.ScanLinesRoundTrip | internal/app/app.go:87-93 | Without carriage returns, joining the scanned lines with newlines gives the file back, plus a final newline if it lacked one. So every line is kept, blank lines included, and nothing else is produced. |
| RuleFiles.ScanLinesCount | internal/app/app.go:87-93 | The number of rules from a file is its number of newlines, plus one for a last line without a newline. |
| RuleFiles.WalkCharacterization | internal/app/app.go:74-100 | The walk fails iff some entry fails. Without a failure it yields the lines of all regular files in walk order. With one, it yields those of the files before the first failing entry. |
| RuleFiles.WalkStopsAtFailure | internal/app/app.go:74-100 | Entries after the first failing one are not looked at. |
| RuleFiles.WalkTwoFiles | internal/app/app.go:74-96 | A root directory, two files and a sub-directory yield the two files' lines in order; directories contribute nothing. |
| RuleFiles.DebugInfoTraceGiveThreeRules | internal/app/app_test.go:46-68 | Files `^DEBUG:.*\n^INFO:.*\n` and `^TRACE:.*\n` next to a sub-directory give exactly the three rules, in file order. |
| RuleFiles.EmptyFileNoRuleBlankLineKept | internal/app/app_test.go:96-108 | An empty file gives no rule, and a blank line inside a file gives an empty rule. |
| Aggregation.GetOrCreateStream | internal/app/cloudwatchlogs.go:194-206 | The stream's bucket exists afterwards. An existing bucket is kept; a new one is empty, unpoisoned and named after the stream; no other key changes. |
| Aggregation.ProcessLogEvent | internal/app/cloudwatchlogs.go:176-192 | One event touches no bucket other than its own stream's. |
| Aggregation.ProcessUnmatchedLogLine | internal/app/cloudwatchlogs.go:208-223 | An ignored image or container sets the flag and drops the event, otherwise the event is added. Its properties are carried by Aggregation.PoisonedStep (the flag is set only this way and never cleared), Aggregation.AcceptedStep (what is appended) and Aggregation.BucketStep. |
| Aggregation.AddEventToStream | internal/app/cloudwatchlogs.go:225-238 | The event is appended and the header replaced while its image is empty. Its property is carried by Aggregation.HeaderOfAppend with Aggregation.BucketStep (the header is the first appended identity with a non-empty image, else the last appended one). |
| Aggregation.ObserveAllAppend | internal/app/cloudwatchlogs.go:168-174 | Processing two batches one after the other is processing their concatenation. |
| Aggregation.FirstImageIndex | internal/app/cloudwatchlogs.go:226-232 | The first identity with a non-empty image; every identity before it has an empty image. |
| Aggregation.HeaderOfAppend | internal/app/cloudwatchlogs.go:225-238 | Appending an event changes the reference header exactly as addEventToStream does: it is replaced while the recorded image is empty. |
| Aggregation.HeaderOfEmptyImage | internal/app/cloudwatchlogs.go:226-232 | The header's image is empty iff no appended event had a non-empty image. |
| Aggregation.ObserveAllAt | internal/app/cloudwatchlogs.go:176-238 | The buckets built event by event are the reference buckets. A bucket exists iff a well-formed event of the stream arrived, even one whose lines all matched rules. It holds every event of that stream that passed both filters, in order, including those after it was poisoned. It is poisoned iff one of its events that matched no rule came from an ignored image or container. Its header is the first appended event with a non-empty image, else the last appended one. |
| Aggregation.BucketStep | internal/app/cloudwatchlogs.go:176-238 | One processLogEvent call keeps a bucket in agreement with the reference reading. |
| Aggregation.SeenStep | internal/app/cloudwatchlogs.go:176-189 | A stream gets a bucket iff it already had one or this event of the stream decodes. |
| Aggregation.PoisonedStep | internal/app/cloudwatchlogs.go:208-223 | A stream becomes poisoned iff it already was, or this event passed the rules and came from an ignored container; the flag is never cleared. |
| Aggregation.AcceptedStep | internal/app/cloudwatchlogs.go:208-238 | An event is appended to its own stream iff it decodes, matches no rule and comes from no ignored container; identities follow the same events. |
| Aggregation.UnseenIsEmpty | internal/app/cloudwatchlogs.go:176-192 | A stream without a well-formed event has no appended event. |
| Aggregation.AcceptedPassRules | internal/app/cloudwatchlogs.go:187-191 | No appended line is matched by a compiling rule. |
| Aggregation.AcceptedComeFromInput | internal/app/cloudwatchlogs.go:225-238 | Every appended event carries the timestamp and decoded line of an input event of that stream that passed both filters. |
| Fetch.CheckContextAndRateLimit | internal/app/cloudwatchlogs.go:155-166 | No error iff the context is live and the limiter lets the call through. A done context wins over the limiter. |
| Fetch.FirstStop | internal/app/cloudwatchlogs.go:108-153 | The iteration the loop ends on is the first that stops it. |
| Fetch.ProcessEventsInPage | internal/app/cloudwatchlogs.go:168-174 | Every event of the page is counted, malformed ones included, and processed in order. |
| Fetch.FetchAndProcessAllEvents | internal/app/cloudwatchlogs.go:108-153 | The loop ends on the first iteration that is cancelled, is refused by the limiter, fails, or ends the listing (empty page with nil token, or nil token). Its error is that iteration's. An error comes with no buckets. The count is the number of processed events. Without error the buckets are those of every processed event. An empty page with a token goes on. |
| Fetch.FirstStopPrefix | internal/app/cloudwatchlogs.go:116-145 | No call is made after the one the loop stops on: answers after it change nothing. |
| Fetch.ParseAllEventsWithFilter | internal/app/cloudwatchlogs.go:83-91 | A fetch error yields no line and a zero count. Otherwise the lines are the report of the buckets and the count is their number of event lines. |
| Fetch.FindLogGroup | internal/app/cloudwatchlogs.go:17-43 | One recursive call per page, exact name comparison, a limiter error reads as not found, a listing error ends the process. Its property is carried by Fetch.FindLogGroupCharacterization. |
| Fetch.FindLogGroupCharacterization | internal/app/cloudwatchlogs.go:17-43 | Found iff some page the recursion reaches lists the exact name. Exited (os.Exit) iff a reached listing call fails after the limiter let it through. Otherwise not found: the limiter refused a call, or the last page had no token. |
| Fetch.ReportedStreams | internal/app/cloudwatchlogs.go:240-259 | A stream is in the report iff none of its rule-surviving events came from an ignored container and at least one event was appended. Its written bucket is its reference bucket. |
| Report.StrLessTransitive | internal/app/cloudwatchlogs.go:261-268 | The byte-wise order of `sort.Strings` is transitive. |
| Report.StrLessTotal | internal/app/cloudwatchlogs.go:261-268 | Two different keys are always ordered. |
| Report.InsertSorted | internal/app/cloudwatchlogs.go:261-268 | Inserting a new key keeps the list strictly sorted and adds exactly that key. |
| Report.SortedUnique | internal/app/cloudwatchlogs.go:261-268 | Two strictly sorted lists of the same keys are equal, so the report does not depend on the map's iteration order. |
| Report.SortedKeys | internal/app/cloudwatchlogs.go:261-268 | The keys of a set in strictly ascending order, each exactly once. |
| Report.GetSortedStreamKeys | internal/app/cloudwatchlogs.go:261-268 | The map's keys, strictly ascending, one per bucket. |
| Report.InsertByTimestamp | internal/app/cloudwatchlogs.go:275-277 | Inserting an event keeps the timestamps non-decreasing and adds exactly that event. |
| Report.SortByTimestamp | internal/app/cloudwatchlogs.go:275-277 | The events in non-decreasing timestamp order, a permutation of the bucket. |
| Report.GoDiv | internal/app/cloudwatchlogs.go:280 | Go's integer division truncates toward zero: for a dividend a ≥ 0, q·b ≤ a < q·b + b; for a < 0, q·b − b < a ≤ q·b. |
| Report.EventLinesAt | internal/app/cloudwatchlogs.go:279-282 | Line i is the line of event i. |
| Report.StreamSectionShape | internal/app/cloudwatchlogs.go:270-286 | A section has three header lines (stream name, image, container name), one line per event, then `<br>\n`. |
| Report.StreamSectionEvents | internal/app/cloudwatchlogs.go:275-282 | Between the headers and the closing line, the event lines follow the timestamp order. |
| Report.FormatEvents | internal/app/cloudwatchlogs.go:279-282 | The loop pushes one formatted line per event, in the order of the sorted events (EventLinesAt gives line i). |
| Report.OutputSingleStream | internal/app/cloudwatchlogs.go:270-286 | The lines pushed are the bucket's section, and the returned count is its number of events. |
| Report.SectionsSnoc | internal/app/cloudwatchlogs.go:244-253 | One more key adds its section when its bucket is written, and nothing otherwise. |
| Report.OutputInKeyOrder | internal/app/cloudwatchlogs.go:244-253 | Over the given keys, a poisoned or empty bucket is skipped and any other bucket is written whole. The count is the number of written events. |
| Report.OutputStreamEvents | internal/app/cloudwatchlogs.go:240-259 | The report is the sections of the written buckets in ascending key order. The count is their total number of events. |
| Report.EmittedKeysCharacterization | internal/app/cloudwatchlogs.go:244-251 | The written keys ascend strictly, and are exactly the keys whose bucket is unpoisoned and non-empty. |
| Report.SectionsLength | internal/app/cloudwatchlogs.go:244-253 | The report has four lines per written bucket plus one per event of those buckets. |
| Report.SectionsOnlyEmitted | internal/app/cloudwatchlogs.go:246-251 | Poisoned and empty buckets contribute nothing to the report. |
| Chunking.Receive | internal/app/logcheck.go:75-106 | One received line: written, counted, and a flush when the size strictly exceeds the limit. Its properties are carried by Chunking.ReceiveKeepsInvariant, Chunking.RunInvariant and Chunking.FlushedReports. |
| Chunking.ReceiveKeepsInvariant | internal/app/logcheck.go:75-106 | One received line keeps the writer invariant, and the lines sent plus the open file gain exactly that line. |
| Chunking.RunInvariant | internal/app/logcheck.go:73-107 | The writer invariant always holds. `sizeFile` is the size of the open file, which is empty iff `emptyReport`, and an open non-empty file is within the limit. Every flushed chunk is over the limit and was within it before its last line. The chunks sent followed by the open file are exactly the lines received. |
| Chunking.ReportBodiesConcat | internal/app/logcheck.go:73-117 | The reports sent, put end to end, are the received lines put end to end: nothing is lost, duplicated or reordered. |
| Chunking.LastReport | internal/app/logcheck.go:109-117 | The final report is sent iff a line arrived after the last flush. It holds exactly the lines since then and is within the limit. |
| Chunking.FlushedReports | internal/app/logcheck.go:83-106 | Every flushed report is non-empty and strictly over the limit. With a non-negative limit it was within the limit before its last line. |
| Chunking.NoInputNoReport | internal/app/logcheck.go:109-117 | With no line received, no report is sent. |
| Mail.Mailer.Send | internal/mailservice/mailgunService/mailgunService.go:29-45 | One call is recorded with its transport, sender, subject, body and recipient. The answer is the network's for that call number. |
| Mail.NatToDecimal | internal/app/app.go:148 | `%d` of a natural number: non-empty, decimal digits only. |
| Mail.DecimalRoundTrip | internal/app/app.go:148 | Reading the decimal digits back gives the number. |
| Mail.SmtpAddress | internal/app/app.go:148 | The SMTP address starts with the server and a colon, followed by a non-empty port. |
| App.Application.New | internal/app/app.go:43-53 | No rule is loaded. The events limiter runs at 25 calls/s with burst 25 and the log-group limiter at 10 calls/s with burst 10. |
| App.Application.LoadRules | internal/app/app.go:61-102 | A `GetRulesDir` error or a failing stat returns before any walking and leaves the rules alone. Otherwise the lines found are appended to the rules already loaded (two calls duplicate them), and a failing entry gives the walk error. |
| App.Application.WalkRulesDir | internal/app/app.go:74-100 | The walk appends the walk's lines to the rules, and fails iff the walk reaches a failing entry. |
| App.Application.VisitEntry | internal/app/app.go:75-96 | A regular file appends its scanned lines, a directory adds nothing, and an entry that cannot be read fails without changing the rules. |
| App.Application.AppendRuleFile | internal/app/app.go:87-93 | Every scanned line of the file is appended to the rules, in order. |
| App.Application.SendReport | internal/app/app.go:125-161 | The calls made and the error returned are those of SendReportPlan for the network's answers from the current call number on. |
| App.SendReportPlan | internal/app/app.go:125-161 | The Send calls SendReport makes for one report and the error it returns: at most two calls. Its branches are carried by App.UnreadableReportSendsNothing, App.NoTransportNoMail, App.MailgunFailureSkipsSmtp, App.SendReportCalls and App.SendReportSucceeds. |
| App.UnreadableReportSendsNothing | internal/app/app.go:127-130 | A report that cannot be read sends nothing and returns the read error. |
| App.NoTransportNoMail | internal/app/app.go:131-160 | With neither transport configured nothing is sent and nil is returned. |
| App.MailgunFailureSkipsSmtp | internal/app/app.go:137-143 | A Mailgun send failure returns after that one call, whatever the SMTP configuration. |
| App.SendReportCalls | internal/app/app.go:131-159 | At most one call per transport, Mailgun's first. Each carries the report from the configured sender to the configured recipient. The network answers the calls in order. |
| App.SendReportSucceeds | internal/app/app.go:125-161 | SendReport returns nil iff every configured transport was called, every call was accepted, and no unconfigured transport was called. |
| App.DispatchSnoc | internal/app/logcheck.go:85-117 | One more report sends its calls after those of the reports before it. |
| App.MailgunGetsEveryReport | internal/app/logcheck.go:85-117 | With Mailgun configured, every report the writer produces reaches Mailgun exactly once and in order, whatever the network answers: send errors are only logged. |
| App.NoTransportNoDispatch | internal/app/logcheck.go:85-117 | With no transport configured the writer sends nothing. |
| App.Application.CollectLinesOfReportAndSendReport | internal/app/logcheck.go:61-125 | The mail calls made are the SendReport calls for every report the chunking state machine produces, in order. Each report is attempted whatever happened to the ones before. |
| App.Application.LogCheck | internal/app/logcheck.go:15-42 | A log group that is not found, or a lookup that ends the process, returns an error before any mail, and so does a failing time range. Otherwise the writer gets every line the parser produced (none on a fetch error), sends its reports, and the fetch error is returned once it is done. |

## Left out

- Rate limiter timing (`golang.org/x/time/rate`): each `Wait` is one ok/error answer. `Limiter` records only the rate and burst that `New` sets.
- Regular expressions and `encoding/json`: abstract `compiles`/`matches` and `decode` functions.
- The AWS SDK: clients are oracle sequences of page answers. `buildFilterLogEventsInput` (a record of the request fields) and the time bounds in the request are not modelled, because the oracle already stands for the answers to that request.
- The goroutine, channel and WaitGroup of `LogCheck`: sequentialised, so the writer consumes the parser's lines in FIFO order after the parser is done.
- `GetTimeStampMsRangeofLastHour` depends on `calcdate` and the wall clock. It is a parameter, None when it fails.
- UTC date formatting: an abstract `fmt` over the event's seconds.
- File create, write, close and remove of `/tmp/report.html`: the file is the list of strings written since it was created, read back as their concatenation. Removal failures, and `os.Exit` when the file cannot be created, are not modelled. `findLogGroup`'s `os.Exit(1)` is the `Exited` result.
- Logging, `fmt.Printf` and `PrintMemoryStats`.
- The mail transports' network I/O and message format: `Mailer` records each call and an oracle answers it.
- The legacy packages `app/`, `src/` and the CLI `main.go`.
- `pageCount` in the fetch loop: it is only logged.
- `bufio.Scanner`'s 64 KiB token limit; a file with a longer line is not modelled.
- `len(line)` counts bytes of UTF-8 text; here one character counts as one byte.
- int64 overflow of timestamps and counters: integers are unbounded.
- Report.SortByTimestamp: `sort.Slice` is not stable, and the model's insertion sort is. Only the order and the permutation are claimed, not which order equal timestamps come in.
- When `filepath.Walk` cannot lstat an entry it calls the callback with a nil `info`, and `info.IsDir()` (app.go:76) panics. `WalkEntry` has no such entry, so the model does not capture that panic.
- Both `os.Stat` calls on the rules directory, the one in `GetRulesDir` and the one in `LoadRules` (app.go:70), get the same `stat` answer. The model does not capture the directory changing between them.
- Nil pointers in SDK answers (`LogGroupName`, `Message`, `Timestamp`, `LogStreamName`) are not modelled; every field is present.
- Fetch.FetchAndProcessAllEvents: the loop has no bound in the code itself, so callers must supply an answer sequence that ends the listing (`EndsListing`). `findLogGroup` likewise needs `LookupTerminates`.
- App.Application.LoadRules: `ErrNoRulesFolder` is not returned because its branch is unreachable. That is proved, not assumed.

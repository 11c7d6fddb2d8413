# telex_aggregator log monitor, modelled in Dafny

telex_aggregator tails log files. It keeps lines that match a regular
expression and posts each of them as a JSON event to a list of webhook URLs.
Per-file progress (last modification time, byte offset) is kept in a sqlite
table so that a restarted process resumes where it stopped. Everything lives
in `main.go`. This project models it in these modules:

- **Events** (`events.dfy`): `parseLogEntry`, `LogInfo.ToWebhookPayload`.
- **Webhook** (`webhook.dfy`): the outcome rule of `sendToWebhook`. The
  network is an oracle (`HttpOutcome`); a POST succeeds exactly on status 200.
- **Scanner** (`scanner.dfy`): line splitting as `bufio.Scanner` with
  `ScanLines` does it. Tokens end at `'\n'`, one trailing `'\r'` is dropped,
  and a last line without terminator is still emitted.
- **Monitor** (`monitor.dfy`): the poll loop of `monitorLogFile`.
  - Class `Monitor` holds the loop variables `lastOffset` and `lastModTime`,
    the progress store (`map` from file path to `Progress`), and `sent`, the
    list of every POST made with the error it returned.
  - `Cycle` is one iteration of the `for` loop. It calls `Dispatch` (the
    scanner loop), which calls `Notify` (the per-URL loop). `Poll` runs
    finitely many iterations.
  - Each method is proved against pure functions: `Next` (the new state),
    `Read` (the lines scanned), `Deliveries` (matched lines times URLs) and
    `Attempts` (what each POST returned).
  - Everything the environment decides in an iteration is a `Tick`: what
    stat shows, whether open, seek, the position query or the upsert fails,
    and where a failing scanner stops.
- **MonitorProps** (`monitor_props.dfy`): what the loop guarantees over
  iterations.
  - Restart is idle, and the first read of a new file starts at byte 0.
  - Truncation yields nothing; open and seek failures defer the read.
  - Exactly-once reading of a file that only grows by whole lines.
  - The shape of the POSTs: filtering, the cross product with the URLs, and
    per-POST status.
- **Launcher** (`launcher.dfy`): the nested launch loop of `main`. Glob
  results and regex compilability are inputs. `LaunchAll` (targets) calls
  `LaunchTarget` (paths), which calls `LaunchPath` (matched files). `LaunchAll`
  is proved equal to the pure `Plan`, and lemmas state which monitors `Plan`
  starts.

Strings are `seq<char>`, one `char` per byte (Go strings are byte strings).
Times are integers in nanoseconds, and `After` is strict `>`. The zero
`time.Time` is year 1 (`ZeroTime`).

## Behaviour worth knowing

Some things `main.go` does are easy to miss when reading it:

- **Trailing partial line.** A last line without terminator is emitted by the
  scanner and consumed: the offset becomes the handle position, which is the
  end of file after a clean scan. The rest of that line, appended later, is
  read as a separate line. See `MonitorProps.PartialLineConsumed` and
  `MonitorProps.PartialLineSplitsInTwo`.
- **Seeking past the end.** `Seek` past the end of a truncated file succeeds.
  The scan yields nothing and the offset stays put
  (`MonitorProps.TruncatedFileYieldsNothing`).
- **When the modification time is recorded.** It is recorded in memory before
  the file is opened. After an open or seek failure, the same file is not read
  again until it changes (`MonitorProps.OpenFailureDefersRead`).
- **Bad filter regex.** It is only logged, and that path is skipped
  (`Launcher.BadFilterSkipsOnlyThatTarget`).
- **Empty client list.** `config.Clients[0]` panics at the first monitor
  launched when there is no client (`Launcher.PlanOutcome`).
- **Failed position query.** When `Seek(0, io.SeekCurrent)` fails, its result
  0 becomes the new offset, so the whole file is read again at its next change
  (`MonitorProps.FailedPositionQueryRereads`).
- **Scanner errors.** On a read error the scanner still emits what it had
  buffered, which can be the first piece of a line
  (`MonitorProps.ReadErrorEmitsFragment`).

## Model

| member | source | states |
|---|---|---|
| Events.ParseLogEntry | main.go:213-220 | the application becomes the event name, the raw line the action type; username and status are copied |
| Events.ToWebhookPayload | main.go:80-87 | all four fields are copied unchanged into the payload |
| Events.EventPayload | main.go:186 | a monitor's event payload is (application, OS user, raw line, "error") |
| Events.EventPayloadDeterminesLine | main.go:213-220 | two lines of one monitor give equal payloads only if the lines are equal |
| Webhook.SendToWebhook | main.go:222-248 | the attempt carries the URL and the payload of the event; it fails exactly when the answer is not a 200 response, with the status code for other responses |
| Scanner.FirstNewline | main.go:179 | the index of the first terminator, or the length when there is none |
| Scanner.SplitLines | main.go:178-180 | scanned lines contain no terminator; there are no more lines than bytes; no lines exactly for empty text |
| Scanner.JoinLines | main.go:178-180 | writing lines each with its terminator gives whole-line text |
| Scanner.SplitJoin | main.go:178-180 | scanning text written as whole plain lines gives back exactly those lines |
| Scanner.JoinSplit | main.go:178-180 | whole-line text without carriage returns is restored from its scanned lines |
| Scanner.SplitAppend | main.go:178-180 | scanning whole-line text followed by more text is scanning each part, so lines never merge across that boundary |
| Scanner.UnterminatedLineEmitted | main.go:179-180 | a final line without terminator is emitted, whole |
| Monitor.Initial | main.go:137-150 | the stored row when there is one, otherwise offset 0 and the zero time; the store is unchanged |
| Monitor.Unread | main.go:170 | seeking at or past the end reads nothing; otherwise the content is what lies before the offset followed by what is read |
| Monitor.Scanned | main.go:178-198 | a clean scan yields every line from the offset; a failing scan yields the lines of a prefix of the unread bytes, whose last may be the first piece of a line |
| Monitor.EndOffset | main.go:200 | 0 when the position query fails; the end of file or the old offset, whichever is larger, after a clean scan; never before the old offset otherwise |
| Monitor.Read | main.go:153-180 | no lines unless the file is newer and open and seek succeed; then the lines from the offset, or after a scanner error the lines of a prefix of the unread bytes, possibly ending in a piece of a line; none when the file is not longer than the offset |
| Monitor.Next | main.go:153-206 | an unmodified or missing file changes nothing; a newer modification time is kept even when open or seek fails, and then the offset and store stay; a reading iteration upserts exactly the in-memory progress unless the upsert fails; other rows stay; the offset never moves back unless the position query fails |
| Monitor.Filter | main.go:182-184 | every kept line matches the filter and is one of the lines read, and no more lines are kept than read |
| Monitor.Event | main.go:186 | the event names the application and the current user, carries the line verbatim as its action type, with status "error" |
| Monitor.FanOut | main.go:188 | one delivery per URL |
| Monitor.Cross | main.go:186-193 | matched lines times URLs POSTs; each goes to one of the URLs with the event of one of the matched lines |
| Monitor.Deliveries | main.go:179-194 | as many POSTs as matched lines times URLs; each goes to a configured URL with the event of a scanned line the filter accepts |
| Monitor.Attempts | main.go:188-193 | one attempt per delivery, in order, each to its delivery's URL with its event's payload, whatever the answers |
| Monitor.Run | main.go:152-210 | over iterations the modification time never moves back, the offset never moves back unless a position query fails, and the rows of other paths stay |
| Monitor.Batches | main.go:152-210 | one batch of scanned lines per iteration |
| Monitor.Outbox | main.go:152-210 | the POSTs of successive iterations are those for the deliveries of all lines scanned, in scan order |
| Monitor.FilterAppend | main.go:179-184 | filtering two parts of the scanned lines is filtering each part |
| Monitor.CrossAppend | main.go:179-193 | posting lines matched in two parts is posting each part in turn |
| Monitor.DeliveriesAppend | main.go:179-194 | the POSTs for lines scanned in two parts are those for each part in turn |
| Monitor.Monitor.constructor | main.go:137-150 | the monitor starts from the initial state for its store and path and has sent nothing |
| Monitor.Monitor.Cycle | main.go:152-209 | the new loop variables and store are those of Next; the POSTs made are the attempts for the deliveries of the lines Read scans, in order |
| Monitor.Monitor.Dispatch | main.go:179-194 | every matched line goes to every URL, line after line, URL after URL |
| Monitor.Monitor.Notify | main.go:188-193 | one POST per URL in list order; a failed POST does not stop the later ones |
| Monitor.Monitor.Poll | main.go:152-210 | after k iterations the state is Run of the ticks and the POSTs are those of each iteration's batch in turn |
| Monitor.Start | main.go:136-150 | the loop starts exactly when the current user and the stored row can be read, from the initial state |
| MonitorProps.RestartIsIdle | main.go:146-160 | a restarted monitor on an unchanged file reads nothing and changes nothing |
| MonitorProps.FirstCycleReadsEverything | main.go:137-206 | the first clean iteration on a file never seen reads it from byte 0 and stores its length |
| MonitorProps.TruncatedFileYieldsNothing | main.go:170-200 | a file cut back to at most the offset yields no line and leaves the offset |
| MonitorProps.OpenFailureDefersRead | main.go:160-176 | after an open or seek failure the same file is not read again, and the next change is read from the old offset |
| MonitorProps.PartialLineConsumed | main.go:178-200 | a final unterminated line is read and the offset moves past it |
| MonitorProps.PartialLineSplitsInTwo | main.go:178-200 | "ERR" followed by an append of "OR\n" is read as two lines "ERR" and "OR" |
| MonitorProps.GrowthStep | main.go:153-206 | one iteration on a file grown by whole lines, or whose stat fails, reads exactly the lines between the old and the new offset, which lies on a line boundary, and keeps the modification time last seen; when open and seek succeed and the old offset was the old end, the new offset is the new end |
| MonitorProps.StatFailureKeepsGrowth | main.go:153-158 | an iteration whose stat fails changes nothing known about the file |
| MonitorProps.ExactlyOnce | main.go:152-210 | over iterations on a file that only grows by whole lines, where stat, open and seek may fail, the lines read are exactly the file's lines up to the final offset, each once and in order; that offset is the file length when no open or seek failed |
| MonitorProps.PostsEveryNewLineOnce | main.go:152-210 | over such iterations the POSTs made are those for the matched lines after the stored position, each once, in file order |
| MonitorProps.FailedPositionQueryRereads | main.go:200 | after the position query fails the offset is 0, and the next clean read of the file reads it from its first line |
| MonitorProps.ScanFaultOnLineBoundary | main.go:178-198 | a scanner that stops on a line boundary, as on a token longer than its buffer, emits the first lines of a clean scan |
| MonitorProps.ReadErrorEmitsFragment | main.go:178-198 | a read error in the middle of the line "ERROR" emits the piece "ERR" that a clean scan never emits |
| MonitorProps.FilterCount | main.go:182-184 | a line is kept exactly as often as it is read when it matches, and never otherwise |
| MonitorProps.CrossAt | main.go:179-193 | POST i*n+j sends the event of the i-th matched line to the j-th URL |
| MonitorProps.AttemptAt | main.go:188-193 | each attempt goes to its URL with its event's payload and fails exactly when its answer is not 200 |
| MonitorProps.SingleLineFile | main.go:152-206 | a new file holding one matching line sends its event to every URL in order and stores the offset just past the terminator |
| Launcher.PathLaunches | main.go:114-129 | nothing for a bad glob or filter; otherwise one monitor per matched file, in glob order, with the URLs, the target's application and filter |
| Launcher.TargetLaunches | main.go:114-130 | nothing when the target's filter does not compile; every monitor gets the URLs, the application and the filter of the target |
| Launcher.Launches | main.go:113-131 | every monitor started gets the same URLs and a filter that compiles |
| Launcher.Plan | main.go:113-131 | with a client the loop never panics; a panic happens only with no client; every monitor gets the first client's URLs and a filter that compiles |
| Launcher.LaunchAll | main.go:113-131 | the loop starts exactly the monitors Plan lists, or panics exactly when Plan does |
| Launcher.LaunchTarget | main.go:114-130 | the paths of one target add their monitors in path order after those of the targets before, or the loop panics exactly when Plan does |
| Launcher.LaunchPath | main.go:115-129 | a bad glob or filter adds nothing; otherwise one monitor per matched file in glob order, with the first client's URLs, or a panic when there is no client |
| Launcher.PlanPanics | main.go:128 | with no client, the first file matched under a good pattern and filter makes the loop panic |
| Launcher.TargetLaunchesAppend | main.go:114-130 | the paths of a target start their monitors independently of each other |
| Launcher.LaunchesAppend | main.go:113-131 | the targets start their monitors independently of each other |
| Launcher.PathLaunchIn | main.go:114-129 | a path starts a monitor exactly when its glob and filter are good and the file is among its matches |
| Launcher.TargetLaunchIn | main.go:114-130 | a target starts exactly the monitors one of its paths starts |
| Launcher.LaunchIn | main.go:113-131 | the plan starts exactly the monitors some path of some target starts |
| Launcher.PlanOutcome | main.go:113-131 | every monitor started gets the first client's URLs; the loop panics exactly when there is no client and some good path of a target with a good filter matches a file |
| Launcher.BadGlobSkipsOnlyThatPath | main.go:115-119 | a path with a bad glob adds nothing and the other paths are unaffected |
| Launcher.BadFilterNoLaunch | main.go:121-125 | no path of a target whose filter does not compile starts a monitor |
| Launcher.BadFilterSkipsOnlyThatTarget | main.go:121-125 | a target whose filter does not compile adds nothing and the other targets are unaffected |
| Launcher.TwoPathsTwoMonitors | main.go:114-129 | a file matched by two paths of a target gets two monitors |

## Left out

- `initDB` and the SQL text (main.go:54-78, 146, 203): the store is a `map` field with upsert. A failing query at start-up and a failing upsert are inputs.
- HTTP and JSON in `sendToWebhook` (main.go:225-241): request building, marshalling and the client call are one `HttpOutcome` oracle per POST. A marshalling error cannot happen for four string fields.
- Reading and parsing the YAML configuration and the interval (main.go:95-111): the clients and targets are inputs to `LaunchAll`.
- `user.Current` (main.go:140-144): its result is an `Option` input to `Start`.
- `filepath.Glob` and the regular-expression engine: the glob is a function from pattern to `Option` of matched files, compilation a predicate, and the compiled filter a predicate on lines (`Watch.matches`).
- Goroutines, `time.Sleep` and `select {}` (main.go:128, 133, 156, 209): one monitor's loop is modelled, for finitely many iterations (`Poll`). All monitors are goroutines of one process sharing one `*sql.DB`, and the interleaving of their loops is not modelled. In particular a file matched twice gets two monitors (`Launcher.TwoPathsTwoMonitors`) that share its row in the table and each post every line, so its events are delivered twice; the model does not capture that duplication.
- Monitor.Scanned: where `bufio.Scanner` stops after an error, including the 64 KB token limit, is an input (`ScanFault`): the unread bytes whose lines it emitted and the bytes it took from the handle, each clamped to what is there. The two are not tied to each other or to the buffer size, so the model admits stops the real scanner cannot produce.
- MonitorProps.ExactlyOnce: it assumes that every iteration that sees the file scans to the end and that the position query succeeds. After a scanner error the lines read can end in a piece of a line (`MonitorProps.ReadErrorEmitsFragment`). After a failed position query the file is read again from its start (`MonitorProps.FailedPositionQueryRereads`). Stat, open and seek failures are covered.
- The file changing between `os.Stat` and the read: a tick sees one content for both.
- Real `time.Time` values and their DATETIME round trip through sqlite: times are integers.
- Logging: the `log.Printf` calls have no effect on the state and are not modelled.

# simple-nodejs-executor, modelled in Dafny

A webhook receiver. `POST /hooks` checks that a `shell` parameter is present and
non-empty (`?shell=` is refused like a missing one),
answers at once, and arms a single debounce timer. Every accepted request
cancels the pending timer and arms a new one, so only the last request of a
burst runs. When the timer expires, one of three things runs:

- the shell command `sh <shell>.sh` in the requested directory;
- in function mode with `fn=scanPost`, a scan of the directory's markdown
  notes, whose records replace the stored posts;
- in function mode with any other `fn`, nothing except a `TODO` log line.

The scan walks the directory tree depth-first. It turns every `.md` file that
has at least two lines into a `Post`: line 2 is the JSON metadata, and
everything from line 4 on is the content. One unparsable metadata line fails
the whole scan.

Modules:

- `Wrappers` (`wrappers.dfy`): `Option` and `Result`.
- `Text` (`text.dfy`): `split('\n')` and `join('\n')` and their round trips.
- `Scanner` (`scanner.dfy`): `src/utils.ts`. The file system is an in-memory
  tree `Entry`; `JSON.parse` is a `Parser` argument. `walkDir` is the method
  `MarkdownCollector.WalkDir`, specified by the function `Visits` (the
  callbacks, in order). `getMarkdownTreeMetadata` is the method
  `GetMarkdownTreeMetadata`, specified by `TreeMetadata`.
- `Hooks` (`hooks.dfy`): `src/index.ts`. The module-level `debounceTimeout`
  is the `pending` field of class `HookServer`, changed by `Hook` and `Fire`.
  `Run` replays a sequence of events as values, and `Serve` proves that the
  class behaves as `Run` says. The post table of `src/orm.ts` is the class
  `PostStore`.

Behaviour of the code that the model keeps as written:

- An accepted request gets status 200 and `{message: 'Script execution scheduled'}`.
  The response has no request id and no scheduled time.
- `shell` is required even in function mode. `fn` is never checked.
- Function mode scans `dir` itself, with no sub-folder appended.
- The timer is armed with 1000 * 10 ms (`DebounceMs`), although the comment
  beside it says 1000 ms.
- Records carry no `tags`, although the record type declares the field.

## Model

| member | source | states |
|---|---|---|
| `Text.Join` | src/utils.ts:31 | the empty list joins to the empty string; `n >= 1` newline-free lines join with exactly `n - 1` newlines |
| `Text.Split` | src/utils.ts:21 | `split('\n')` gives at least one line, one more than the text has newlines, and no line holds a newline |
| `Text.JoinSplit` | src/utils.ts:21 | joining the split lines with `'\n'` gives back the original text |
| `Text.SplitJoin` | src/utils.ts:31 | splitting the `'\n'`-join of a list of at least one newline-free line gives back that list (the empty list is excluded: it joins to `""`, which splits into `[""]`) |
| `Text.SplitLine` | src/utils.ts:21 | a newline-free first line followed by `'\n'` is split off on its own, and the rest splits independently |
| `Text.SplitNoNewline` | src/utils.ts:21 | a text without newline splits into itself alone |
| `Text.SplitHasTwoLines` | src/utils.ts:24 | the split has at least two lines exactly when the text contains a newline |
| `Scanner.VisitsAppend` | src/utils.ts:8-12 | the walk follows listing order: walking the entries `a + b` visits those of `a`, then those of `b` |
| `Scanner.VisitsAreTheLeaves` | src/utils.ts:4-13 | the callback receives a path/entry pair exactly when that entry is in the tree at that full path and is not a directory |
| `Scanner.VisitCount` | src/utils.ts:4-13 | the number of callbacks equals the number of non-directory entries in the tree |
| `Scanner.IsMarkdownName` | src/utils.ts:18 | `path.extname(p) === '.md'`: the name ends in `.md` after at least one character (a definition without a contract of its own; `ExtensionIsCaseSensitive` states its case sensitivity) |
| `Scanner.Visits` | src/utils.ts:4-13 | the callbacks of `walkDir` over one listing, in order: each entry's callbacks, then those of the rest (a definition; `VisitsAreTheLeaves`, `VisitCount` and `VisitsAppend` state its properties) |
| `Scanner.EntryVisits` | src/utils.ts:9-11 | one entry: a directory contributes the callbacks of its own listing under its full path, anything else one callback with its full path (a definition, specified through `VisitsAreTheLeaves`) |
| `Scanner.PathJoin` | src/utils.ts:9 | `path.join(directory, entry)`: the directory, a `/` and the entry name, without normalisation (a definition; `VisitsAreTheLeaves` states the full paths the walk passes to the callback) |
| `Scanner.Stem` | src/utils.ts:29 | `basename(path, '.md')` of a markdown name, with `.md` put back, is the name |
| `Scanner.MakePost` | src/utils.ts:26-32 | the record copies `permalink` to `link` and copies `created` and `updated`; `title` is the metadata title, or the file's stem when that is null or absent; content is lines 3 onward joined, or empty with three lines or fewer; `tags` is never set |
| `Scanner.GetMarkdownMetaData` | src/utils.ts:16-36 | no record and no error unless the entry is a regular file with extension `.md` and a newline in its text; for such a file, when line index 1 does not parse the call fails with exactly the parser's error, and when it parses the result is exactly the record `MakePost` builds from that metadata, the file name and the split lines |
| `Scanner.ContentRoundTrip` | src/utils.ts:21-31 | for text `h0 \n h1 \n h2 \n rest` with newline-free `h0`, `h1`, `h2`, when line index 1 (`h1`) parses, it is what gets parsed and the record's content is exactly `rest` |
| `Scanner.TwoLineNote` | src/utils.ts:21-31 | a note of exactly two lines whose line index 1 parses gives a record with empty content (when it does not parse, `BadMetadataFails` applies) |
| `Scanner.ThreeLineNote` | src/utils.ts:21-31 | a note of exactly three lines whose line index 1 parses gives a record with empty content (when it does not parse, `BadMetadataFails` applies) |
| `Scanner.ExtensionIsCaseSensitive` | src/utils.ts:18 | a file named `<stem>.MD` yields no record, whatever its text |
| `Scanner.BadMetadataFails` | src/utils.ts:24-25 | a note `h0 \n h1` followed by nothing or by any text starting with a newline, where `h1` does not parse, fails with the parser's error; this covers two-line notes as well as longer ones |
| `Scanner.Collect` | src/utils.ts:42-46 | the callback over a sequence of visits: at most one record per visit, a failure is always a metadata parse failure, and no record carries `tags` |
| `Scanner.CollectAppend` | src/utils.ts:42-46 | running the callback over `a + b` runs it over `a`, then `b`: the first failure wins, otherwise the records concatenate |
| `Scanner.ScanOutcome` | src/utils.ts:40-47 | the scan fails exactly when some note in the tree has an unparsable metadata line; otherwise it returns one record per `.md` file containing a newline |
| `Scanner.ScanFollowsListing` | src/utils.ts:40-47 | scanning a root whose listing is `a + b` gives the records of `a`, then those of `b`; the first failure in that order is the one reported |
| `Scanner.FirstFailureReported` | src/utils.ts:42-46 | a failed collection reports the error of the first failing file in visit order; every file before it succeeded |
| `Scanner.OneNoteExample` | src/utils.ts:40-47 | a directory with a two-line `a.md` and a `b.txt` scans to exactly the record of `a.md`, with empty content |
| `Scanner.MarkdownCollector.constructor` | src/utils.ts:41 | the collector starts with an empty `result` |
| `Scanner.MarkdownCollector.Process` | src/utils.ts:42-45 | the callback pushes the file's record when there is one, pushes nothing otherwise, and passes on a parse failure |
| `Scanner.MarkdownCollector.WalkDir` | src/utils.ts:4-13 | the walk succeeds exactly when collecting over `Visits` succeeds; it then appends exactly those records and makes exactly the callbacks of `Visits`; otherwise it returns that collection's error |
| `Scanner.MarkdownCollector.WalkEntry` | src/utils.ts:9-11 | one listing entry: a directory is walked and anything else goes to the callback, with the same outcome, records and callbacks as collecting over that entry's `EntryVisits` |
| `Scanner.TreeMetadata` | src/utils.ts:40-47 | a root that is not a directory fails with `NotADirectory` of the given path, and that error arises for no other root |
| `Scanner.GetMarkdownTreeMetadata` | src/utils.ts:40-47 | the method returns `TreeMetadata`: the records in visit order, or the first failure, or an error when the root is not a directory |
| `Hooks.Accepted` | src/index.ts:24 | a request is accepted exactly when `shell` is present and non-empty (a definition; `Respond` and `Hook` state what follows from it) |
| `Hooks.Respond` | src/index.ts:24-61 | status 200 exactly for an accepted request and 400 exactly for a refused one; the body is the scheduled message with 200 and the missing-shell error with 400 |
| `Hooks.ScriptDir` | src/index.ts:19 | `dir || __dirname`: a present non-empty `dir` is used as given, while an absent or empty one gives the module directory; the result is empty only when the module directory is |
| `Hooks.Resolve` | src/index.ts:45 | `path.resolve`: an absolute path is kept as it is; a relative one is placed under the process's working directory; either way the result ends with the given path |
| `Hooks.JobOf` | src/index.ts:18-22 | what the timer closure captures from an accepted request: `shell`, `dir || __dirname`, `type` and `fn` (a definition; `RequestOutcome` and `Dispatch` state what it leads to) |
| `Hooks.Dispatch` | src/index.ts:37-59 | the job runs a shell command exactly when `type` is not `function`, and a scan exactly for `type=function&fn=scanPost`; the scan is of the job's own directory, and the command is `sh <shell>.sh` in the resolved job directory |
| `Hooks.HookServer.constructor` | src/index.ts:14 | the server starts with no pending job |
| `Hooks.HookServer.Hook` | src/index.ts:16-62 | the response is exactly `Respond` of the parameters: without a truthy `shell` (in function mode too), 400 with the error message and the slot unchanged; otherwise 200 with the scheduled message, and the slot holds exactly this request's job, with `dir` or the module directory |
| `Hooks.HookServer.Fire` | src/index.ts:30-34 | the timer's expiry hands over the pending job, if any, and leaves nothing pending |
| `Hooks.Serve` | src/index.ts:14-62 | a server fed a sequence of requests and expiries answers and runs exactly what `Run` says |
| `Hooks.Step` | src/index.ts:24-34 | one event: a request is answered by `Respond` and, when accepted, replaces the pending job with its own (clearing the old timer), while a refused one leaves the slot alone; a timer expiry runs the pending job, if any, and empties the slot (a definition; the trace lemmas below state its consequences) |
| `Hooks.Run` | src/index.ts:14-62 | the trace after a sequence of events, each handled by `Step` in order from a given starting trace (a definition; `Serve` is proved against it, and `RunAppend` states its composition) |
| `Hooks.RunAppend` | src/index.ts:14-62 | handling events `a + b` is handling `a`, then `b` |
| `Hooks.BurstAnswers` | src/index.ts:24-26 | a burst of requests runs no job, and each request is answered at once by its own validation outcome only, whatever is pending and whatever `type` and `fn` are |
| `Hooks.RejectedBurstKeepsSlot` | src/index.ts:24-26 | requests without `shell` never touch the pending slot |
| `Hooks.BurstKeepsLastAccepted` | src/index.ts:30-34 | after a burst, the slot holds the job of the last accepted request |
| `Hooks.LastTriggerWins` | src/index.ts:30-34 | a burst followed by one expiry runs exactly the last accepted request's job; earlier jobs, and any job pending before the burst, never run |
| `Hooks.AcceptedJobs` | src/index.ts:24-34 | the jobs of the accepted requests among a sequence, in arrival order: at most one per request |
| `Hooks.SpacedRequestsAllRun` | src/index.ts:24-34 | starting with nothing pending, when every request is followed by a timer expiry before the next request, the jobs that run are exactly those of the accepted requests, once each, in arrival order; a request answered 400 runs nothing; nothing is left pending |
| `Hooks.RequestOutcome` | src/index.ts:37-59 | for an accepted request, whatever was pending when it arrived, the next expiry adds exactly one job to those run, and that job runs: a scan of `dir` itself (or the module directory) for `type=function&fn=scanPost`; a no-op for any other `fn`; otherwise `sh <shell>.sh` in the resolved directory, where an empty `dir` falls back to the module directory |
| `Hooks.PostStore.ReplaceAll` | src/orm.ts:5-10 | after deleting every row and inserting the batch, the table holds exactly the batch |
| `Hooks.RunScanPost` | src/index.ts:38-40 | scan then store: the result is the tree's scan; on success the store holds exactly those records, and on failure it is left as it was |

## Left out

- Express, routing, `app.listen` and query-string parsing: the handler takes already-parsed parameters, each an optional string. A parameter repeated in the query (which Node parses into an array) is not modelled.
- Real time: `setTimeout`/`clearTimeout` and the delay are the abstract `Fire` event. After the source's timer fires, `debounceTimeout` keeps the spent handle, and clearing it later has no effect; the model empties the slot instead, which behaves the same.
- `exec`: the subprocess, its output and its exit status. A shell job is represented by its command line and working directory.
- Console and log4js logging (`src/logger.ts`).
- Overlap of a job that is still running with a newly scheduled one: the model is sequential.
- `fs.readdirSync`, `fs.statSync` and `fs.readFileSync` are the in-memory tree. Their own failures (a dangling link, a permission error, an unreadable file) are not modelled. Only a root that is not a directory is modelled, as the error `NotADirectory`. A `dir` that does not exist (`ENOENT` from `fs.readdirSync`) cannot be expressed, because `RunScanPost` always receives a root `Entry`.
- `JSON.parse` is the `Parser` argument. A JSON value whose property reads throw (such as `null`) counts as a parse failure of the parser.
- The JSON types of the metadata fields: a field that is `null` and a field that is absent are both `None`, and a value of another type (such as `"title": 5`) cannot be represented. For `title` nothing is lost, since `??` treats `null` and `undefined` alike. `link`, `created` and `updated` are copied unchanged into the record, so in the source a `null` there reaches `createMany` as a different value from an absent field; the model does not distinguish them.
- `path.join` and `path.resolve` are plain concatenations, without normalisation of `.`, `..` or repeated separators. `path` is taken with its POSIX rules: the separator is `/` and only a path starting with `/` is absolute, so a Windows path such as `C:\notes` is treated as relative and put under the process directory, where Node on Windows would keep it. `path.extname(p) === '.md'` is "the name ends in `.md` after at least one character".
- What happens after a scan fails inside the timer callback. The exception from `JSON.parse` (src/utils.ts:25) or from `fs.readdirSync` (src/utils.ts:6) inside `getMarkdownTreeMetadata` is not caught. It escapes the `setTimeout` callback, so Node ends the process and no later request is answered. `RunScanPost` only keeps the store unchanged. `Run` and `Serve` go on answering events after such a failure, so they admit event sequences that the real server cannot reach.
- A rejection from the Prisma client, and the `deleteMany` that `src/orm.ts` runs at import time. The store is only a sequence that `ReplaceAll` overwrites.
- Scanner.MarkdownCollector.WalkDir: when the walk fails, the contract states only the error. It does not say which callbacks ran before the failure, because the caller discards the partial result.
- Scanner.MarkdownCollector.WalkEntry: when walking the entry fails, the contract states only the error. It does not say which callbacks ran or which records were pushed before the failure, because the caller discards the partial result.

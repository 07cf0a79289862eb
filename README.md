# jasmin-api, modelled in Dafny

jasmin-api is a Django REST front end for the Jasmin SMS gateway. Jasmin itself is
administered over a telnet console (jCli). Every REST request under `/api/` gets one or
more jCli sessions from a middleware. The view sets then drive jCli line by line and
parse what it prints:

- SMPP client connectors (`smppccm`) and HTTP client connectors (`httpccm`);
- MT and MO routes (`mtrouter`, `morouter`);
- filters, groups and users.

jCli's replies are turned into JSON or into one of a small set of API errors. When the
deployment runs several Jasmin instances (Docker or Kubernetes), each write is persisted
on the primary instance and the others are told to `load` it.

This project models that core:

- **Session** (`session.dfy`): a jCli session is the class `Session.Console`.
  - It holds the endpoint it was spawned for and a fixed script of the replies the remote
    side gives, in order.
  - Its mutable part is the lines sent so far, the number of replies read and whether it
    was killed.
  - A reply is the index of the first pattern that matched together with the captured
    text, EOF, or a timeout. Reading past the end of the script is a timeout.
- **Run** (`session.dfy`): what one operation does to the primary session is stated by a
  pure function returning a `Run`. A Run records:
  - the lines sent;
  - the replies consumed;
  - whether the configuration was fanned out to the replicas;
  - the outcome, either a value or a `Failure`. A Failure is an API exception with its
    detail, pexpect's EOF or TIMEOUT escaping, or an uncaught Python exception such as an
    IndexError on a short listing row.
- **Operations as methods.** Every operation is an imperative method over the consoles,
  proved to advance the primary exactly as its Run says and to leave the replicas fanned
  out or untouched accordingly.
- **Properties as lemmas.** The properties of each operation are lemmas about its Run
  function:
  - which lines go out in which order;
  - what is answered;
  - which error a given reply produces;
  - that the configuration is fanned out exactly when the deployment has replicas.
- **Parsers.** The pure string parsers are functions with lemmas, including round trips
  and element-by-element characterisations of listings: `split_cols`, the listing
  cleaners, the detail-page dictionaries and `get_user`'s record builder.
- **Middleware** (`middleware.dfy`): a class `Request` with the `telnet` and
  `telnet_list` attributes the middleware attaches.
  - `ProcessRequest` opens the sessions for the deployment mode (Docker ports, Kubernetes
    pods, or a single host).
  - `ProcessResponse` says `quit` to each session.

Python's string operations (`split`, `strip`, `lstrip`, `splitlines`, `replace`,
`join`, and `lower` for ASCII letters) are defined in `text.dfy`, with the lemmas the parsers need.

## Model

| member | source | states |
|---|---|---|
| Text.TokenLength | jasmin_api/rest_api/tools.py:55 | the first token of `str.split()` is the longest whitespace-free prefix: no whitespace before the returned length, whitespace right at it |
| Text.TokenOfWord | jasmin_api/rest_api/tools.py:55 | the token at the head of a whitespace-free word followed by whitespace or nothing is exactly that word |
| Text.WordsOfWordThenRest | jasmin_api/rest_api/tools.py:55 | splitting a word followed by whitespace or nothing yields that word and then the split of the rest |
| Text.WordsOfSpaceThenRest | jasmin_api/rest_api/tools.py:55 | leading whitespace does not change what str.split() yields |
| Text.Words | jasmin_api/rest_api/tools.py:55 | `str.split()` yields only non-empty, whitespace-free words |
| Text.WordsOfJoin | jasmin_api/rest_api/tools.py:35 | splitting a space-joined list of words gives back exactly those words (split inverts join) |
| Text.CollapseKeepsWords | jasmin_api/rest_api/tools.py:35 | `" ".join(s.split())` keeps the token sequence of `s` |
| Text.CollapseIdempotent | jasmin_api/rest_api/tools.py:44 | collapsing the whitespace of an error text twice is the same as once |
| Text.JoinShape | jasmin_api/rest_api/tools.py:35 | in a space-joined word list every whitespace character is a single `' '` flanked by non-space characters, and the result does not start with whitespace |
| Text.CollapseShape | jasmin_api/rest_api/tools.py:44 | a collapsed detail has no leading or trailing whitespace, no two adjacent whitespace characters, and no whitespace but `' '` |
| Text.LStripChars | jasmin_api/rest_api/views/filters.py:54 | `lstrip(chars)` never lengthens its argument |
| Text.LStrip | jasmin_api/rest_api/views/users.py:97 | str.lstrip() never lengthens its input |
| Text.LStripCharsShape | jasmin_api/rest_api/views/groups.py:44 | `lstrip(chars)` removes a prefix made only of `chars`, keeps the rest as a suffix of the input, and leaves no character of `chars` at the front |
| Text.LStripShape | jasmin_api/rest_api/tools.py:29 | `lstrip()` removes exactly a whitespace prefix and leaves no whitespace at the front |
| Text.RStrip | jasmin_api/rest_api/views/users.py:97 | str.rstrip() never lengthens its input |
| Text.RStripShape | jasmin_api/rest_api/tools.py:29 | `rstrip()` removes exactly a whitespace suffix and leaves no whitespace at the end |
| Text.StripShape | jasmin_api/rest_api/tools.py:29 | `strip()` yields a contiguous slice of the input whose surroundings are all whitespace and whose ends are not |
| Text.StripWord | jasmin_api/rest_api/views/mtrouter.py:61 | a whitespace-free string is unchanged by `strip()` |
| Text.Pieces | jasmin_api/rest_api/views/filters.py:39 | `s.split(sep)` always yields at least one piece |
| Text.PiecesFree | jasmin_api/rest_api/views/filters.py:39 | no piece of `s.split(sep)` contains the separator |
| Text.PiecesSpaceFree | jasmin_api/rest_api/views/mtrouter.py:61 | the pieces of a whitespace-free string are whitespace-free |
| Text.StripAllPiecesOfWord | jasmin_api/rest_api/views/mtrouter.py:61 | stripping each comma-separated item of a whitespace-free listing cell changes nothing |
| Text.JoinSplitOn | jasmin_api/rest_api/views/mtrouter.py:172 | `sep.join(s.split(sep)) == s` |
| Text.SplitOnJoin | jasmin_api/rest_api/views/mtrouter.py:189 | splitting a `sep`-joined list of separator-free parts gives the parts back |
| Text.SplitOnFree | jasmin_api/rest_api/views/morouter.py:137 | a string without the separator splits into itself |
| Text.SplitOnPrefix | jasmin_api/rest_api/views/morouter.py:137 | splitting `w + sep + rest`, with `w` separator-free, gives `w` followed by the split of `rest` |
| Text.NonEmptyLines | jasmin_api/rest_api/views/users.py:58 | `[l for l in s.splitlines() if l]` contains no empty line |
| Text.NonEmpty | jasmin_api/rest_api/views/users.py:101 | filtering out empty strings keeps only non-empty members of the input and never adds any |
| Text.NonEmptyMembers | jasmin_api/rest_api/views/users.py:101 | a string survives the filter exactly when it is non-empty and in the input |
| Text.ReplaceRemovesChar | jasmin_api/rest_api/views/filters.py:39 | `replace("\r", "")` leaves no carriage return |
| Text.Lower | jasmin_api/rest_api/views/filters.py:109 | lowers ASCII `A`-`Z` only and keeps the length; the rest of Python's `lower()` is not modelled (see Left out) |
| Text.LowerEach | jasmin_api/rest_api/views/filters.py:109 | each character is lowered on its own, ASCII `A`-`Z` only |
| Text.StripAll | jasmin_api/rest_api/views/morouter.py:56 | stripping each item keeps the number of items |
| Text.StripAllEach | jasmin_api/rest_api/views/morouter.py:56 | the i-th stripped item is the i-th item stripped |
| Exceptions.StatusCode | jasmin_api/rest_api/exceptions.py:12-97 | every API exception is a 400, 403, 404 or 500; exactly the two telnet transport errors are 500, exactly the failed login is 403, exactly UnknownError and ObjectNotFoundError are 404 |
| Exceptions.Raise | jasmin_api/rest_api/exceptions.py:12-97 | raising a class without arguments gives an API exception of that class |
| Exceptions.HttpStatus | jasmin_api/rest_api/exceptions.py:12-97 | every failure answers 400, 403, 404 or 500, and anything that is not an API exception is a 500 |
| Session.WaitFailure | jasmin_api/rest_api/middleware.py:127-130 | a wait that matched nothing raises pexpect's EOF or TIMEOUT |
| Session.Awaited | jasmin_api/rest_api/tools.py:70 | a wait whose pattern is not inspected succeeds exactly when something matched |
| Session.Console.Spawn | jasmin_api/rest_api/middleware.py:120-122 | a freshly spawned session is bound to its endpoint and script, has sent nothing, read nothing and is not killed |
| Session.Console.SendLine | jasmin_api/rest_api/tools.py:21 | `sendline` appends exactly that line to what was sent |
| Session.Console.Expect | jasmin_api/rest_api/tools.py:22-28 | `expect` returns the next reply of the script (a timeout past its end) and advances the read position by one |
| Session.Console.Kill | jasmin_api/rest_api/middleware.py:143 | `kill(9)` marks the session killed |
| Session.Failed | jasmin_api/rest_api/tools.py:30-35 | a dialogue that raises has failed and fanned nothing out |
| Session.Then | jasmin_api/rest_api/tools.py:19-46 | running two steps in sequence sends the lines of both in order, consumes the replies of both and ends with the second's outcome |
| Session.Stop | jasmin_api/rest_api/tools.py:30-35 | a failed step ends the dialogue with its failure, nothing more sent |
| Session.AndThen | jasmin_api/rest_api/tools.py:19-46 | sequencing: a failed first step is the whole outcome; otherwise lines and replies add up, the fan-out is either's, and the second step decides |
| Session.Chain | jasmin_api/rest_api/tools.py:19-46 | a session advanced by one step and then another is advanced by their sequence |
| Session.CommandRun | jasmin_api/rest_api/views/groups.py:80-81 | a single-shot command sends one line, reads one reply and hands that reply over |
| Session.Command | jasmin_api/rest_api/views/groups.py:80-81 | the session advances by exactly one line and one reply, and the reply returned is the script's next one |
| Session.StepRun | jasmin_api/rest_api/tools.py:69-70 | one line and one wait, failing exactly when the wait matched nothing |
| Session.Step | jasmin_api/rest_api/tools.py:69-70 | the session advances as StepRun says and the outcome is StepRun's |
| Session.DistinctApart | jasmin_api/rest_api/middleware.py:146 | in a session list without repetitions, each session differs from every other one |
| Tools.KeyLines | jasmin_api/rest_api/tools.py:19-21 | one `"key value"` line per pair, in the order of the pairs |
| Tools.KeyLinesPrefix | jasmin_api/rest_api/tools.py:19-21 | the lines of a longer prefix of the pairs are those of the shorter one plus the next pair's line |
| Tools.KeyVerdict | jasmin_api/rest_api/tools.py:22-35 | a key is accepted exactly when the reply matched the plain interactive prompt (pattern 2); unknown key, unmodifiable key, unknown SMPP client key and dropped-back errors are refused |
| Tools.CommitVerdict | jasmin_api/rest_api/tools.py:37-44 | the closing `ok` succeeds exactly when the reply is not the "syntax is invalid" pattern |
| Tools.IkeysUnsynced | jasmin_api/rest_api/tools.py:15-46 | set_ikeys never fans the configuration out |
| Tools.IkeysAllAccepted | jasmin_api/rest_api/tools.py:19-46 | with every key accepted, set_ikeys sends one line per pair in order, then exactly one `ok`, reads one reply per line, and the `ok` reply decides |
| Tools.IkeysFirstRejected | jasmin_api/rest_api/tools.py:19-35 | the first refused key ends set_ikeys: its line is the last one sent, no later pair and no `ok` go out, and its classification is the failure |
| Tools.IkeysSucceedsIff | jasmin_api/rest_api/tools.py:15-46 | set_ikeys returns normally if and only if every key was accepted and the commit reply was not the syntax error |
| Tools.SetIkeys | jasmin_api/rest_api/tools.py:15-46 | the loop advances the session exactly as the IkeysRun dialogue specifies and returns its outcome |
| Tools.DataRows | jasmin_api/rest_api/tools.py:49-60 | split_cols keeps at most one row per line, each a non-empty list of whitespace-free words whose first word starts with `#` |
| Tools.DataRowsAppend | jasmin_api/rest_api/tools.py:54-59 | split_cols of two blocks of lines is the rows of the first followed by those of the second: the input order is kept |
| Tools.DataRowsOfLine | jasmin_api/rest_api/tools.py:55-59 | a single line gives its whitespace split when its first field starts with `#`, and nothing otherwise (a blank line included) |
| Tools.Splits | jasmin_api/rest_api/tools.py:55 | one whitespace split per line, in order |
| Tools.DataRowsMembers | jasmin_api/rest_api/tools.py:49-60 | a row is in split_cols's result exactly when it is the split of some input line and a data row (both directions) |
| Tools.SplitCols | jasmin_api/rest_api/tools.py:49-60 | the imperative loop returns exactly DataRows of its input |
| Tools.Occurrences | jasmin_api/rest_api/tools.py:67 | a session absent from the list occurs zero times, and no session more often than the list is long |
| Tools.OccurrencesDistinct | jasmin_api/rest_api/tools.py:67 | in a list without repetitions, each member occurs exactly once |
| Tools.Loads | jasmin_api/rest_api/tools.py:69 | n copies of the `load` directive and nothing else |
| Tools.SyncConfInstances | jasmin_api/rest_api/tools.py:63-74 | every replica is sent `load` once per occurrence in the list and waited on as often, failed waits swallowed, and nothing else about it changes |
| Tools.SyncIf | jasmin_api/rest_api/views/filters.py:152-153 | the replicas are fanned out to exactly when the deployment has replicas, and untouched otherwise |
| Dialect.TableLines | jasmin_api/rest_api/views/filters.py:39 | the reply of a listing splits into at least one line |
| Dialect.TableLinesSingle | jasmin_api/rest_api/views/filters.py:39 | no table line contains a newline |
| Dialect.TableLinesJoin | jasmin_api/rest_api/views/filters.py:39 | joining the table lines with newlines gives back the stripped reply without carriage returns |
| Dialect.Body | jasmin_api/rest_api/views/filters.py:48 | `result[2:-2]`: empty for fewer than four lines, otherwise the lines without two header and two footer lines, each in its place |
| Dialect.Cleaned | jasmin_api/rest_api/views/filters.py:46-49 | cleaning drops lines and never adds any |
| Dialect.CleanedAppend | jasmin_api/rest_api/views/filters.py:46-49 | cleaning works line by line and keeps the order |
| Dialect.CleanRows | jasmin_api/rest_api/views/filters.py:39-50 | a listing reply of fewer than five lines gives no rows, and every row is a split_cols data row |
| Dialect.RawRows | jasmin_api/rest_api/views/smppccm.py:74-77 | the same for the connector managers' uncleaned listings |
| Dialect.ErrorText | jasmin_api/rest_api/views/smppccm.py:111 | the detail of a failed action is the stripped capture, or "Unknown error" when nothing was captured |
| Dialect.OrderOf | jasmin_api/rest_api/views/mtrouter.py:58 | the order column is never longer than the stripped cell |
| Dialect.RouteOrder | jasmin_api/rest_api/views/mtrouter.py:58 | on a data cell, the order is the cell without its leading `#` run: what is dropped is all `#`, and the order does not start with `#` |
| Dialect.ItemsOf | jasmin_api/rest_api/views/mtrouter.py:61 | a comma-separated column gives at least one item |
| Dialect.ItemsRoundTrip | jasmin_api/rest_api/views/mtrouter.py:61 | joining the items of a whitespace-free column back with `,` gives the column |
| Dialect.Get | jasmin_api/rest_api/views/smppccm.py:218 | `data.get(key, default)`: the value when present, the default when absent |
| Dialect.Names | jasmin_api/rest_api/tools.py:19 | the keys of an ordered key list, one per pair, in order |
| Dialect.NamesAppend | jasmin_api/rest_api/tools.py:19 | the key names of two runs of pairs are those of the first then those of the second |
| Dialect.FirstMissing | jasmin_api/rest_api/views/users.py:118-152 | a chain of `data[...]` reads raises KeyError for the first key the data lacks, with all keys before it present; no KeyError exactly when every key is present |
| Dialect.Ids | jasmin_api/rest_api/views/mtrouter.py:179-181 | the connector ids kept are non-blank stripped items of the list |
| Dialect.Wrapped | jasmin_api/rest_api/views/mtrouter.py:179-181 | each id wrapped as `kind(id)`, in order |
| Dialect.IdsMembers | jasmin_api/rest_api/views/mtrouter.py:179-181 | an id is kept exactly when it is the non-blank strip of some item |
| Dialect.Entry | jasmin_api/rest_api/views/smppccm.py:59-61 | a detail line gives a pair exactly when it has two whitespace-separated tokens |
| Dialect.KeyValuesDomain | jasmin_api/rest_api/views/smppccm.py:57-63 | a key is in the detail dictionary exactly when some two-token line has it as first token |
| Dialect.KeyValuesLastWins | jasmin_api/rest_api/views/smppccm.py:57-63 | the value of a key is the one on the last line that sets it |
| Dialect.ParseKeyValues | jasmin_api/rest_api/views/smppccm.py:56-63 | the loop over the capture's lines builds exactly KeyValues of its lines |
| Dialect.ShowRun | jasmin_api/rest_api/views/smppccm.py:34-63 | `cmd -s id` and one wait; a page is returned only on pattern 2; any other pattern is None when silent and ObjectNotFoundError "Unknown connector: id" otherwise; a non-silent lookup that succeeds returns a page |
| Dialect.Show | jasmin_api/rest_api/views/httpccm.py:33-63 | the session advances as ShowRun says and the outcome is ShowRun's |
| Dialect.PageRun | jasmin_api/rest_api/views/smppccm.py:34-63 | a non-silent lookup succeeds exactly on pattern 2 and then is the KeyValues dictionary of the capture's lines; otherwise ObjectNotFoundError |
| Dialect.Page | jasmin_api/rest_api/views/smppccm.py:179 | the session advances as PageRun says and the outcome is PageRun's |
| Dialect.ListingRun | jasmin_api/rest_api/views/smppccm.py:65-77 | `cmd -l` and one wait; the rows exist exactly when the wait matched, and are then the raw rows of the reply |
| Dialect.Listing | jasmin_api/rest_api/views/httpccm.py:65-76 | the session advances as ListingRun says and the outcome is ListingRun's |
| Dialect.FindRow | jasmin_api/rest_api/views/smppccm.py:182-185 | a row is found only in the listing and only with the key as first field; nothing is found exactly when no row has that key |
| Dialect.FindRowFirst | jasmin_api/rest_api/views/smppccm.py:182-185 | the row found comes before every other row with that key (`next(...)` takes the first) |
| Dialect.UpdateVerdict | jasmin_api/rest_api/views/smppccm.py:333-342 | an update line is accepted exactly on pattern 2; any other pattern is a JasminSyntaxError carrying its capture (or "Unknown error") |
| Dialect.UpdateCommitVerdict | jasmin_api/rest_api/views/smppccm.py:345-354 | the closing `ok` fails exactly on pattern 0, with the stripped capture as a JasminSyntaxError |
| Dialect.SendRun | jasmin_api/rest_api/views/groups.py:87 | a line sent without waiting: one line, no reply consumed, no fan-out |
| Dialect.SyncRun | jasmin_api/rest_api/views/filters.py:152-153 | the fan-out sends nothing on the primary and happens exactly when the deployment has replicas |
| Dialect.Done | jasmin_api/rest_api/views/filters.py:187 | an answer that touches no console |
| Dialect.PersistRun | jasmin_api/rest_api/views/filters.py:148-153 | `persist` and one wait; it succeeds exactly when the wait matched, and then fans out exactly when the deployment has replicas; a failed wait fans nothing out |
| Dialect.Persist | jasmin_api/rest_api/views/filters.py:148-153 | the primary advances as PersistRun says, the replicas are fanned out exactly when PersistRun says, and the outcome is PersistRun's |
| Filters.FilterOf | jasmin_api/rest_api/views/filters.py:52-60 | a listing row describes a filter exactly when it has at least four columns (a shorter row makes the comprehension raise IndexError) |
| Filters.FiltersOf | jasmin_api/rest_api/views/filters.py:51-61 | the filters of the rows are one per row, or the IndexError of a short row |
| Filters.FiltersOfRows | jasmin_api/rest_api/views/filters.py:51-61 | the rows parse if and only if every row has the four filter columns, and then the i-th filter is the i-th row's |
| Filters.FilterCells | jasmin_api/rest_api/views/filters.py:56-57 | round trip: splitting a filter's routes gives back the third and fourth cells, splitting its description the remaining cells |
| Filters.Listing | jasmin_api/rest_api/views/filters.py:39-43 | a `filter -l` reply of fewer than three lines (or no body) lists no filter |
| Filters.ListRun | jasmin_api/rest_api/views/filters.py:33-61 | `_list` sends `filter -l` and reads one reply; a matched reply answers with exactly the Listing of its text (the filters of its rows, or the IndexError); an unmatched wait is pexpect's EOF or TIMEOUT |
| Filters.List | jasmin_api/rest_api/views/filters.py:33-61 | the session advances as ListRun says and the outcome is ListRun's |
| Filters.ListView | jasmin_api/rest_api/views/filters.py:63-72 | the `list` handler answers as `_list` does, and any failure of `_list` becomes UnknownError "Error listing filters" |
| Filters.Find | jasmin_api/rest_api/views/filters.py:81 | `next(...)`: the filter found has the fid and is the first such in the listing; none is found exactly when no listed filter has that fid |
| Filters.GetFilterRun | jasmin_api/rest_api/views/filters.py:74-84 | get_filter sends only `filter -l`; a listing holding the fid answers with the first filter Find gives; a listing without it is ObjectNotFoundError "No Filter with fid: ..."; a failed listing passes its failure on |
| Filters.GetFilter | jasmin_api/rest_api/views/filters.py:74-84 | the session advances as GetFilterRun says and the outcome is GetFilterRun's |
| Filters.Retrieve | jasmin_api/rest_api/views/filters.py:86-93 | `retrieve` turns ObjectNotFoundError into UnknownError with the same detail and passes every other outcome through |
| Filters.Keys | jasmin_api/rest_api/views/filters.py:118-145 | the interactive keys are type and fid, plus the type's parameter key for every type but the transparent filter; a missing parameter is MissingKeyError (checked before the type), an unmapped type JasminError "Unsupported filter type: ..." |
| Filters.KeysDistinct | jasmin_api/rest_api/views/filters.py:118-142 | the key names are distinct, so the ordered dictionary holds exactly these entries in this order |
| Filters.PersistedFilterRun | jasmin_api/rest_api/views/filters.py:148-156 | after the keys: `persist` first, then `filter -l` once the persist wait matched; a success fanned out exactly when the deployment has replicas and answers with the requested fid |
| Filters.PersistedFilter | jasmin_api/rest_api/views/filters.py:148-156 | the primary advances as PersistedFilterRun says, the replicas are fanned out exactly when it says, and the outcome is its outcome |
| Filters.Keyed | jasmin_api/rest_api/views/filters.py:147-156 | set_ikeys, persist, fan-out and lookup: the primary, the replicas and the outcome follow KeyedRun |
| Filters.Opened | jasmin_api/rest_api/views/filters.py:114-156 | `filter -a`, the parameter checks and the keyed dialogue: the primary, the replicas and the outcome follow OpenedRun |
| Filters.CreateMissing | jasmin_api/rest_api/views/filters.py:108-112 | a request without type or fid is MissingKeyError before any line is sent |
| Filters.CreateChecksAfterOpen | jasmin_api/rest_api/views/filters.py:114-145 | a missing parameter or unsupported type fails after `filter -a` has gone out and before any key line |
| Filters.OpenedAnswers | jasmin_api/rest_api/views/filters.py:114-156 | a filter that `create` answers with has the requested fid, and the configuration was fanned out exactly when the deployment has replicas |
| Filters.KeyedAnswers | jasmin_api/rest_api/views/filters.py:147-156 | the same for the dialogue after `filter -a` |
| Filters.KeyedAllAccepted | jasmin_api/rest_api/views/filters.py:147-156 | with every key accepted the dialogue after `filter -a` is one line per key in order, `ok`, `persist` and `filter -l` |
| Filters.CreateAllAccepted | jasmin_api/rest_api/views/filters.py:114-156 | with every key accepted the whole dialogue is `filter -a`, the key lines in order, `ok`, `persist` and `filter -l` |
| Filters.Create | jasmin_api/rest_api/views/filters.py:95-156 | the primary, the replicas and the outcome of `create` follow CreateRun (lower-cased type) |
| Filters.SucceededRun | jasmin_api/rest_api/views/filters.py:175-187 | after a successful action: `persist` first, fan-out exactly when the deployment has replicas, and the answer is the filter with that fid, or just `{'fid': fid}` with nothing sent after `persist` |
| Filters.Succeeded | jasmin_api/rest_api/views/filters.py:175-187 | the primary, the replicas and the outcome follow SucceededRun |
| Filters.ActionRun | jasmin_api/rest_api/views/filters.py:158-194 | `filter -<action> <fid>` goes first; pattern 1 is UnknownError "No filter: fid" and pattern 2 JasminError with the capture, both with nothing more sent; pattern 0 sends `persist` next; only pattern 0 succeeds, answering `{'fid': fid}` when no filter is asked for |
| Filters.Action | jasmin_api/rest_api/views/filters.py:158-194 | the primary, the replicas and the outcome follow ActionRun |
| Filters.Destroy | jasmin_api/rest_api/views/filters.py:196-207 | without a replica list (`request.telnet_list` unset) destroy fails with AttributeError and sends nothing; otherwise it is the `r` action answering with the fid |
| Groups.GroupOf | jasmin_api/rest_api/views/groups.py:43-47 | a body line describes a group exactly when it has at least two characters (otherwise `g[1]` raises IndexError), and the group is enabled exactly when the second character is not `!` |
| Groups.GroupName | jasmin_api/rest_api/views/groups.py:44 | the name is the stripped line without its marker run: only `!` and `#` were dropped, and the name does not start with either |
| Groups.GroupsOf | jasmin_api/rest_api/views/groups.py:39-50 | one group per body line, or the IndexError of a short line |
| Groups.GroupsOfLines | jasmin_api/rest_api/views/groups.py:39-50 | the lines parse if and only if each has two characters, and then the i-th group is the i-th line's |
| Groups.Listing | jasmin_api/rest_api/views/groups.py:35-38 | a `group -l` reply of fewer than three lines (or no body) lists no group |
| Groups.ListRun | jasmin_api/rest_api/views/groups.py:30-50 | `list` sends `group -l` and reads one reply; a matched reply answers with exactly the Listing of its text; an unmatched wait is pexpect's EOF or TIMEOUT |
| Groups.List | jasmin_api/rest_api/views/groups.py:30-50 | the session advances as ListRun says and the outcome is ListRun's |
| Groups.PersistedRun | jasmin_api/rest_api/views/groups.py:73-77 | the bare `persist` and its wait; success exactly when the wait matched, answering with the gid, fanned out exactly when the deployment has replicas |
| Groups.Persisted | jasmin_api/rest_api/views/groups.py:73-77 | the primary, the replicas and the outcome follow PersistedRun |
| Groups.OpenedRun | jasmin_api/rest_api/views/groups.py:68-77 | after `group -a`: without a gid, MissingKeyError with nothing more sent; a success needs the gid and answers with it |
| Groups.Opened | jasmin_api/rest_api/views/groups.py:68-77 | the primary, the replicas and the outcome follow OpenedRun |
| Groups.CreateMissing | jasmin_api/rest_api/views/groups.py:66-69 | `group -a` goes out before the gid check, so a missing gid costs exactly that one line and is MissingKeyError |
| Groups.CreateAnswers | jasmin_api/rest_api/views/groups.py:52-77 | a created group had a gid and is named by it; the dialogue was exactly `group -a`, `gid <gid>`, `ok`, `persist`, and it fanned out exactly when the deployment has replicas |
| Groups.Create | jasmin_api/rest_api/views/groups.py:52-77 | the primary, the replicas and the outcome follow CreateRun |
| Groups.Flag | jasmin_api/rest_api/views/groups.py:105-132 | destroy sends `r`, enable `e` and disable `d`, each one character, and no other action sends that flag |
| Groups.FlagInjective | jasmin_api/rest_api/views/groups.py:105-132 | two actions send the same flag exactly when they are the same action |
| Groups.ActionRun | jasmin_api/rest_api/views/groups.py:79-94 | pattern 0: the action line then `persist\n` with no wait for it, fan-out exactly when the deployment has replicas, answer the gid; pattern 1: ObjectNotFoundError "Unknown group: gid"; pattern 2: ActionFailed with the capture; a failed wait raises pexpect's error |
| Groups.Act | jasmin_api/rest_api/views/groups.py:96-132 | destroy, enable and disable: without a replica list it fails with AttributeError and sends nothing; otherwise the primary, the replicas and the outcome follow ActionRun |
| MtRouter.RouteOf | jasmin_api/rest_api/views/mtrouter.py:56-66 | a listing row describes an MT route exactly when it has the four route columns (a shorter row raises IndexError) |
| MtRouter.RoutesOf | jasmin_api/rest_api/views/mtrouter.py:55-68 | one route per row, or the IndexError of a short row |
| MtRouter.RoutesOfRows | jasmin_api/rest_api/views/mtrouter.py:55-68 | the rows parse if and only if every row has four columns, and then the i-th route is the i-th row's |
| MtRouter.Routes | jasmin_api/rest_api/views/mtrouter.py:44-47 | a `mtrouter -l` reply of fewer than three lines (or no body) lists no route |
| MtRouter.ListRun | jasmin_api/rest_api/views/mtrouter.py:35-68 | `_list` sends `mtrouter -l` and reads one reply; a matched reply answers with exactly the Routes of its text; an unmatched wait is pexpect's EOF or TIMEOUT |
| MtRouter.List | jasmin_api/rest_api/views/mtrouter.py:35-68 | the session advances as ListRun says and the outcome is ListRun's |
| MtRouter.ListView | jasmin_api/rest_api/views/mtrouter.py:70-81 | `list` answers as `_list` does, and any failure becomes UnknownError "Error listing MT routers" |
| MtRouter.Find | jasmin_api/rest_api/views/mtrouter.py:93 | the route found has the order and is the first such; none is found exactly when no listed route has that order |
| MtRouter.GetRouterRun | jasmin_api/rest_api/views/mtrouter.py:83-96 | get_router sends only `mtrouter -l`; a listing holding the order answers with the first route Find gives; a listing without it is ObjectNotFoundError "No MTRouter with order: ..."; a failed listing passes its failure on |
| MtRouter.GetRouter | jasmin_api/rest_api/views/mtrouter.py:83-96 | the session advances as GetRouterRun says and the outcome is GetRouterRun's |
| MtRouter.Retrieve | jasmin_api/rest_api/views/mtrouter.py:98-109 | `retrieve` turns ObjectNotFoundError into UnknownError with the same detail and passes everything else through |
| MtRouter.FlushRun | jasmin_api/rest_api/views/mtrouter.py:112-127 | a flush that succeeds sent `mtrouter -f` then `persist` and fanned out exactly when the deployment has replicas; a failed first wait stops after `mtrouter -f` |
| MtRouter.Flush | jasmin_api/rest_api/views/mtrouter.py:112-127 | the primary, the replicas and the outcome follow FlushRun |
| MtRouter.RoutingKeys | jasmin_api/rest_api/views/mtrouter.py:165-173 | a non-default route needs filters (MissingKeyError "... router requires filters" otherwise) and then sets filters and order, in that order; the default route sets neither |
| MtRouter.ConnectorKey | jasmin_api/rest_api/views/mtrouter.py:184-193 | a round-robin route takes two or more connectors under `connectors` (MultipleValuesRequiredKeyError otherwise); every other type exactly one under `connector` (MissingKeyError otherwise) |
| MtRouter.Keys | jasmin_api/rest_api/views/mtrouter.py:165-196 | the keys exist exactly when the routing keys and the connector key do; the first of those checks to fail decides; the keys are type, routing keys, connector key, rate in that order |
| MtRouter.KeysOrder | jasmin_api/rest_api/views/mtrouter.py:165-196 | the key names sent are type, then filters and order unless the default route, then connector(s), then rate |
| MtRouter.FiltersRoundTrip | jasmin_api/rest_api/views/mtrouter.py:169-172 | round trip: the filters key splits back at `;` into the request's comma-separated filters, each stripped, empty items kept |
| MtRouter.ConnectorsRoundTrip | jasmin_api/rest_api/views/mtrouter.py:189 | round trip: a round-robin route's connectors key splits back at `;` into the connector list |
| MtRouter.PersistedRouteRun | jasmin_api/rest_api/views/mtrouter.py:202-208 | `persist` first, then `mtrouter -l` once the persist wait matched; a success fanned out exactly when the deployment has replicas and answers with the requested order |
| MtRouter.PersistedRoute | jasmin_api/rest_api/views/mtrouter.py:202-208 | the primary, the replicas and the outcome follow PersistedRouteRun |
| MtRouter.Keyed | jasmin_api/rest_api/views/mtrouter.py:199-208 | the primary, the replicas and the outcome of set_ikeys, persist, fan-out and lookup follow KeyedRun |
| MtRouter.Opened | jasmin_api/rest_api/views/mtrouter.py:162-208 | the primary, the replicas and the outcome of `mtrouter -a` and what follows follow OpenedRun |
| MtRouter.CreateMissing | jasmin_api/rest_api/views/mtrouter.py:153-158 | the first of type, order, rate that the request lacks is MissingKeyError "Missing parameter: ... is required" with nothing sent |
| MtRouter.OpenedOpens | jasmin_api/rest_api/views/mtrouter.py:162-163 | once the required keys are present, `mtrouter -a` is the first line sent |
| MtRouter.OpenedAnswers | jasmin_api/rest_api/views/mtrouter.py:162-208 | a route `create` answers with has the requested order, and the configuration was fanned out exactly when the deployment has replicas |
| MtRouter.KeyedAnswers | jasmin_api/rest_api/views/mtrouter.py:199-208 | the same for the dialogue after `mtrouter -a` |
| MtRouter.CreateChecksAfterOpen | jasmin_api/rest_api/views/mtrouter.py:162-193 | the filter and connector checks fail after `mtrouter -a` and before any key line, with their own error |
| MtRouter.KeyedAllAccepted | jasmin_api/rest_api/views/mtrouter.py:199-208 | with every key accepted the dialogue after `mtrouter -a` is one line per key in order, `ok`, `persist`, `mtrouter -l` |
| MtRouter.CreateAllAccepted | jasmin_api/rest_api/views/mtrouter.py:162-208 | with every key accepted the whole dialogue is `mtrouter -a`, the key lines in order, `ok`, `persist`, `mtrouter -l` |
| MtRouter.Create | jasmin_api/rest_api/views/mtrouter.py:129-208 | the primary, the replicas and the outcome of `create` follow CreateRun (lower-cased type) |
| MtRouter.SucceededRun | jasmin_api/rest_api/views/mtrouter.py:231-246 | after a successful action: `persist` first, fan-out exactly when the deployment has replicas, and the answer is the route with that order, or just `{'order': order}` with nothing sent after `persist` |
| MtRouter.Succeeded | jasmin_api/rest_api/views/mtrouter.py:231-246 | the primary, the replicas and the outcome follow SucceededRun |
| MtRouter.ActionRun | jasmin_api/rest_api/views/mtrouter.py:210-254 | `mtrouter -<action> <order>` goes first; pattern 1 is UnknownError "No router: order", pattern 2 JasminError with the stripped capture or "Unknown error", both with nothing more sent; pattern 0 sends `persist` next; only pattern 0 succeeds |
| MtRouter.Action | jasmin_api/rest_api/views/mtrouter.py:210-254 | the primary, the replicas and the outcome follow ActionRun |
| MtRouter.Destroy | jasmin_api/rest_api/views/mtrouter.py:256-271 | without a replica list destroy fails with AttributeError and sends nothing; otherwise it is the `r` action answering with the order |
| MoRouter.RouteOf | jasmin_api/rest_api/views/morouter.py:51-60 | a listing row describes an MO route exactly when it has the three route columns (a shorter row raises IndexError) |
| MoRouter.RoutesOf | jasmin_api/rest_api/views/morouter.py:51-60 | one route per row, or the IndexError of a short row |
| MoRouter.RoutesOfRows | jasmin_api/rest_api/views/morouter.py:51-60 | the rows parse if and only if every row has three columns, and then the i-th route is the i-th row's |
| MoRouter.Routes | jasmin_api/rest_api/views/morouter.py:42-46 | a `morouter -l` reply of fewer than three lines (or no body) lists no route |
| MoRouter.ListRun | jasmin_api/rest_api/views/morouter.py:33-68 | `_list` (and `list`, which answers with it unchanged) sends `morouter -l` and reads one reply; a matched reply answers with exactly the Routes of its text; an unmatched wait is pexpect's EOF or TIMEOUT |
| MoRouter.List | jasmin_api/rest_api/views/morouter.py:62-68 | the session advances as ListRun says and the outcome is ListRun's |
| MoRouter.Find | jasmin_api/rest_api/views/morouter.py:80 | the route found has the order and is the first such; none is found exactly when no listed route has that order |
| MoRouter.GetRouterRun | jasmin_api/rest_api/views/morouter.py:70-91 | get_router (and `retrieve`) sends only `morouter -l`; a listing holding the order answers with the first route Find gives; a listing without it is ObjectNotFoundError "No MO Router with order: ..."; a failed listing passes its failure on |
| MoRouter.GetRouter | jasmin_api/rest_api/views/morouter.py:70-91 | the session advances as GetRouterRun says and the outcome is GetRouterRun's |
| MoRouter.FlushRun | jasmin_api/rest_api/views/morouter.py:94-109 | a flush that succeeds sent `morouter -f` then `persist` and fanned out exactly when the deployment has replicas; a failed first wait stops after `morouter -f` |
| MoRouter.Flush | jasmin_api/rest_api/views/morouter.py:94-109 | the primary, the replicas and the outcome follow FlushRun |
| MoRouter.RoutingKeys | jasmin_api/rest_api/views/morouter.py:133-141 | a non-default route needs filters (MissingKeyError otherwise) and then sets filters and order, in that order; the default route sets neither |
| MoRouter.ConnectorKey | jasmin_api/rest_api/views/morouter.py:150-160 | a round-robin route takes two or more connectors under `connectors` (MultipleValuesRequiredKeyError otherwise); every other type exactly one under `connector` (MissingKeyError otherwise) |
| MoRouter.Keys | jasmin_api/rest_api/views/morouter.py:133-160 | the keys exist exactly when the routing keys and the connector key do; the first check to fail decides; the keys are type, routing keys, connector key in that order |
| MoRouter.KeysOrder | jasmin_api/rest_api/views/morouter.py:133-160 | the key names sent are type, then filters and order unless the default route, then connector(s) |
| MoRouter.FiltersRoundTrip | jasmin_api/rest_api/views/morouter.py:137-140 | round trip: the filters key splits back at `;` into the request's comma-separated filters, unstripped, empty items kept |
| MoRouter.ConnectorsRoundTrip | jasmin_api/rest_api/views/morouter.py:155 | round trip: a round-robin route's connectors key splits back at `;` into the connector list |
| MoRouter.PersistedRouteRun | jasmin_api/rest_api/views/morouter.py:163-169 | `persist` first, then `morouter -l` once the persist wait matched; a success fanned out exactly when the deployment has replicas and answers with the requested order |
| MoRouter.PersistedRoute | jasmin_api/rest_api/views/morouter.py:163-169 | the primary, the replicas and the outcome follow PersistedRouteRun |
| MoRouter.Keyed | jasmin_api/rest_api/views/morouter.py:162-169 | the primary, the replicas and the outcome of set_ikeys, persist, fan-out and lookup follow KeyedRun |
| MoRouter.Opened | jasmin_api/rest_api/views/morouter.py:130-169 | the primary, the replicas and the outcome of `morouter -a` and what follows follow OpenedRun |
| MoRouter.CreateMissing | jasmin_api/rest_api/views/morouter.py:124-128 | a request without type or order is MissingKeyError before any line is sent |
| MoRouter.OpenedOpens | jasmin_api/rest_api/views/morouter.py:130-131 | once type and order are present, `morouter -a` is the first line sent |
| MoRouter.OpenedAnswers | jasmin_api/rest_api/views/morouter.py:130-169 | a route `create` answers with has the requested order, and the configuration was fanned out exactly when the deployment has replicas |
| MoRouter.KeyedAnswers | jasmin_api/rest_api/views/morouter.py:162-169 | the same for the dialogue after `morouter -a` |
| MoRouter.CreateChecksAfterOpen | jasmin_api/rest_api/views/morouter.py:130-160 | the filter and connector checks fail after `morouter -a` and before any key line, with their own error |
| MoRouter.KeyedAllAccepted | jasmin_api/rest_api/views/morouter.py:162-169 | with every key accepted the dialogue after `morouter -a` is one line per key in order, `ok`, `persist`, `morouter -l` |
| MoRouter.CreateAllAccepted | jasmin_api/rest_api/views/morouter.py:130-169 | with every key accepted the whole dialogue is `morouter -a`, the key lines in order, `ok`, `persist`, `morouter -l` |
| MoRouter.Create | jasmin_api/rest_api/views/morouter.py:111-169 | the primary, the replicas and the outcome of `create` follow CreateRun (lower-cased type) |
| MoRouter.SucceededRun | jasmin_api/rest_api/views/morouter.py:188-199 | after a successful action: `persist` first, fan-out exactly when the deployment has replicas, and the answer is the route with that order, or just `{'order': order}` with nothing sent after `persist` |
| MoRouter.Succeeded | jasmin_api/rest_api/views/morouter.py:188-199 | the primary, the replicas and the outcome follow SucceededRun |
| MoRouter.ActionRun | jasmin_api/rest_api/views/morouter.py:171-205 | `morouter -<action> <order>` goes first; pattern 1 is UnknownError "No router: order", pattern 2 JasminError with the capture as matched, both with nothing more sent; pattern 0 sends `persist` next; only pattern 0 succeeds |
| MoRouter.Action | jasmin_api/rest_api/views/morouter.py:171-205 | the primary, the replicas and the outcome follow ActionRun |
| MoRouter.Destroy | jasmin_api/rest_api/views/morouter.py:207-216 | without a replica list destroy fails with AttributeError and sends nothing; otherwise it is the `r` action answering with the order |
| Smppccm.StatusesOf | jasmin_api/rest_api/views/smppccm.py:128-137 | one console's statuses are at most one per listing row |
| Smppccm.StatusesOfRows | jasmin_api/rest_api/views/smppccm.py:128-137 | on listing rows (each marked with `#`), the statuses exist if and only if every row has three fields, and then the i-th status is the i-th row's id after the `#`, status and session |
| Smppccm.Statuses | jasmin_api/rest_api/views/smppccm.py:128-137 | the loop over one console's rows computes exactly StatusesOf |
| Smppccm.StatusesPrefixErr | jasmin_api/rest_api/views/smppccm.py:128-137 | a row that raises ends the loop: later rows change nothing |
| Smppccm.InstanceRun | jasmin_api/rest_api/views/smppccm.py:127-137 | one console is asked `smppccm -l` once, reads one reply and fans nothing out |
| Smppccm.Instance | jasmin_api/rest_api/views/smppccm.py:127-137 | the console advances as InstanceRun says and the outcome is InstanceRun's |
| Smppccm.Views | jasmin_api/rest_api/views/smppccm.py:123 | one view (script and read position) per session, in order |
| Smppccm.Answers | jasmin_api/rest_api/views/smppccm.py:126-137 | one answer per console, in order |
| Smppccm.AnswersAt | jasmin_api/rest_api/views/smppccm.py:126-137 | the i-th answer is what the i-th console reports from where it stood |
| Smppccm.SurveyOf | jasmin_api/rest_api/views/smppccm.py:126-139 | a survey that answers reached every console and lists one instance per console; one that fails stopped at the console whose failure it carries |
| Smppccm.SurveyAllOk | jasmin_api/rest_api/views/smppccm.py:126-139 | when every console answered, the survey holds their status lists in order |
| Smppccm.SurveyFirstErr | jasmin_api/rest_api/views/smppccm.py:126-139 | the first console that fails ends the survey with its failure, and no later console is asked |
| Smppccm.SurveyInstances | jasmin_api/rest_api/views/smppccm.py:126-139 | a survey that answers holds each console's list at its position; every console before the stopping one answered |
| Smppccm.SurveyPrefixErr | jasmin_api/rest_api/views/smppccm.py:126-139 | a failed survey changes nothing by going on |
| Smppccm.Poll | jasmin_api/rest_api/views/smppccm.py:127 | one console sends `smppccm -l`, reads one reply and answers what the survey expects of it |
| Smppccm.ListStatus | jasmin_api/rest_api/views/smppccm.py:115-139 | the primary then each replica is asked once, in order, until one fails; the answer is the survey of their answers; the consoles after the stopping one are untouched |
| Smppccm.ListedOf | jasmin_api/rest_api/views/smppccm.py:157-166 | a missing or empty page adds nothing; a found non-empty page adds exactly one connector when the row has five fields (IndexError otherwise), carrying the row's id, status, session, starts and stops and every other key of the page unchanged |
| Smppccm.LookUpRun | jasmin_api/rest_api/views/smppccm.py:155-166 | one lookup sends `smppccm -s <cid>`, reads one reply, fans nothing out and adds at most one connector |
| Smppccm.ConnectorsRun | jasmin_api/rest_api/views/smppccm.py:154-166 | the lookups send one line per reply read, at most one per row; a listing that answers looked up every row and has at most one connector per row (Smppccm.ConnectorsAllFound states the all-found case) |
| Smppccm.LookUpFound | jasmin_api/rest_api/views/smppccm.py:157-166 | a lookup whose page is found and non-empty, for a five-field row, adds exactly one connector, merged with that row |
| Smppccm.ConnectorsAllFound | jasmin_api/rest_api/views/smppccm.py:154-166 | when every row has five fields and every page is found and non-empty, the listing holds one connector per row, each merged with its own row, in row order |
| Smppccm.ShowLines | jasmin_api/rest_api/views/smppccm.py:157 | one `smppccm -s <cid>` per row, in row order |
| Smppccm.ConnectorsLines | jasmin_api/rest_api/views/smppccm.py:154-166 | a listing whose lookups all succeed asked for the page of every row, in order |
| Smppccm.ConnectorsMerged | jasmin_api/rest_api/views/smppccm.py:154-166 | every connector the listing answers with carries the id and status columns of a listing row |
| Smppccm.MissAddsNothing | jasmin_api/rest_api/views/smppccm.py:157-158 | a silent miss (any pattern but 2) adds no connector for its row |
| Smppccm.ListRun | jasmin_api/rest_api/views/smppccm.py:141-168 | `list` starts with `smppccm -l` and fans nothing out |
| Smppccm.LookUpOne | jasmin_api/rest_api/views/smppccm.py:155-166 | one lookup of the loop sends one line, reads one reply and extends the list as LookUpRun says |
| Smppccm.LookUp | jasmin_api/rest_api/views/smppccm.py:154-166 | the loop advances the console as ConnectorsRun says and its outcome is ConnectorsRun's |
| Smppccm.ConnectorsPrefixErr | jasmin_api/rest_api/views/smppccm.py:154-166 | a lookup that fails ends the listing: the later rows are not looked up |
| Smppccm.List | jasmin_api/rest_api/views/smppccm.py:141-168 | the console advances as ListRun says and the outcome is ListRun's |
| Smppccm.RowMerged | jasmin_api/rest_api/views/smppccm.py:182-196 | without a `#<cid>` row it is ObjectNotFoundError "Unknown connector: cid"; with one it succeeds exactly when that row has five fields, and the merge carries that row's status, session, starts and stops |
| Smppccm.RetrieveRun | jasmin_api/rest_api/views/smppccm.py:170-198 | `smppccm -s <cid>` goes first; whenever the page and the listing are found the answer is RowMerged of them; a success sent exactly that and `smppccm -l` |
| Smppccm.RetrieveUnlisted | jasmin_api/rest_api/views/smppccm.py:187-188 | a connector the detail page knows but the listing does not is ObjectNotFoundError |
| Smppccm.Retrieve | jasmin_api/rest_api/views/smppccm.py:170-198 | the console advances as RetrieveRun says and the outcome is RetrieveRun's |
| Smppccm.Keyed | jasmin_api/rest_api/views/smppccm.py:226-235 | set_ikeys with the cid, persist and the fan-out: the primary, the replicas and the outcome follow KeyedRun |
| Smppccm.CreateMissing | jasmin_api/rest_api/views/smppccm.py:218-220 | a missing or empty cid is MissingKeyError with nothing sent |
| Smppccm.CreateAnswers | jasmin_api/rest_api/views/smppccm.py:200-235 | a created connector had a non-empty cid and answers with it; the configuration was fanned out exactly when the deployment has replicas |
| Smppccm.CreateAllAccepted | jasmin_api/rest_api/views/smppccm.py:222-230 | with the cid accepted the dialogue is `smppccm -a`, `cid <cid>`, `ok`, `persist` |
| Smppccm.Create | jasmin_api/rest_api/views/smppccm.py:200-235 | the primary, the replicas and the outcome of `create` follow CreateRun |
| Smppccm.PatchLines | jasmin_api/rest_api/views/smppccm.py:331-332 | one `"key value\n"` line per entry, in order |
| Smppccm.PatchLinesPrefix | jasmin_api/rest_api/views/smppccm.py:331-332 | the lines of a longer prefix are those of the shorter plus the next entry's |
| Smppccm.EntriesRun | jasmin_api/rest_api/views/smppccm.py:331-354 | the entry loop and `ok\n` send one line per reply read, at most one per entry plus one, and fan nothing out |
| Smppccm.EntriesAllTaken | jasmin_api/rest_api/views/smppccm.py:331-354 | with every entry accepted: one line per entry in order, then exactly one `ok\n`, whose reply decides |
| Smppccm.EntriesFirstRejected | jasmin_api/rest_api/views/smppccm.py:331-342 | the first rejected entry ends the loop: it is the last line sent, and its error is the reply's classification |
| Smppccm.EntriesSucceed | jasmin_api/rest_api/views/smppccm.py:331-354 | a loop that completes had every entry accepted and read one reply per entry plus one for `ok\n` |
| Smppccm.SendEntry | jasmin_api/rest_api/views/smppccm.py:332-342 | one entry line and one reply, classified by UpdateVerdict |
| Smppccm.SendEntries | jasmin_api/rest_api/views/smppccm.py:331-354 | the loop advances the console as EntriesRun says and its outcome is EntriesRun's |
| Smppccm.PatchedRun | jasmin_api/rest_api/views/smppccm.py:325-329 | a body that is not a dictionary, or an empty one, is JasminSyntaxError with nothing sent |
| Smppccm.PersistedRun | jasmin_api/rest_api/views/smppccm.py:356-363 | `persist` first; a success fanned out exactly when the deployment has replicas and is the detail page read after it |
| Smppccm.Persisted | jasmin_api/rest_api/views/smppccm.py:356-363 | the primary, the replicas and the outcome follow PersistedRun |
| Smppccm.Patched | jasmin_api/rest_api/views/smppccm.py:325-363 | the primary, the replicas and the outcome of the open update session follow PatchedRun |
| Smppccm.PartialUpdateRun | jasmin_api/rest_api/views/smppccm.py:311-329 | `smppccm -u <cid>` goes first; pattern 1 is UnknownError "Unknown connector: cid", pattern 2 JasminError with the whole match collapsed, a bad body JasminSyntaxError, each with nothing more sent |
| Smppccm.Opened | jasmin_api/rest_api/views/smppccm.py:319-363 | the primary, the replicas and the outcome of what the opening reply leads to follow OpenedRun |
| Smppccm.PatchedAnswers | jasmin_api/rest_api/views/smppccm.py:325-363 | an open session that completes had a non-empty dictionary whose every entry was accepted, fanned out exactly when the deployment has replicas, and answers with the detail page read after `ok\n` and `persist` |
| Smppccm.PartialUpdateAnswers | jasmin_api/rest_api/views/smppccm.py:297-363 | an update that completes opened the session on pattern 0 with a non-empty dictionary, fanned out exactly when the deployment has replicas, and answers with the detail page shown at the end |
| Smppccm.PartialUpdateAllTaken | jasmin_api/rest_api/views/smppccm.py:311-363 | with the session open and every entry accepted the dialogue is `smppccm -u <cid>`, the entry lines in order, `ok\n`, `persist`, `smppccm -s <cid>` |
| Smppccm.PartialUpdate | jasmin_api/rest_api/views/smppccm.py:297-363 | the primary, the replicas and the outcome follow PartialUpdateRun |
| Smppccm.ActionRun | jasmin_api/rest_api/views/smppccm.py:79-112 | the action line goes first; pattern 1 is ObjectNotFoundError "Unknown SMPP Connector: cid", pattern 2 ActionFailed with the stripped capture or "Unknown error", both with nothing more sent |
| Smppccm.ActionAnswers | jasmin_api/rest_api/views/smppccm.py:99-105 | an action that completes matched pattern 0, sent exactly the action line and `persist`, answers with the cid, and fanned out exactly when the deployment has replicas |
| Smppccm.Acted | jasmin_api/rest_api/views/smppccm.py:99-112 | the primary, the replicas and the outcome of what the action reply leads to follow ActedRun |
| Smppccm.Action | jasmin_api/rest_api/views/smppccm.py:237-294 | destroy, start and stop: the primary, the replicas and the outcome follow ActionRun with flag `r`, `1` or `0` |
| Httpccm.ListedOf | jasmin_api/rest_api/views/httpccm.py:121-129 | a silent miss adds nothing; a found connector is added exactly when its row has four fields, with the row's id, type, method and url merged in and every other field of the page kept |
| Httpccm.LookUpRun | jasmin_api/rest_api/views/httpccm.py:118-129 | one lookup sends `httpccm -s <cid>`, reads one reply, fans nothing out and adds at most one connector |
| Httpccm.LookUpFound | jasmin_api/rest_api/views/httpccm.py:121-129 | a lookup whose page is found, for a four-field row, adds exactly one connector, merged with that row |
| Httpccm.ConnectorsRun | jasmin_api/rest_api/views/httpccm.py:117-129 | the lookups send one line per reply read, at most one per row; a listing that answers looked up every row and has at most one connector per row |
| Httpccm.ShowLines | jasmin_api/rest_api/views/httpccm.py:121 | one `httpccm -s <cid>` per row, in row order |
| Httpccm.ConnectorsLines | jasmin_api/rest_api/views/httpccm.py:117-129 | a listing whose lookups all succeed asked for the page of every row, in order |
| Httpccm.ConnectorsMerged | jasmin_api/rest_api/views/httpccm.py:117-129 | every connector the listing answers with carries the id, type, method and url of a listing row |
| Httpccm.ConnectorsAllFound | jasmin_api/rest_api/views/httpccm.py:117-129 | when every row has four fields and every page is found, the listing holds one connector per row, each merged with its own row |
| Httpccm.MissAddsNothing | jasmin_api/rest_api/views/httpccm.py:121-122 | a silent miss (any pattern but 2) adds no connector for its row |
| Httpccm.ListRun | jasmin_api/rest_api/views/httpccm.py:108-130 | `list` starts with `httpccm -l` and fans nothing out |
| Httpccm.LookUpOne | jasmin_api/rest_api/views/httpccm.py:118-129 | one lookup of the loop sends one line, reads one reply and extends the list as LookUpRun says |
| Httpccm.LookUp | jasmin_api/rest_api/views/httpccm.py:117-129 | the loop advances the console as ConnectorsRun says and its outcome is ConnectorsRun's |
| Httpccm.ConnectorsPrefixErr | jasmin_api/rest_api/views/httpccm.py:117-129 | a lookup that fails ends the listing: the later rows are not looked up |
| Httpccm.List | jasmin_api/rest_api/views/httpccm.py:108-130 | the console advances as ListRun says and the outcome is ListRun's |
| Httpccm.RowMerged | jasmin_api/rest_api/views/httpccm.py:142-151 | a merged connector carries the columns of a listing row named `#<cid>`; without such a row it is ObjectNotFoundError "Unknown connector: cid"; with one, it merges exactly when the row has four fields |
| Httpccm.RetrieveRun | jasmin_api/rest_api/views/httpccm.py:132-152 | `httpccm -s <cid>` goes first; whenever the page and the listing are found the answer is RowMerged of them; a success sent exactly that and `httpccm -l` |
| Httpccm.RetrieveUnknown | jasmin_api/rest_api/views/httpccm.py:138 | a connector the detail page does not know is ObjectNotFoundError "Unknown connector: cid" with nothing more sent |
| Httpccm.RetrieveUnlisted | jasmin_api/rest_api/views/httpccm.py:142-144 | a connector the detail page knows but the listing does not is ObjectNotFoundError |
| Httpccm.Retrieve | jasmin_api/rest_api/views/httpccm.py:132-152 | the console advances as RetrieveRun says and the outcome is RetrieveRun's |
| Httpccm.Lookup | jasmin_api/rest_api/views/httpccm.py:187 | the value of a key in the request data is one of its pairs, and there is none exactly when no pair has that key |
| Httpccm.CreateLinesShape | jasmin_api/rest_api/views/httpccm.py:163-169 | `httpccm -a`, one `"key value"` line per field in order, then `ok` |
| Httpccm.CreateAnswers | jasmin_api/rest_api/views/httpccm.py:154-187 | a created connector matched pattern 2, sent the creation lines and `persist\n`, answers with the request's cid, and fanned out exactly when the deployment has replicas |
| Httpccm.CreateRejected | jasmin_api/rest_api/views/httpccm.py:177-179 | any other pattern is JasminSyntaxError with the matched text collapsed, with nothing persisted and nothing fanned out |
| Httpccm.CreateWithoutCid | jasmin_api/rest_api/views/httpccm.py:182-187 | request data without a cid is persisted and fanned out and then fails with KeyError |
| Httpccm.SendEntries | jasmin_api/rest_api/views/httpccm.py:165-166 | the loop sends one `"key value"` line per field, in order |
| Httpccm.SendAll | jasmin_api/rest_api/views/httpccm.py:163-169 | the console is sent exactly CreateLines |
| Httpccm.Begin | jasmin_api/rest_api/views/httpccm.py:163-170 | `httpccm -a`, every field line and `ok` are all sent before the one wait, whose reply is the next scripted one |
| Httpccm.Created | jasmin_api/rest_api/views/httpccm.py:170-187 | the primary, the replicas and the outcome of what the `ok` reply leads to follow CreatedRun |
| Httpccm.Create | jasmin_api/rest_api/views/httpccm.py:154-187 | the primary, the replicas and the outcome of `create` follow CreateRun |
| Httpccm.ActionRun | jasmin_api/rest_api/views/httpccm.py:78-106 | the action line goes first; pattern 1 is ObjectNotFoundError "Unknown HTTP Connector: cid", pattern 2 ActionFailed with the captured text, both with nothing more sent |
| Httpccm.ActionAnswers | jasmin_api/rest_api/views/httpccm.py:94-100 | an action that completes matched pattern 0, sent exactly the action line and `persist\n`, answers with the cid, and fanned out exactly when the deployment has replicas |
| Httpccm.Acted | jasmin_api/rest_api/views/httpccm.py:94-106 | the primary, the replicas and the outcome of what the action reply leads to follow ActedRun |
| Httpccm.Action | jasmin_api/rest_api/views/httpccm.py:78-106 | the primary, the replicas and the outcome follow ActionRun |
| Httpccm.Destroy | jasmin_api/rest_api/views/httpccm.py:189-198 | removal with flag `r` advances the console as ActionRun says and, since the console is passed in place of the replica list, fans out to no replica |
| Users.ApplyLine | jasmin_api/rest_api/views/users.py:59-68 | a detail line fails exactly when it has four fields and its section already holds a flat value (Python's TypeError) |
| Users.RecordOfPrefixErr | jasmin_api/rest_api/views/users.py:58-68 | a line that raises ends the parse: later lines change nothing |
| Users.RecordFails | jasmin_api/rest_api/views/users.py:58-68 | the parse fails if and only if some four-field line names a section that an earlier two-field line set flat |
| Users.RecordKeys | jasmin_api/rest_api/views/users.py:58-68 | the parsed user's keys are exactly the first fields of its two- and four-field lines |
| Users.RecordFlat | jasmin_api/rest_api/views/users.py:58-68 | a key holds a flat value exactly when its last line among them has two fields |
| Users.Nest | jasmin_api/rest_api/views/users.py:62-68 | the in-place update of one four-field line computes ApplyLine |
| Users.ParseRecord | jasmin_api/rest_api/views/users.py:55-70 | the loop over the non-empty lines after the first computes RecordOf |
| Users.GetUserRun | jasmin_api/rest_api/views/users.py:33-70 | `user -s <uid>` and one reply; pattern 2 answers with the parse of the page's lines exactly when that parse succeeds; no user only when silent; any other pattern is None when silent, ObjectNotFoundError "Unknown user: uid" otherwise |
| Users.GetUser | jasmin_api/rest_api/views/users.py:33-70 | the console advances as GetUserRun says and the outcome is GetUserRun's |
| Users.UserRun | jasmin_api/rest_api/views/users.py:33-70 | the non-silent lookup: a user is exactly what GetUserRun finds, and a failure is GetUserRun's failure |
| Users.User | jasmin_api/rest_api/views/users.py:33-70 | the console advances as UserRun says and the outcome is UserRun's |
| Users.Retrieve | jasmin_api/rest_api/views/users.py:72-84 | the lookup's ObjectNotFoundError is re-raised as UnknownError with the same detail; every other outcome passes through |
| Users.AnnotatedUid | jasmin_api/rest_api/views/users.py:103 | a line yields an annotated uid exactly when it has a first word, and that uid is the word without its first character |
| Users.AnnotatedUids | jasmin_api/rest_api/views/users.py:103 | the uids exist exactly when every line has a first word (IndexError otherwise), one per line in order |
| Users.Annotation | jasmin_api/rest_api/views/users.py:106-113 | a uid is enabled exactly when it does not start with `!`, and the annotated uid is the bare uid with `!` put back for a disabled one |
| Users.Listed | jasmin_api/rest_api/views/users.py:106-115 | an unknown user or an empty record adds nothing; a non-empty record adds exactly one user: that record with its status `enabled` or `disabled` as annotated and every other key unchanged |
| Users.StatusedAppend | jasmin_api/rest_api/views/users.py:104-115 | lists of users that each carry a status stay so when joined |
| Users.LookUpRun | jasmin_api/rest_api/views/users.py:105-115 | one lookup sends `user -s <uid>` for the bare uid, reads one reply, fans nothing out, adds at most one user and keeps every user with a status |
| Users.UsersRun | jasmin_api/rest_api/views/users.py:104-115 | the lookups send one line per reply read, at most one per uid; a listing that answers looked up every uid, has at most one user per uid, and each carries a status (Users.UsersAllFound states the all-found case) |
| Users.LookUpFound | jasmin_api/rest_api/views/users.py:105-115 | a lookup whose page is found adds exactly that record, with status `disabled` for a `!` uid and `enabled` otherwise |
| Users.MissAddsNothing | jasmin_api/rest_api/views/users.py:105-115 | a lookup whose page is missing (any pattern but 2) adds nobody |
| Users.ListedKeeps | jasmin_api/rest_api/views/users.py:106-115 | the user a non-empty record adds has the record's keys plus `status`, and every key but `status` keeps the record's value |
| Users.UsersStep | jasmin_api/rest_api/views/users.py:105-115 | when the earlier lookups answered and the last page is found, the listing is the earlier one followed by that record with its annotated status |
| Users.UsersAllListed | jasmin_api/rest_api/views/users.py:104-115 | when every page is found, the listing is exactly ListedUsers: the records in uid order, each with its annotated status |
| Users.ListedUsersAt | jasmin_api/rest_api/views/users.py:104-115 | ListedUsers holds one user per uid, the i-th being the i-th record with the i-th uid's status |
| Users.UsersAllFound | jasmin_api/rest_api/views/users.py:104-115 | when every page is found, the listing holds one user per uid, in order, each the page's record with its annotated status |
| Users.ShowLines | jasmin_api/rest_api/views/users.py:107-111 | one `user -s <bare uid>` per annotated uid, in order |
| Users.UsersLines | jasmin_api/rest_api/views/users.py:104-115 | a listing whose lookups all succeed asked for every uid, in order |
| Users.ListRun | jasmin_api/rest_api/views/users.py:86-116 | `list` starts with `user -l` and fans nothing out; a reply shorter than three characters once stripped is the empty list with nothing more sent |
| Users.LookUpOne | jasmin_api/rest_api/views/users.py:105-115 | one lookup of the loop sends one line, reads one reply and extends the list as LookUpRun says |
| Users.LookUp | jasmin_api/rest_api/views/users.py:104-115 | the loop advances the console as UsersRun says and its outcome is UsersRun's |
| Users.UsersPrefixErr | jasmin_api/rest_api/views/users.py:104-115 | a lookup that fails ends the listing: the later uids are not looked up |
| Users.List | jasmin_api/rest_api/views/users.py:86-116 | the console advances as ListRun says and the outcome is ListRun's |
| Users.PersistedUserRun | jasmin_api/rest_api/views/users.py:148-155 | `persist` first and then `user -s <uid>`; a success fanned out exactly when the deployment has replicas and is the user shown after it |
| Users.PersistedUser | jasmin_api/rest_api/views/users.py:148-155 | the primary, the replicas and the outcome follow PersistedUserRun |
| Users.MissingKey | jasmin_api/rest_api/views/users.py:130-136 | no key is missing exactly when uid, gid, username and password are all present; a missing one is the first of them absent from the data |
| Users.Keyed | jasmin_api/rest_api/views/users.py:146-155 | the primary, the replicas and the outcome of set_ikeys, persist and the final lookup follow KeyedRun |
| Users.KeyedAnswers | jasmin_api/rest_api/views/users.py:146-155 | a user created fanned out exactly when the deployment has replicas and is the user shown after the keys, the commit and persist |
| Users.KeyedAllAccepted | jasmin_api/rest_api/views/users.py:146-155 | with every key accepted and the commit accepted the dialogue is the key lines, `ok`, `persist`, `user -s <uid>` |
| Users.Opened | jasmin_api/rest_api/views/users.py:139-155 | the primary, the replicas and the outcome after the `user -a` reply follow OpenedRun |
| Users.CreateMissing | jasmin_api/rest_api/views/users.py:130-136 | a missing field is MissingKeyError "Missing parameter: <key> is required" with nothing sent |
| Users.CreateAnswers | jasmin_api/rest_api/views/users.py:118-155 | a created user had all four fields, fanned out exactly when the deployment has replicas, and is the user shown at the end |
| Users.CreateAllAccepted | jasmin_api/rest_api/views/users.py:138-155 | with every key accepted the dialogue is `user -a`, uid, gid, username, password, `ok`, `persist`, `user -s <uid>` |
| Users.Create | jasmin_api/rest_api/views/users.py:118-155 | the primary, the replicas and the outcome of `create` follow CreateRun |
| Users.UpdateLines | jasmin_api/rest_api/views/users.py:257-261 | one joined line per update, in order (element by element: Users.UpdateLinesAt) |
| Users.UpdateLinesAt | jasmin_api/rest_api/views/users.py:257-261 | the i-th line sent is the i-th update joined with spaces |
| Users.UpdatesAllTaken | jasmin_api/rest_api/views/users.py:257-279 | with every update well formed and taken: their lines, then `ok\n`, whose reply decides |
| Users.UpdatesFirstRefused | jasmin_api/rest_api/views/users.py:258-259 | the first update that is not a non-empty list ends the loop with JasminSyntaxError "Invalid update format: …" and is not sent |
| Users.UpdatesFirstRejected | jasmin_api/rest_api/views/users.py:262-270 | the first update Jasmin does not take ends the loop: it is the last line sent and its reply's classification is the error |
| Users.UpdateLinesPrefix | jasmin_api/rest_api/views/users.py:257-261 | the lines of a longer prefix are those of the shorter plus the next update's |
| Users.SendUpdate | jasmin_api/rest_api/views/users.py:260-270 | one update line and one reply, classified by UpdateVerdict |
| Users.SendUpdates | jasmin_api/rest_api/views/users.py:257-279 | the loop advances the console as UpdatesRun says and its outcome is UpdatesRun's |
| Users.UpdatesSucceed | jasmin_api/rest_api/views/users.py:257-279 | a loop that completes had every update well formed and taken and read one reply per update plus one for `ok\n` |
| Users.UpdatesRun | jasmin_api/rest_api/views/users.py:257-279 | the update loop and `ok\n` fan nothing out |
| Users.UpdatingRun | jasmin_api/rest_api/views/users.py:253-255 | a body that is not a list, or an empty one, is JasminSyntaxError with nothing sent |
| Users.Updating | jasmin_api/rest_api/views/users.py:253-288 | the primary, the replicas and the outcome of the open update session follow UpdatingRun |
| Users.PartialUpdateRun | jasmin_api/rest_api/views/users.py:239-255 | `user -u <uid>` goes first; pattern 1 is UnknownError "Unknown user: uid", pattern 2 JasminError with the stripped match, a bad body JasminSyntaxError, each with nothing more sent |
| Users.UpdatingAnswers | jasmin_api/rest_api/views/users.py:253-288 | an open session that completes had a non-empty list of well-formed updates all taken, fanned out exactly when the deployment has replicas, and is the user shown at the end |
| Users.PartialUpdateOpened | jasmin_api/rest_api/views/users.py:239-288 | an update that completes opened the session on pattern 0 and answers what the open session does |
| Users.UpdatingAllTaken | jasmin_api/rest_api/views/users.py:257-288 | with every update taken and the commit accepted the session sends the update lines, `ok\n`, `persist`, `user -s <uid>` |
| Users.PartialUpdateAllTaken | jasmin_api/rest_api/views/users.py:239-288 | with the session open and every update taken the dialogue is `user -u <uid>`, the update lines, `ok\n`, `persist`, `user -s <uid>` |
| Users.PartialUpdate | jasmin_api/rest_api/views/users.py:218-288 | the primary, the replicas and the outcome follow PartialUpdateRun |
| Users.ReshownRun | jasmin_api/rest_api/views/users.py:317-320 | the extra wait reads one reply; only after a reply is `user -s <uid>` sent, and a success is the user shown then |
| Users.Reshown | jasmin_api/rest_api/views/users.py:317-320 | the console advances as ReshownRun says and the outcome is ReshownRun's |
| Users.AnswerRun | jasmin_api/rest_api/views/users.py:317-322 | without return_user the answer is the uid, with nothing sent or read |
| Users.Answered | jasmin_api/rest_api/views/users.py:317-322 | the console advances as AnswerRun says and the outcome is AnswerRun's |
| Users.SucceededRun | jasmin_api/rest_api/views/users.py:311-322 | `persist` first; a success fanned out exactly when the deployment has replicas; a failure fanned out only if the persist reply came |
| Users.Succeeded | jasmin_api/rest_api/views/users.py:311-322 | the primary, the replicas and the outcome follow SucceededRun |
| Users.ActionRun | jasmin_api/rest_api/views/users.py:290-329 | the action line goes first; pattern 0 is followed by `persist`; pattern 1 is UnknownError "No user: uid" and pattern 2 JasminError with the stripped capture or "Unknown error", both with nothing more sent |
| Users.Acted | jasmin_api/rest_api/views/users.py:311-329 | the primary, the replicas and the outcome of what the action reply leads to follow ActedRun |
| Users.ActionAnswers | jasmin_api/rest_api/views/users.py:311-322 | an action that completes matched pattern 0, fanned out exactly when the deployment has replicas, and either sent the action, `persist` and `user -s <uid>` and is the user shown, or sent the action and `persist` and answers with the uid |
| Users.Action | jasmin_api/rest_api/views/users.py:157-215 | enable, disable, smpp-unbind and smpp-ban: the primary, the replicas and the outcome follow ActionRun with flag `e`, `d`, `-smpp-unbind` or `-smpp-ban` |
| Middleware.ModeOf | jasmin_api/rest_api/middleware.py:36-79 | the Docker branch wins whenever JASMIN_DOCKER is set, the Kubernetes branch needs JASMIN_K8S without it, and the default branch needs neither |
| Middleware.PodIps | jasmin_api/rest_api/middleware.py:106-108 | at most one address per pod |
| Middleware.PodIpsMembers | jasmin_api/rest_api/middleware.py:106-108 | an address is listed exactly when some pod with a status and a non-empty pod IP has it |
| Middleware.PodIpsAppend | jasmin_api/rest_api/middleware.py:106-108 | the filter keeps the pods' order: filtering a concatenation concatenates the filtered parts |
| Middleware.SetTelnetList | jasmin_api/rest_api/middleware.py:94-113 | a failing pod listing is TelnetUnexpectedResponse, no address is TelnetLoginFailed, and an answer is the non-empty list of pod addresses |
| Middleware.AtPorts | jasmin_api/rest_api/middleware.py:38-41 | one endpoint on the Docker host per configured port, in order |
| Middleware.AtHosts | jasmin_api/rest_api/middleware.py:61-64 | one endpoint per pod address on the telnet port, in order |
| Middleware.Targets | jasmin_api/rest_api/middleware.py:36-81 | the consoles to open: the Docker ports, the pod addresses (or the pod listing's failure), or the single configured console |
| Middleware.DockerFirst | jasmin_api/rest_api/middleware.py:36 | with JASMIN_DOCKER set, neither the Kubernetes flag nor the pod listing changes what is opened |
| Middleware.LoginFailure | jasmin_api/rest_api/middleware.py:127-130 | an end of file during login is TelnetUnexpectedResponse and a timeout TelnetConnectionTimeout |
| Middleware.LoginRun | jasmin_api/rest_api/middleware.py:115-132 | login succeeds exactly when both the `Username: ` and `Password: ` prompts come, having sent the user and the password; otherwise it stops at the missing prompt with its failure |
| Middleware.ReadyRun | jasmin_api/rest_api/middleware.py:43-45 | the wait for the standard prompt reads one reply and succeeds exactly when it comes; an end of file is TelnetLoginFailed and a timeout propagates |
| Middleware.OpenAnswers | jasmin_api/rest_api/middleware.py:39-45 | a console opens exactly when the two login prompts and the standard prompt come, having sent the user and the password and read three replies |
| Middleware.OpenFailures | jasmin_api/rest_api/middleware.py:39-45 | a console that does not open fails with the failure of the first prompt missing |
| Middleware.TelnetRequest | jasmin_api/rest_api/middleware.py:115-132 | a fresh console to the endpoint, advanced as LoginRun says, with LoginRun's outcome |
| Middleware.Open | jasmin_api/rest_api/middleware.py:39-45 | a fresh console to the endpoint, advanced as OpenRun says, with OpenRun's outcome |
| Middleware.Openings | jasmin_api/rest_api/middleware.py:38-50 | one opening outcome per endpoint |
| Middleware.OpeningsAt | jasmin_api/rest_api/middleware.py:38-50 | the i-th outcome is the opening of the i-th endpoint on the replies it gives |
| Middleware.Foremost | jasmin_api/rest_api/middleware.py:38-50 | the loop succeeds exactly when every console opens |
| Middleware.ForemostFirst | jasmin_api/rest_api/middleware.py:38-50 | the first console that does not open decides the failure |
| Middleware.PoolOf | jasmin_api/rest_api/middleware.py:38-52 | the pool opens exactly when there is at least one endpoint and every console opens; no endpoint is TelnetLoginFailed |
| Middleware.Request.constructor | jasmin_api/rest_api/middleware.py:21-29 | a request starts with its path, no console and no console list |
| Middleware.Connect | jasmin_api/rest_api/middleware.py:37-52 | the loop's outcome is PoolOf the openings; on success the first console is the request's telnet and the others, in order, its telnet_list, each opened on its own endpoint |
| Middleware.OutcomeOk | jasmin_api/rest_api/middleware.py:26-92 | an API request succeeds exactly when the targets are known, non-empty, and every one of them opens |
| Middleware.NoEndpoints | jasmin_api/rest_api/middleware.py:51-52 | no Docker port or no pod address is TelnetLoginFailed |
| Middleware.ProcessRequest | jasmin_api/rest_api/middleware.py:21-92 | a path outside `/api/` leaves the request untouched; otherwise the outcome is Outcome, telnet_list exists exactly when Docker or Kubernetes is set, and on success the consoles are opened on the targets |
| Middleware.Quit | jasmin_api/rest_api/middleware.py:139-143 | `quit` is sent; the console is killed exactly when the standard prompt does not come back |
| Middleware.QuitAll | jasmin_api/rest_api/middleware.py:145-151 | every console of the list is quit as Quit says |
| Middleware.ProcessResponse | jasmin_api/rest_api/middleware.py:134-153 | the response is returned unchanged; the request's console is quit, every console of telnet_list is quit when the list exists, and otherwise none is touched |

## Left out

- Regular-expression matching: pexpect's `expect` picks the earliest match in its buffer and breaks ties by list order. Each reply is instead given by the script as the index of the pattern that matched plus the captured text the code reads.
- Process spawning, the telnet socket, the spawn timeout (`TELNET_TIMEOUT`) and the effect of `kill(9)`. These are foreign I/O; a console only records that it was killed.
- The Kubernetes client call `list_namespaced_pod`: it is the `PodListing` parameter of `Middleware.SetTelnetList`. What each remote console prints is the `remote` parameter of `Middleware.ProcessRequest`.
- `settings.JASMIN_DOCKER or settings.JASMIN_K8S` inside the views is the `replicated` parameter of every write operation.
- The `telnet_list` a view reads with `getattr(request, 'telnet_list', [])` is its `replicas` parameter.
- `settings.DEBUG` logging and all other logging, `traceback` and the rendering of `JsonResponse`: they have no effect on the dialogue or the answer.
- Bytes against text: middleware.py:120-122 spawns pexpect without an encoding, so every capture the views read is `bytes`. The model treats every capture as text, as if it were decoded. Only views/httpccm.py, views/mtrouter.py and views/smppccm.py call `.decode('utf-8')`; where the code does not, the program as written differs from the model, as the lines below say.
- Filters.Listing: views/filters.py:39 calls `.replace("\r", '')` with `str` arguments on the `bytes` capture, which raises TypeError on every listing; the model parses the text instead, so get_filter, retrieve and the listing after create are modelled as if the capture were decoded.
- Groups.Listing: views/groups.py:35 has the same `bytes.replace` with `str` arguments and raises TypeError as written; the model parses the text.
- MoRouter.Routes: views/morouter.py:42 has the same `bytes.replace` with `str` arguments and raises TypeError as written; the model parses the text.
- Users.ListRun: `auid.startswith('!')` at views/users.py:106 is called on `bytes` with a `str` argument and raises TypeError as written; the model treats the uids as text.
- Users.GetUserRun: as written the record's keys and values are `bytes`, which `JsonResponse` cannot render (views/users.py:81, 155, 288, 320); the model's record holds text.
- Tools.KeyVerdict: for patterns 3 and 4, `" ".join(result.split())` at tools.py:35 joins `bytes` pieces with a `str` separator and raises TypeError as written; the model surfaces the collapsed text as the JasminSyntaxError detail.
- Tools.CommitVerdict: as written `" ".join(...)` at tools.py:44 joins `bytes` pieces with a `str` separator and raises TypeError; the model surfaces the collapsed text as the JasminSyntaxError detail.
- Text.Lower: only ASCII `A`-`Z` are lowered. Python's `str.lower()` maps every cased Unicode character ('É' to 'é'), and some characters become two ('İ'), so the length can change. A request type holding non-ASCII letters is sent (filters.py:109,125; morouter.py:125,133; mtrouter.py:154) as the model lowers it, which differs from Python.
- Django and DRF routing, decorators and settings loading: these are configuration, not behaviour of the core.
- MtRouter.Create: `float(data['rate'])` and its ValueError ("Invalid rate value; must be a float", mtrouter.py:156-160) are not modelled. The rate is floating point, so it is passed to jCli as given.
- Request data is modelled as form data: a Django `QueryDict` with one string per key, written `map<string, string>`. A JSON body, which DRF hands over as a plain `dict`, is not modelled, and neither are values that are not strings. The exceptions are the partial-update bodies, which are the datatypes `Smppccm.Patch` and `Users.UpdateBody`, so that their "not a dictionary" and "not a list" cases can be stated.
- Filters.Keys: filters.py:122-125 catches only `MultiValueDictKeyError`, which a form body raises. A JSON body without `parameter` raises a plain KeyError there, which nothing catches, so the request ends in a 500. The model answers MissingKeyError "<type> filter requires parameter", the form-data behaviour.
- Filters.CreateChecksAfterOpen: states the form-data behaviour of `Filters.Keys`. With a JSON body the missing parameter is an uncaught KeyError after `filter -a`.
- MtRouter.RoutingKeys: mtrouter.py:168-171 catches only `MultiValueDictKeyError` and AttributeError. A JSON body without `filters` raises an uncaught KeyError, and the request ends in a 500. The model answers MissingKeyError "<type> router requires filters", the form-data behaviour.
- MtRouter.CreateChecksAfterOpen: states the form-data behaviour of `MtRouter.RoutingKeys`. With a JSON body a missing `filters` is an uncaught KeyError after `mtrouter -a`.
- MoRouter.RoutingKeys: morouter.py:136-139 catches only `MultiValueDictKeyError` and AttributeError. A JSON body without `filters` raises an uncaught KeyError, and the request ends in a 500. The model answers MissingKeyError "<type> router requires filters", the form-data behaviour.
- MoRouter.CreateChecksAfterOpen: states the form-data behaviour of `MoRouter.RoutingKeys`. With a JSON body a missing `filters` is an uncaught KeyError after `morouter -a`.
- Httpccm.Lookup: the request body is a sequence of pairs so that the `data.items()` order is kept. No predicate says its keys are distinct. A real body has one entry per key, and on a sequence with a repeated key the model answers the first value, while Django's `QueryDict` answers the last.
- views/morouter.py:14 and views/filters.py:14 import `MutipleValuesRequiredKeyError`, a name exceptions.py does not define. As written that import raises ImportError, and views/__init__.py imports `.filters` first, so no view set loads at all. The model assumes the evidently intended name `MultipleValuesRequiredKeyError` and models the views as if they load.
- views/users.py:331-389 repeats the definitions of enable, disable, smpp_unbind and smpp_ban from views/users.py:157-215. The copies are identical, so they are modelled once, as `Users.Action`.
- The `startswith('#')` tests in views/httpccm.py:118 and views/smppccm.py:130,155 always hold on rows `split_cols` returns (`Tools.SplitCols` states so), so no separate branch is modelled for them.
- Httpccm.Destroy: views/httpccm.py:198 passes the primary session where the replica list belongs. Iterating a pexpect session reads lines from it, and that is not modelled, so the model's destroy fans out to no replica.
- Middleware.ProcessRequest: only a fresh request, one without a `telnet_list` yet, is modelled. On a failure the contract does not say which sessions were opened before it.
- Middleware.ProcessResponse: a failed `quit` wait is an EOF or a timeout in the model; other pexpect exceptions, which reach the same kill branch, are not modelled.
- Smppccm.ListStatus: the sessions are required to be distinct objects, which the middleware's separate spawns guarantee.
- Smppccm.StatusesOf: the function's own contract is only a length bound. The element-by-element shape is stated by `Smppccm.StatusesOfRows`.
- Exceptions.Raise: the contract leaves out the detail. The fixed default message of each class is `Exceptions.DefaultDetail`.
- Concurrency between requests and the order in which Django runs several middlewares are not modelled.

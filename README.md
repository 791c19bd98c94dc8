# SwiftToolbox endpoint client, request decoding, locking containers and SQLite statements

This project models the core of SwiftToolbox, a Swift utility library, in Dafny:

- **The HTTP endpoint client's admission scheduler** (`HTTPEndpointClient`). Requests wait in a queued list. An admission pass purges finished entries from the active list. If a slot is free, it sorts the queue by priority and pops entries from its head. Cancelled entries are dropped; live ones become active and join the active list, up to a concurrency maximum. Queueing, cancelling and transport completion are methods of a class that holds two `LockingArray` objects. Each pass is specified by the pure function `EndpointAdmission.Pass`, and the scheduler's properties are lemmas about that function.
- **URL composition** (`urlRequest`): the query string built parameter by parameter, with repeated keys or comma-joined values for arrays, and the method name.
- **The request lifecycle and result decoders** (`HTTPEndpointRequest`): the `queued → active → finished` state, the cancel flag, the body initialisers' Content-Type rule, and the decoders. Each decoder is a function from the transport outcome to the arguments of the completion callback, or to no call when the request is cancelled. The JSON decoder's multi-response aggregation is an error list plus a counter.
- **The locking containers** (`LockingArray`, `LockingValue`, `LockingNumeric`, `LockingSet`), with every call an atomic step on the contained value.
- **SQLite statement composition** (`SQLiteTable`):
  - column definitions;
  - CREATE, ALTER, DROP, COUNT, INSERT, UPDATE and DELETE texts;
  - chunked bulk statements;
  - the table's name and column bookkeeping.

  The statement performer is an append-only log of (statement, values, performed-at-once).
- **Endpoint enums** (`HTTPEndpointMethod`, `HTTPEndpointStatus`).

Modules: `Wrappers` (Option), `Strings` (join, split, prefix/suffix and counting), `HTTPEndpoint`, `LockingPrimitives`, `LockingArrays`, `LockingSets`, `EndpointRequest`, `EndpointAdmission`, `EndpointURL`, `EndpointClient`, `SQLiteTable`.

## Model

| member | source | states |
|---|---|---|
| HTTPEndpoint.Status.RawValue | Source/Networking/HTTPEndpoint.swift:23-33 | the code is 200 exactly for `ok`; every other status has a code from 400 to 599 |
| HTTPEndpoint.StatusFromRawValue | Source/Networking/HTTPEndpoint.swift:23-33 | a status found for a code has that code as raw value |
| HTTPEndpoint.RawValueRoundTrip | Source/Networking/HTTPEndpoint.swift:25-33 | every status is recovered from its raw value |
| HTTPEndpoint.RawValuesDistinct | Source/Networking/HTTPEndpoint.swift:25-33 | no two statuses share a raw value |
| HTTPEndpoint.SuccessIffCode200 | Source/Networking/HTTPEndpoint.swift:25-36 | `isSuccess` holds iff the code is 200; any other status has a code of at least 400 |
| LockingArrays.LockingArray.constructor | Source/Concurrency/LockingArray.swift:19-23 | a new array is empty |
| LockingArrays.LockingArray.Append | Source/Concurrency/LockingArray.swift:14-27 | the contents become the old contents followed by the value, and the count grows by one |
| LockingArrays.LockingArray.AppendAll | Source/Concurrency/LockingArray.swift:30 | the contents become the old contents followed by the values, in order |
| LockingArrays.LockingArray.SortByKey | Source/Concurrency/LockingArray.swift:36-39 | the contents become the stable key sort of the old contents: ordered by the key and a permutation of the old contents |
| LockingArrays.LockingArray.RemoveFirst | Source/Concurrency/LockingArray.swift:42 | on a non-empty array, returns the old first element and leaves the old tail |
| LockingArrays.LockingArray.RemoveAllWhere | Source/Concurrency/LockingArray.swift:45-48 | keeps exactly the elements the predicate rejects, in their order |
| LockingArrays.LockingArray.RemoveAll | Source/Concurrency/LockingArray.swift:51-53 | returns the old contents and leaves the array empty |
| LockingArrays.WithoutMembers | Source/Concurrency/LockingArray.swift:45-48 | an element survives `removeAll(where:)` iff it was present and fails the predicate; nothing is duplicated and nothing is added |
| LockingArrays.WithoutConcat | Source/Concurrency/LockingArray.swift:45-48 | filtering a concatenation filters each part |
| LockingArrays.SortedByKeyIsSortedPermutation | Source/Concurrency/LockingArray.swift:36-39 | the sort yields a permutation of its input in ascending key order |
| LockingArrays.SortedByKeyStable | Source/Concurrency/LockingArray.swift:36-39 | elements with equal keys keep their relative order |
| LockingPrimitives.LockingValue.constructor | Source/Concurrency/LockingPrimitives.swift:22-25 | `value` reads back the initial value |
| LockingPrimitives.LockingValue.Set | Source/Concurrency/LockingPrimitives.swift:14-32 | after `set(v)`, `value` reads back `v` |
| LockingPrimitives.LockingNumeric.constructor | Source/Concurrency/LockingPrimitives.swift:48-51 | the stored value is the argument, 0 by default |
| LockingPrimitives.LockingNumeric.Set | Source/Concurrency/LockingPrimitives.swift:55-58 | stores `v` and returns `v` |
| LockingPrimitives.LockingNumeric.Add | Source/Concurrency/LockingPrimitives.swift:61-65 | stores old + v and returns the new value |
| LockingPrimitives.LockingNumeric.Subtract | Source/Concurrency/LockingPrimitives.swift:68-72 | stores old − v and returns the new value |
| LockingPrimitives.AddOnes | Source/Concurrency/LockingPrimitives.swift:48-65 | n calls of `add(1)` on a counter created with 0 return the sequence `AddResults(0, Ones(n))`, and leave the counter at n |
| LockingPrimitives.UnitAddsCount | Source/Concurrency/LockingPrimitives.swift:48-65 | in that sequence, the k-th `add(1)` from 0 returns k |
| LockingPrimitives.UnitAddsHitTotalOnce | Source/Concurrency/LockingPrimitives.swift:48-65 | in that sequence of n calls of `add(1)` from 0, no two calls see the same total, and a total N is seen iff 1 ≤ N ≤ n |
| LockingSets.LockingSet.constructor | Source/General/LockingSet.swift:18-22 | a new set is empty |
| LockingSets.LockingSet.Insert | Source/General/LockingSet.swift:26 | the value becomes a member; no other membership changes; inserting a member changes nothing |
| LockingSets.LockingSet.Remove | Source/General/LockingSet.swift:29 | the value stops being a member; no other membership changes |
| LockingSets.LockingSet.Contains | Source/General/LockingSet.swift:14-32 | `contains(x)` holds iff x is in `values` |
| EndpointRequest.WithContentType | Source/Networking/HTTPEndpointRequest.swift:88-89 | Content-Type is forced to the given type; every other caller header is kept unchanged and none is added |
| EndpointRequest.Request.constructor | Source/Networking/HTTPEndpointRequest.swift:51-67 | a new request is queued, not cancelled, with the given fields and no body |
| EndpointRequest.Request.WithBodyData | Source/Networking/HTTPEndpointRequest.swift:70-81 | as above, with the given body and the caller's headers as given |
| EndpointRequest.Request.WithJSONBody | Source/Networking/HTTPEndpointRequest.swift:84-99 | headers are the caller's with Content-Type "application/json"; the body is the serialised document |
| EndpointRequest.Request.WithXMLBody | Source/Networking/HTTPEndpointRequest.swift:102-117 | headers are the caller's with Content-Type "application/xml"; the body is used as given |
| EndpointRequest.Request.WithURLEncodedBody | Source/Networking/HTTPEndpointRequest.swift:120-138 | headers are the caller's with Content-Type "application/x-www-form-urlencoded" |
| EndpointRequest.Request.WithURL | Source/Networking/HTTPEndpointRequest.swift:141-151 | the path is the absolute URL, with no query components |
| EndpointRequest.Request.Cancel | Source/Networking/HTTPEndpointRequest.swift:155 | sets the cancelled flag and changes nothing else, so a repeated call changes nothing |
| EndpointRequest.Request.Transition | Source/Networking/HTTPEndpointRequest.swift:158 | sets the state to the given one, whatever it was |
| EndpointRequest.Request.SetCompletionProc | Source/Networking/HTTPEndpointClient.swift:136-184 | the typed `queue` overloads install the completion proc before queueing |
| EndpointRequest.Request.SetMultiResponseProcs | Source/Networking/HTTPEndpointRequest.swift:375-377 | both multi-response procs are set |
| EndpointRequest.Request.ProcessMultiResults | Source/Networking/HTTPEndpointRequest.swift:387-435 | the callbacks invoked and the new error list and counter are one step of the aggregation `JSONStep` |
| EndpointRequest.Request.ProcessResults | Source/Networking/HTTPEndpointRequest.swift:163-177 | dispatch on the kind: a JSON request takes one aggregation step with total 1; the other kinds decode once and leave the aggregation alone |
| EndpointRequest.ProcessDataResults | Source/Networking/HTTPEndpointRequest.swift:194-200 | no call iff cancelled; otherwise response, data and error are passed through |
| EndpointRequest.ProcessHeadResults | Source/Networking/HTTPEndpointRequest.swift:315-321 | no call iff cancelled; otherwise response and error are passed through |
| EndpointRequest.ProcessSuccessResults | Source/Networking/HTTPEndpointRequest.swift:490-496 | no call iff cancelled; otherwise response and error are passed through |
| EndpointRequest.IntegerResult | Source/Networking/HTTPEndpointRequest.swift:339-354 | no data: no value and the transport error; data that is not UTF-8 or not an integer: no value and `unableToProcessResponseData`; otherwise the parsed value and the transport error |
| EndpointRequest.ProcessIntegerResults | Source/Networking/HTTPEndpointRequest.swift:339-361 | no call iff cancelled; otherwise the integer decoding's value and error |
| EndpointRequest.StringResult | Source/Networking/HTTPEndpointRequest.swift:453-465 | no data: no string and the transport error; data: its UTF-8 text, with `unableToProcessResponseData` exactly when there is none, else the transport error |
| EndpointRequest.ProcessStringResults | Source/Networking/HTTPEndpointRequest.swift:453-472 | no call iff cancelled; otherwise the string decoding's string and error |
| EndpointRequest.FileResult | Source/Networking/HTTPEndpointRequest.swift:281-295 | with data, the outcome of the write (no error on success even after a transport error); without data, the transport error |
| EndpointRequest.FileWriteAttempt | Source/Networking/HTTPEndpointRequest.swift:279-284 | the data is written iff the request is not cancelled and data is present |
| EndpointRequest.ProcessFileResults | Source/Networking/HTTPEndpointRequest.swift:277-297 | no call iff cancelled; otherwise the response and the file error |
| EndpointRequest.DecodeCallsOnceUnlessCancelled | Source/Networking/HTTPEndpointRequest.swift:181-497 | every kind but JSON invokes its callback iff the request is not cancelled |
| EndpointRequest.DecodeErrorIsExclusive | Source/Networking/HTTPEndpointRequest.swift:339-471 | the integer and string decodings report `unableToProcessResponseData` iff data is present and does not decode, and then with no value; otherwise they report the transport error |
| EndpointRequest.JSONResult | Source/Networking/HTTPEndpointRequest.swift:389-409 | no data: the transport error; with data, a value iff no error: the parsed value, the thrown error, or `unableToProcessResponseData` for a document of the wrong type |
| EndpointRequest.JSONStep | Source/Networking/HTTPEndpointRequest.swift:411-433 | a non-nil error is appended before the cancel check; cancelled: no call and the counter kept; total 1: the single proc if set, else partial then final; otherwise partial, the counter up by one, and the final proc iff the counter reaches the total |
| EndpointRequest.JSONAggregationCompletes | Source/Networking/HTTPEndpointRequest.swift:416-433 | from a fresh request with N > 1, after k ≤ N completions: one partial call per completion, in order, and the final call with every error exactly when k = N, last |
| EndpointRequest.JSONCancelledCallsNothing | Source/Networking/HTTPEndpointRequest.swift:411-414 | a cancelled request invokes nothing over any number of completions, yet still collects the errors |
| EndpointURL.MethodName | Source/Networking/HTTPEndpointClient.swift:64-70 | the method string for each method |
| EndpointURL.MethodNamesDistinct | Source/Networking/HTTPEndpointClient.swift:64-70 | different methods are sent under different names |
| EndpointURL.RepeatedComponents | Source/Networking/HTTPEndpointClient.swift:38-40 | repeated-key handling gives one `key=value` per array value, in order |
| EndpointURL.QueryStringAppend | Source/Networking/HTTPEndpointClient.swift:40-50 | the query string is empty iff there are no components; the first component follows `?` and every other one follows `&` |
| EndpointURL.QueryStringSplits | Source/Networking/HTTPEndpointClient.swift:32-52 | a non-empty query starts with `?`, and splitting the rest at `&` gives back the components when none holds `&` |
| EndpointURL.CommaComponentSplits | Source/Networking/HTTPEndpointClient.swift:42-46 | comma handling gives one `key=` component, whose value splits at `,` back into the values when none holds a comma |
| EndpointURL.ComponentsAppend | Source/Networking/HTTPEndpointClient.swift:33-52 | parameters contribute their components in parameter order |
| EndpointURL.ComposeQueryString | Source/Networking/HTTPEndpointClient.swift:32-52 | the query-string loop builds the query string of all parameters' components |
| EndpointURL.AppendParameter | Source/Networking/HTTPEndpointClient.swift:33-51 | one parameter's components are appended, each after `?` or `&` |
| EndpointURL.AppendRepeatedKey | Source/Networking/HTTPEndpointClient.swift:38-40 | repeated-key loop: one component per value |
| EndpointURL.AppendCommaSeparated | Source/Networking/HTTPEndpointClient.swift:42-46 | comma loop: one `key=` component whose value is the values joined with commas |
| EndpointURL.MakeURLRequest | Source/Networking/HTTPEndpointClient.swift:22-77 | a path starting with `http` is the URL as it stands; otherwise prefix, encoded path, encoded query string; the method name, headers, timeout and body are copied |
| EndpointAdmission.Priority.RawValue | Source/Networking/HTTPEndpointClient.swift:85-88 | normal is 0 and background is 1 |
| EndpointAdmission.PassWithRoom | Source/Networking/HTTPEndpointClient.swift:213-230 | a pass that finds a free slot is the purge followed by the admission loop on the sorted queue |
| EndpointAdmission.AdmitShape | Source/Networking/HTTPEndpointClient.swift:222-230 | the loop pops a prefix and leaves the rest queued; it admits the live entries of the prefix in pop order, at most the free slots, and stops only on an empty queue or with every slot taken |
| EndpointAdmission.AdmitLeavesSuffix | Source/Networking/HTTPEndpointClient.swift:222-226 | what stays queued is a suffix of the queue |
| EndpointAdmission.AdmitTakesLiveOfPrefix | Source/Networking/HTTPEndpointClient.swift:225-230 | what is admitted is the non-cancelled part of the popped prefix, in order |
| EndpointAdmission.AdmitBounds | Source/Networking/HTTPEndpointClient.swift:222-223 | at most the free slots are filled; entries stay queued only when every slot was filled |
| EndpointAdmission.AdmitOnlyLive | Source/Networking/HTTPEndpointClient.swift:226 | no cancelled entry is admitted |
| EndpointAdmission.PurgeRemovesFinished | Source/Networking/HTTPEndpointClient.swift:213 | after the purge no finished entry remains active; the others remain, in order |
| EndpointAdmission.PassRespectsCeiling | Source/Networking/HTTPEndpointClient.swift:216-223 | after a pass the active list is within the maximum, or it is the purged list unchanged |
| EndpointAdmission.PassAdmitsFromSortedQueue | Source/Networking/HTTPEndpointClient.swift:219-230 | with a free slot, the queue left is a suffix of the sorted queue; the admitted entries are the live entries of the popped prefix, appended to the purged list |
| EndpointAdmission.PassAdmitsOnlyLive | Source/Networking/HTTPEndpointClient.swift:226 | a pass never admits a cancelled request |
| EndpointAdmission.PassFillsFreeSlots | Source/Networking/HTTPEndpointClient.swift:222-223 | with a free slot, the pass ends with an empty queue or a full active list |
| EndpointAdmission.PassAdmitsInPriorityOrder | Source/Networking/HTTPEndpointClient.swift:219-230 | no entry left queued has a lower priority value than an admitted one, so no background entry is admitted while a normal one stays queued |
| EndpointAdmission.AdmittedBeforeRest | Source/Networking/HTTPEndpointClient.swift:219-230 | in a priority-sorted queue, the kept entries of a popped prefix come before the rest in priority |
| EndpointAdmission.PassIsIdempotent | Source/Networking/HTTPEndpointClient.swift:209-231 | a second pass with no arrival, completion or cancellation in between changes nothing |
| EndpointAdmission.PassDependsOnActiveOnly | Source/Networking/HTTPEndpointClient.swift:213 | finished requests that are not active make no difference to a pass |
| EndpointAdmission.PassAdmittedAreSorted | Source/Networking/HTTPEndpointClient.swift:219-230 | the entries admitted by a pass are in ascending priority order |
| EndpointClient.HTTPEndpointClient.constructor | Source/Networking/HTTPEndpointClient.swift:113-123 | the maximum is the given one or else the session's per-host limit; both lists start empty |
| EndpointClient.HTTPEndpointClient.UpdateActive | Source/Networking/HTTPEndpointClient.swift:209-231 | the lists become those of `Pass`; exactly the admitted requests become active and nothing else of any request changes; the client invariant is kept |
| EndpointClient.HTTPEndpointClient.SortAndAdmit | Source/Networking/HTTPEndpointClient.swift:219-230 | sorts the queue, then admits from it as `Admit` does on the sorted queue |
| EndpointClient.HTTPEndpointClient.AdmitFromQueue | Source/Networking/HTTPEndpointClient.swift:222-231 | the admission loop: what it admits and what stays queued are those of `Admit`; the active list stays within the maximum |
| EndpointClient.HTTPEndpointClient.AdmitHead | Source/Networking/HTTPEndpointClient.swift:225-230 | one turn: pop the head; a live entry is made active and appended; a cancelled one is dropped untouched |
| EndpointClient.HTTPEndpointClient.Queue | Source/Networking/HTTPEndpointClient.swift:127-133 | appends the entry at the end of the queue, then runs exactly one pass |
| EndpointClient.HTTPEndpointClient.QueueWithCompletionProc | Source/Networking/HTTPEndpointClient.swift:136-184 | installs the completion proc, then queues as above |
| EndpointClient.HTTPEndpointClient.Cancel | Source/Networking/HTTPEndpointClient.swift:187-205 | every request of an entry with the identifier is cancelled, active or queued; exactly the matching queued entries are removed; the active list is unchanged |
| EndpointClient.HTTPEndpointClient.CancelBoth | Source/Networking/HTTPEndpointClient.swift:189-204 | both traversals together cancel exactly the matching requests |
| EndpointClient.HTTPEndpointClient.CancelMatching | Source/Networking/HTTPEndpointClient.swift:189-204 | one traversal cancels every matching request and no other |
| EndpointClient.HTTPEndpointClient.Complete | Source/Networking/HTTPEndpointClient.swift:247-260 | the request becomes finished; if cancelled, nothing else happens; otherwise its results are processed and one pass runs, with the request counted as finished |
| EndpointClient.HTTPEndpointClient.FinishRequest | Source/Networking/HTTPEndpointClient.swift:249-256 | finished state, then result processing unless cancelled |
| SQLiteTable.KindKeyword | Source/SQLite/SQLiteTable.swift:18-36 | INTEGER, REAL, TEXT (text and both date kinds) or BLOB, each iff its kinds |
| SQLiteTable.OptionText | Source/SQLite/SQLiteTable.swift:38-47 | each option's text starts with a space |
| SQLiteTable.CreateString | Source/SQLite/SQLiteTable.swift:16-55 | `createString` is the column definition: name, space, keyword, option texts in order, then the default clause |
| SQLiteTable.AppendOptionTexts | Source/SQLite/SQLiteTable.swift:38-47 | the options loop appends the option texts in order |
| SQLiteTable.OptionsRoundTrip | Source/SQLite/SQLiteTable.swift:38-47 | the options text reads back as the options, in order |
| SQLiteTable.DefaultClausePresentIff | Source/SQLite/SQLiteTable.swift:49-52 | a definition ends with `)` iff the column has a default, and then with ` DEFAULT (v)` |
| SQLiteTable.ReferenceClausePresentIff | Source/SQLite/SQLiteTable.swift:113-122 | a column entry ends with ` ON UPDATE CASCADE` iff a reference is recorded under its name, and then with that reference's clause |
| SQLiteTable.ClauseEndsWithCascade | Source/SQLite/SQLiteTable.swift:118-119 | every reference clause ends with ` ON UPDATE CASCADE` |
| SQLiteTable.NoCascadeEnding | Source/SQLite/SQLiteTable.swift:16-55 | a bare column definition never ends with ` ON UPDATE CASCADE` |
| SQLiteTable.CreateIfNotExistsIff | Source/SQLite/SQLiteTable.swift:126-129 | CREATE TABLE starts the statement, followed by `IF NOT EXISTS` iff it was asked for |
| SQLiteTable.CreateWithoutRowIDIff | Source/SQLite/SQLiteTable.swift:126-129 | the statement ends with `) WITHOUT ROWID` iff bit 0 of the options is set |
| SQLiteTable.ColumnInfos | Source/SQLite/SQLiteTable.swift:110-123 | one column entry per column |
| SQLiteTable.PlaceholderCount | Source/SQLite/SQLiteTable.swift:225 | n comma-joined copies of a one-`?` placeholder hold n `?` |
| SQLiteTable.ColumnNamesHaveNoPlaceholder | Source/SQLite/SQLiteTable.swift:300-303 | `columnNames(for:)` holds no `?` when no name does |
| SQLiteTable.InsertColumnsMatchValues | Source/SQLite/SQLiteTable.swift:222-226 | the column list splits back into the quoted names, and the k-th bound value is the k-th column's value |
| SQLiteTable.InsertPlaceholdersMatchValues | Source/SQLite/SQLiteTable.swift:222-226 | an insert holds one `?` per bound value |
| SQLiteTable.UpdateValues | Source/SQLite/SQLiteTable.swift:278 | the update binds the info values first, in order, then the WHERE values |
| SQLiteTable.UpdatePlaceholdersMatchValues | Source/SQLite/SQLiteTable.swift:275-277 | the SET list holds one `?` per binding, ahead of the WHERE clause's |
| SQLiteTable.AssignmentsPlaceholders | Source/SQLite/SQLiteTable.swift:276 | one `?` per assignment |
| SQLiteTable.ChunksPartition | Source/SQLite/SQLiteTable.swift:259-270 | the chunks are non-empty, no longer than the limit, and together the values in order |
| SQLiteTable.ChunkStatementsAt | Source/SQLite/SQLiteTable.swift:259-296 | the k-th bulk statement is the k-th chunk's, bound to that chunk's values |
| SQLiteTable.BulkPlaceholdersMatchValues | Source/SQLite/SQLiteTable.swift:259-296 | every chunked statement holds one placeholder per value of its chunk, and the chunks together are all the values |
| SQLiteTable.BulkPlaceholderCount | Source/SQLite/SQLiteTable.swift:259-296 | one chunk statement holds as many `?` as the chunk has values |
| SQLiteTable.InsertRowsPlaceholderCount | Source/SQLite/SQLiteTable.swift:263-265 | a bulk insert holds one `(?)` per value |
| SQLiteTable.DeleteRowsPlaceholderCount | Source/SQLite/SQLiteTable.swift:289-291 | a bulk delete holds one `?` per value |
| SQLiteTable.StatementPerformer.AddToTransactionOrPerform | Source/SQLite/SQLiteTable.swift:130 | the statement and its values are appended to the log, as not performed at once |
| SQLiteTable.StatementPerformer.Perform | Source/SQLite/SQLiteTable.swift:172-173 | the statement and its values are appended to the log, as performed at once |
| SQLiteTable.MemberKeyInjective | Source/SQLite/SQLiteTable.swift:99 | two columns get the same key iff they have the same name |
| SQLiteTable.ColumnsMapSound | Source/SQLite/SQLiteTable.swift:99 | every column is keyed, and every entry is a column under its own key |
| SQLiteTable.ColumnsMapFindsLast | Source/SQLite/SQLiteTable.swift:99 | a key finds the last column with that name |
| SQLiteTable.ReferenceMapKeys | Source/SQLite/SQLiteTable.swift:95 | built with the pairs initialiser of the dictionary extensions, where the last pair wins: a reference is recorded exactly under the names of the referencing columns, and each entry is one of the references |
| SQLiteTable.Table.constructor | Source/SQLite/SQLiteTable.swift:88-100 | the fields are stored, the reference map is built from the references, and the column map keys every column |
| SQLiteTable.Table.ColumnFor | Source/SQLite/SQLiteTable.swift:104 | the column found under a key is one of the table's columns, and that is its key |
| SQLiteTable.Table.Create | Source/SQLite/SQLiteTable.swift:108-131 | logs the CREATE TABLE statement of the table's columns and references |
| SQLiteTable.Table.ColumnInfoTexts | Source/SQLite/SQLiteTable.swift:110-123 | each column's definition, followed by its reference clause when it has one |
| SQLiteTable.Table.Rename | Source/SQLite/SQLiteTable.swift:134-140 | logs ALTER TABLE with the old name, then takes the new name; the columns and the map are unchanged |
| SQLiteTable.Table.AddColumn | Source/SQLite/SQLiteTable.swift:143-151 | logs ADD COLUMN with the definition, appends the column and keys it as the constructor does; the map stays the one built from the columns |
| SQLiteTable.Table.Drop | Source/SQLite/SQLiteTable.swift:160-163 | logs DROP TABLE |
| SQLiteTable.Table.Count | Source/SQLite/SQLiteTable.swift:169-179 | performs SELECT COUNT(*) with the WHERE clause and its values at once, and returns the reported count |
| SQLiteTable.Table.HasRow | Source/SQLite/SQLiteTable.swift:166 | true iff the count is positive |
| SQLiteTable.Table.InsertRow | Source/SQLite/SQLiteTable.swift:219-231 | logs INSERT INTO with the bound columns and their values |
| SQLiteTable.Table.InsertOrReplaceRow | Source/SQLite/SQLiteTable.swift:244-256 | logs INSERT OR REPLACE INTO with the bound columns and their values |
| SQLiteTable.Table.InsertOrReplaceRows | Source/SQLite/SQLiteTable.swift:259-270 | logs one bulk insert per chunk of at most `variableNumberLimit` values |
| SQLiteTable.Table.Update | Source/SQLite/SQLiteTable.swift:273-282 | logs UPDATE with the SET list and the WHERE clause, binding the info values and then the WHERE values |
| SQLiteTable.Table.DeleteRows | Source/SQLite/SQLiteTable.swift:285-296 | logs one bulk delete per chunk of at most `variableNumberLimit` values |
| SQLiteTable.Table.PerformInChunks | Source/SQLite/SQLiteTable.swift:259-296 | hands each chunk's statement to the performer, in chunk order |

## Left out

- Locks (`Lock`, `ReadPreferringReadWriteLock` and the `lock` of every locking container) and concurrency. Every public call is one atomic step.
- Asynchrony and I/O:
  - the URLSession data task and `DispatchQueue.global().async` are left out;
  - transport completion is the explicit method `Complete`, given the response, data and error;
  - the dispatched entries returned by `UpdateActive` are the requests whose data task the source starts.
- `logTransactions` and `NSLog` are left out. `maximumURLLength` is stored but, as in the source, never used.
- EndpointRequest.Request.ProcessMultiResults: the source force-unwraps `partialResultsProc`, `multiResponseCompletionProc` and `completionProc` on the paths that call them. Swift traps when one is nil. The model turns that trap into the precondition `JSONProcsSuffice`. It excludes a JSON completion that is not cancelled and lacks the proc its path unwraps: with a total of 1, neither the completion proc nor both multi-response procs set; otherwise no partial-results proc, or no multi-completion proc on the last completion.
- EndpointRequest.Request.ProcessResults: inherits the same precondition for JSON requests, with a total of 1.
- EndpointClient.HTTPEndpointClient.Complete: inherits the same precondition. A JSON request queued through the untyped `queue(_:identifier:priority:)` without a completion proc traps in the source on completion; the model excludes that input rather than modelling the crash.
- SQLiteTable.Table.ColumnFor: the source force-unwraps the dictionary lookup and traps on a missing key. The model requires the key to be present, so a lookup of a name that is not a column is excluded rather than modelled as a crash.
- EndpointURL.MakeURLRequest: header names are copied as given. URLRequest's `setValue(_:forHTTPHeaderField:)` matches field names case-insensitively, and that merging is not modelled. For example, caller headers holding "content-type" next to the forced "Content-Type" become two fields in the model; the source keeps one, and which value wins depends on dictionary order.
- Foundation calls are function parameters and outcome values, not modelled: percent-encoding, `URL(string:)!`, `String(data:encoding:)`, `Int(String)`, `JSONSerialization` and `Data.write(to:)`. The URL-encoded body is taken as given, because its pair order depends on dictionary iteration.
- `TimeInterval` timeouts are carried as opaque `real` values. JSON documents are a small value datatype.
- The completion procs are closures in the source. The model records which procs are set and returns the callback invocations as values.
- A request's query components, which `urlRequest` reads as a dictionary, are an ordered list of parameters.
- EndpointClient.HTTPEndpointClient.Complete: a JSON request is completed as a single response, with total 1. The shown client calls the three-argument `processResults`, and the adapter to the four-argument JSON form is not part of this model.
- LockingArrays.LockingArray.SortByKey: it models the only comparator used, `key(a) < key(b)`, as a stable insertion sort. Swift's sort is not documented to be stable, so the scheduler's properties rely only on key order and permutation, never on stability.
- LockingArray `forEach`, and the `perform` traversal that `cancel` uses, are not separate members. Reading the contents (`Values`) stands in for them.
- LockingNumeric: unbounded integers stand in for the generic `Numeric`, so overflow is not modelled.
- SQLite execution is left out:
  - result rows, `autoreleasepool` and `lastInsertRowIDProc`;
  - `select`, `rowID(for:)` and `add(_ trigger:)`, which need the `SQLiteWhere`, `SQLiteInnerJoin`, `SQLiteOrderBy` and `SQLiteTrigger` types. Those types are not part of this model.
- SQLiteTable.Table.Count: the count the database returns is the parameter `reported`.
- `SQLiteWhere` is reduced to its text and its optional values.
- Column values are a small datatype in place of `Any`. A column's default value is its text.
- The default separator of `String(combining:)` is not part of this model. CREATE and UPDATE take the separator as a parameter.
- SQLiteTable.Table.InsertOrReplaceRows and SQLiteTable.Table.DeleteRows require a positive `variableNumberLimit`:
  - `forEachChunk` is not part of this model, and what it does with a chunk size of 0 is unknown;
  - chunks are taken to be consecutive, each as long as the limit except possibly the last;
  - an empty value list produces no statement.
- The table options are reduced to their raw value. `withoutRowID` is bit 0, read as `rawValue % 2 == 1`.
- `SQLiteResults.swift` and `Folder.swift` are not part of this model. They wrap the sqlite3 C API and Foundation URLs.

# Monoid connector core: review/commit resolver and protocol stream stages

This project is a Dafny model of two parts of Monoid's API server. The proofs about the model are checked by Dafny's verifier.

1. **The data-map mutation resolvers** (`monoid-api/resolver/data_mapping.resolvers.go`), as module `DataMapping`.
   - The relational store is a `Database` object. Its fields are the tables:
     - `properties`: a map from id to `Property`. Each property carries its tri-state `tentative` flag (`None`, `Some(Created)` or `Some(Deleted)`).
     - `propertyCategories` and `propertyPurposes`: the join tables, as sets of (property id, target id) pairs.
     - the category and purpose id sets, and the data source, silo specification, silo definition and job tables.
     - `startedWorkflows`: the requests made to the workflow engine.
   - Each resolver is a method on `Database`. It takes a fault parameter that names the database statement that fails, if any.
   - `ReviewProperties` does three things:
     - It checks that each requested id names a distinct existing property.
     - It classifies the properties by the review table (`Decide`) in the loop `Classify`.
     - It applies the result in one transaction (`CommitReview`). A statement that fails there restores the saved tables.
   - `UpdateDataSource`, `UpdateSiloSpecification` and `UpdateProperty` apply their optional-field merge rules.
     - `UpdateProperty` replaces associations one after the other, with no transaction. A later failure leaves an earlier replacement in place.
   - `DetectSiloSources` records a queued discovery job. It then asks the workflow engine to start the detection workflow under the job's id.
2. **The connector protocol helpers** (`monoid-api/monoidprotocol/docker/helpers.go`), as module `DockerHelpers`.
   - `RandSeq` fills an n-character buffer index by index with lowercase letters.
     - The random source is a parameter: `draw(i)` is the letter index drawn for position i.
   - `ReadMessages` and `ReadRecords` are the two goroutine stages.
     - Each is a loop over its whole input sequence.
     - Each returns the trace of what the goroutine does, in order: each send, each log line, `closer.Close()` and the final close of the output channel.
     - JSON decoding is a parameter `decode: Line -> Option<MonoidMessage>`. `None` stands for an unmarshalling error.

Three points where the code's behaviour differs from what one might expect of the system. The model follows the code in each:

- **Record stage.** The record stage is evidently meant to drop messages that are not RECORD or have no payload: its debug log says "Message type is not record", and it tests `s.Record == nil`. The code has no `continue` after the log, so it sends every message (see Findings). `ReadRecords` models the code. `ReadRecordsFiltered` models the stage with the `continue`.
- **Message types.** The message types are those of the protocol types in `monoid-py/monoid_pydev/models/models.py`: SCHEMA, RECORD, SPEC and VALIDATE. Other message kinds of connector protocols (LOG, CONNECTION_STATUS, CATALOG, STATE) are not among them and are not modelled.
- **Purpose links of deleted properties.** A review that deletes a property would be expected to remove all its associations. The transaction removes only the `property_categories` rows of deleted properties. `ReviewProperties` leaves `propertyPurposes` untouched, as its `modifies` clause shows. A database-level cascade, if the schema has one, is not part of this model.

## Model

| member | source | states |
|---|---|---|
| `DataMapping.Decide` | monoid-api/resolver/data_mapping.resolvers.go:237-262 | The review table: a property with no tentative flag is skipped. Its flag is cleared exactly when the review confirms a creation or refuses a deletion. It is deleted exactly when the review refuses a creation or confirms a deletion. |
| `DataMapping.Classify` | monoid-api/resolver/data_mapping.resolvers.go:229-263 | The loop returns, in row order, the ids the review table sends to deletion, the ids whose flag it clears, and the returned rows. |
| `DataMapping.Reviewed` | monoid-api/resolver/data_mapping.resolvers.go:234-262 | The returned properties are exactly the clear-list properties, in the same order, and every one has no tentative flag. |
| `DataMapping.ReviewedOrigin` | monoid-api/resolver/data_mapping.resolvers.go:244-261 | Every returned property is a found row that the table commits (CREATED+Approve or DELETED+Reject), with its flag cleared. |
| `DataMapping.SelectedMembership` | monoid-api/resolver/data_mapping.resolvers.go:236-263 | An id is in an action's list if and only if some row with that id gets that action from the table. |
| `DataMapping.RowSelection` | monoid-api/resolver/data_mapping.resolvers.go:237-261 | With distinct ids, a row is in the delete list or the clear list if and only if the table gives it that action. A committed (nil) row is in neither. |
| `DataMapping.SelectedDisjoint` | monoid-api/resolver/data_mapping.resolvers.go:229-263 | With distinct ids, no property is in both the delete list and the clear list. |
| `DataMapping.SelectedInOrder` | monoid-api/resolver/data_mapping.resolvers.go:230-263 | The delete list and the clear list are each an order-preserving subsequence of the row ids. |
| `DataMapping.ReviewExamples` | monoid-api/resolver/data_mapping.resolvers.go:241-261 | Take P1 CREATED and P2 DELETED. Approve clears P1 and deletes P2. Reject deletes P1 and clears P2. |
| `DataMapping.Find` | monoid-api/resolver/data_mapping.resolvers.go:221 | `Where("id IN ?", ids).Find`: one stored row per distinct requested id that exists, in the order of first request. Its contract states that there are never more rows than ids. |
| `DataMapping.FindOrigin` | monoid-api/resolver/data_mapping.resolvers.go:221 | Every row found is the stored row of one of the requested ids. |
| `DataMapping.FindCount` | monoid-api/resolver/data_mapping.resolvers.go:220-227 | Finding by `id IN ids` yields as many rows as ids if and only if the ids are distinct and all exist. The rows are then the requested ones, in order. |
| `DataMapping.FoundSelection` | monoid-api/resolver/data_mapping.resolvers.go:221-263 | After the count check passes, an id is in an action's list if and only if it was requested and the table gives its stored property that action. |
| `DataMapping.FoundRows` | monoid-api/resolver/data_mapping.resolvers.go:221-227 | After the count check passes, the found rows have distinct ids and equal the stored rows. |
| `DataMapping.ReviewedAreStored` | monoid-api/resolver/data_mapping.resolvers.go:265-286 | After a commit, every returned property is stored exactly as returned. |
| `DataMapping.Database.ReviewProperties` | monoid-api/resolver/data_mapping.resolvers.go:219-287 | Missing or duplicate ids, or a failing find, give "Could not find properties." and change nothing. A failing transaction statement gives "Error updating properties." and changes nothing. On success: committed properties lose their flag; deleted properties and their category links are gone; purpose links and all other properties are untouched; the result is the committed properties as stored. |
| `DataMapping.Database.CommitReview` | monoid-api/resolver/data_mapping.resolvers.go:265-284 | The transaction either clears the flags of the clear list and deletes the delete list with its category links, or leaves both tables exactly as they were. |
| `DataMapping.ReplaceLinks` | monoid-api/resolver/data_mapping.resolvers.go:186-209 | After `Association(...).Replace`, the property is linked to exactly the new targets, and every other property keeps its links. |
| `DataMapping.Existing` | monoid-api/resolver/data_mapping.resolvers.go:189-202 | The purposes or categories found for a list of ids: only existing ones, every requested id that exists, and nothing that was not requested. |
| `DataMapping.Database.UpdateProperty` | monoid-api/resolver/data_mapping.resolvers.go:177-216 | Purposes, then categories, are replaced only when their id list is given (an empty list clears them), by the given ids that exist. Failures give the source's messages. A failure in a later step keeps an earlier replacement. The property row itself is unchanged. |
| `DataMapping.Database.UpdateDataSource` | monoid-api/resolver/data_mapping.resolvers.go:129-148 | The description is always overwritten. The schema changes only when given. Nothing changes when the source is missing or a statement fails. |
| `DataMapping.Database.UpdateSiloSpecification` | monoid-api/resolver/data_mapping.resolvers.go:150-175 | The docker image and name change only when given. The logo URL and schema are always overwritten. Nothing changes when the specification is missing or a statement fails. |
| `DataMapping.Database.DetectSiloSources` | monoid-api/resolver/data_mapping.resolvers.go:358-402 | A silo of another workspace is "not found". Otherwise a job {Queued, DiscoverSources, ResourceID = id, the given workspace} is recorded. The workflow start is then requested with ID = job ID on DockerRunnerQueue. The job stays recorded if the start fails. |
| `DockerHelpers.RandSeq` | monoid-api/monoidprotocol/docker/helpers.go:19-28 | The token has exactly n characters. Character i is the letter drawn for position i, and every one is in a–z. |
| `DockerHelpers.EveryLowercaseTokenIsReachable` | monoid-api/monoidprotocol/docker/helpers.go:21-28 | Every lowercase string of length n is produced by some sequence of draws. |
| `DockerHelpers.Decoded` | monoid-api/monoidprotocol/docker/helpers.go:69-76 | The decoded messages are never more than the lines. |
| `DockerHelpers.DecodedAppend` | monoid-api/monoidprotocol/docker/helpers.go:69-77 | Decoding works line by line: splitting the input anywhere concatenates the outputs. |
| `DockerHelpers.MalformedLineIsSkipped` | monoid-api/monoidprotocol/docker/helpers.go:71-74 | A malformed line is skipped, and every line after it is still decoded. |
| `DockerHelpers.DecodedComplete` | monoid-api/monoidprotocol/docker/helpers.go:71-76 | The output is as long as the input if and only if every line decodes. |
| `DockerHelpers.ReadMessages` | monoid-api/monoidprotocol/docker/helpers.go:66-84 | One event per line, in line order: the message sent, or the error logged. Then `closer.Close()` exactly once, after the input is exhausted. Then the output is closed. The messages sent are exactly the decoded ones. |
| `DockerHelpers.Payloads` | monoid-api/monoidprotocol/docker/helpers.go:89-95 | As written, the output is the payload of every message, same length, in order. |
| `DockerHelpers.ReadRecords` | monoid-api/monoidprotocol/docker/helpers.go:86-102 | As written, it needs a record on every message. Its trace is, message by message, the "not a record" log (only for a message that is not a RECORD with a record, and with that message's type) followed by that message's send, then one close at the end. So every payload is sent in order, and the logs report exactly the types of the non-record messages. |
| `DockerHelpers.AsWrittenTraceContents` | monoid-api/monoidprotocol/docker/helpers.go:89-95 | As written, the sends are every message's payload, and the logs name exactly the types of the messages that are not data records, in order. |
| `DockerHelpers.RecordPayloads` | monoid-api/monoidprotocol/docker/helpers.go:90-94 | The intended filter output is never longer than the input. |
| `DockerHelpers.ReadRecordsFiltered` | monoid-api/monoidprotocol/docker/helpers.go:86-102 | With the missing `continue`: one event per message at that message's position (a RECORD with a record is sent, any other message is logged with its type). It sends exactly the data-record payloads, in order, and closes its output once, at the end. |
| `DockerHelpers.FilteredEqualsAsWrittenOnDataRecords` | monoid-api/monoidprotocol/docker/helpers.go:90-94 | On a stream of RECORD messages that all carry records, the code as written and the filter send the same records. |
| `DockerHelpers.AsWrittenForwardsNonRecordMessage` | monoid-api/monoidprotocol/docker/helpers.go:90-94 | A SCHEMA message that carries a record is logged and then still sent as written, but dropped by the filter. |
| `DockerHelpers.RecordPayloadsAppend` | monoid-api/monoidprotocol/docker/helpers.go:89-97 | The filter works message by message: splitting its input concatenates its outputs. |

## Left out

- SQL and GORM. Query strings, `Order("created_at desc, name asc")` and timestamps are not modelled. The store is the in-memory tables above.
- Row order. The database's row order for `Where("id IN ?")` is not specified. `Find` returns rows in the order each id is first requested.
- Errors. `handleError` is not part of this model. An error keeps only the resolver's message. A failing database statement is a fault parameter, not a database.
- `Association(...).Replace` is treated as one step that either happens or fails with no effect.
- The resolvers that only panic are not modelled because they have no behaviour: `ReviewDataSource`, `CreatePurpose`, `CreateCategory`, `CreateSubject`, `UpdatePurpose`, `UpdateCategory`, `UpdateSubject`.
- These resolvers are outside the modelled core: `Properties`, `CreateDataSource`, `CreateSiloSpecification`, `CreateProperty`, `DeleteDataSource`, `DeleteSiloSpecification`. The same goes for the query and delete wrappers and the resolver registration, which call helpers that are not part of this model.
- The workflow engine. A workflow start is only recorded. Whether `DetectDSWorkflow` runs, and its retry and timeout settings, are not modelled. Neither is the `Preload("SiloSpecification")` of the silo handed to it.
- `uuid.NewString()` becomes the `jobId` parameter. A clash with an existing job id is modelled as a failed job creation.
- The Job enumerations (`JobType`, `JobStatus`) and the pointer-ness of `Description`, `LogoURL` and `Schema` are inferred from their use. The model package is not part of this model.
- `ContainerWait` and `ContainerLogs` are Docker I/O and a goroutine race.
- Channels and goroutines are not modelled: no blocking, no backpressure, no interleaving. A stage's trace is its sequential behaviour.
- JSON unmarshalling, logging output and the crypto random source are parameters or trace events. Only the message type and record of a message are kept.
- RandSeq: does not model the ignored error of `rand.Int`, whose nil result would make `j.Int64()` panic. The draw is always a valid index. A negative `n` (a panic in `make`) is excluded by `n: nat`. That tokens are random and unique is not stated.
- monoid-api/cmd/server/main.go, monoid-api/cmd/worker/main.go, monoid-api/dataloader/data_sources.go and monoid-api/workflow/handle_requests.go are process wiring and are not part of this model. monoid-py/monoid_pydev/models/models.py only gives the message shapes.

## Findings

| source | as written | input that shows it | evidently intended | confidence | as-written member | corrected member |
|---|---|---|---|---|---|---|
| monoid-api/monoidprotocol/docker/helpers.go:90-94 | The "Message type is not record" debug log has no `continue`, so every message reaches `recordChan <- *s.Record`. | A SCHEMA message carrying a record is forwarded as a record. A message with no record (e.g. `{"type":"VALIDATE"}`) dereferences a nil pointer and panics the goroutine. | Log and drop non-RECORD messages and RECORD messages without a payload. Forward only the payloads of real records. | high; not executed | `DockerHelpers.ReadRecords`, `DockerHelpers.AsWrittenForwardsNonRecordMessage` | `DockerHelpers.ReadRecordsFiltered`, `DockerHelpers.FilteredEqualsAsWrittenOnDataRecords` |

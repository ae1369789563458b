# image-processing, modelled in Dafny

This is a model of the image task pipeline of the `image-processing` repository, with proofs of its properties. The pipeline has three parts:

- An Express API stores an uploaded image in the MinIO `upload` bucket.
- The API publishes a task on the Kafka `tasks` topic and inserts a `pending` row in the `ThumbnailImage` table (Prisma).
- A worker resizes the image into the `completed` bucket and publishes a completion message. The API's consumer then marks the row `succeeded` or `failed` and removes the staged upload.

Around the pipeline sit the read side (`getImages`, `getImageById`, `getCollectionById`) and the admission rules: the multer file filter, the upload size checks, the zod DTOs, the two broker message schemas, and the error middleware. The collection membership operations are modelled as well.

## How the model is built

- **Stores.** All stores are one `World.World` object, with fields for the two tables, the two buckets and the two topics. `Snapshot()` gives its value as a `World.State`.
  - Every operation that changes a store is a method with `modifies w`.
  - Its `ensures` ties the new snapshot and its result to a step function on `State`, for example `KafkaService.HandleCompletionStep`.
  - The lemmas prove what the source promises about those step functions.
- **Loops stay loops.** These are methods with `while` loops and invariants:
  - the retry loop of `sendJobToKafka`;
  - the chunk loop that buffers a MinIO stream;
  - the per-message consumer loops;
  - the `Promise.all` fan-out over updates.
- **Pure code stays pure.** These are functions with named results:
  - the DTOs, file filter and error middleware;
  - the response choices of the controllers;
  - JSON text, base64 and data URLs.
- **Outside behaviour becomes inputs.** Everything the code cannot see or control is a parameter:
  - the clock (`now`) and fresh uuids;
  - the outcome of each broker attempt (`script: nat -> Attempt`);
  - the sharp transform (`transform: Bytes -> Result<Bytes, Thrown>`);
  - whether `putObject`, `removeObject` or a send throws.
- **JSON.** `JSON.stringify` and `JSON.parse` are modelled by `Json.Stringify` and `Json.Parse`, with numbers restricted to integers. A field is read the way JavaScript reads it: the last member with the key wins, and `success` is read for its truthiness.
- **Concurrency.** The API, the worker and the consumer run concurrently. A race is therefore modelled as an explicit schedule: a composition of the step functions in the order the services may run (`Pipeline.RaceAsWritten`).

## Model

| member | source | states |
|---|---|---|
| Upload.ExtName | api/src/utils/upload.ts:14 | `path.extname`: the result is empty or starts with a dot and never contains a slash |
| Upload.FileFilter | api/src/utils/upload.ts:13-25 | the file is accepted iff its lower-cased extension is one of the eight allowed, its mimetype starts with `image/` and its name has at most 255 UTF-16 code units; the first failing check (extension, then mimetype, then name length) decides the message |
| Upload.ExtensionMessageText | api/src/utils/upload.ts:16 | the extension rejection message names every allowed extension and contains "file types" |
| Upload.ExtNameLower | api/src/utils/upload.ts:14 | the extension of the lower-cased name is the lower-cased extension |
| Upload.ExtensionCheckIgnoresCase | api/src/utils/upload.ts:14-15 | two names that differ only in letter case pass or fail the extension check together |
| ImageDto.ParseImageDto | api/src/dtos/image.dto.ts:4-8 | a body is accepted iff its uuid is a UUID string, its filename a string, and its description absent or a string; the fields are kept as given |
| ImageDto.ParseImageId | api/src/dtos/image.dto.ts:16-18 | only a UUID is accepted, and it is returned unchanged |
| ImageDto.ParsePresignedUpload | api/src/dtos/image.dto.ts:20-22 | only one of the eight enum extensions is accepted |
| ImageDto.ParseSort | api/src/dtos/image.dto.ts:33 | an absent sort is `desc`; only "asc" and "desc" are accepted; the result is ascending iff the text is "asc" |
| ImageDto.ParseImagesQuery | api/src/dtos/image.dto.ts:30-36 | the query is accepted iff sort is valid and sortBy is absent or "createdAt"; each absent field takes its default |
| ImageDto.ImagesQueryDefaults | api/src/dtos/image.dto.ts:30-36 | an empty query is page 1, limit 10, descending, no search |
| ImageDto.PresignedMatchesUploadFilter | api/src/dtos/image.dto.ts:21 | an extension is in the presigned enum iff it is one of ALLOWED_EXTENSIONS once a dot is put in front of it |
| CollectionDto.ParseCollectionUuid | api/src/dtos/collection.dto.ts:3-5 | only a UUID is accepted, and it is returned unchanged |
| CollectionDto.ParseCreateCollection | api/src/dtos/collection.dto.ts:8-11 | the body is accepted iff its name is a string of 2 to 100 UTF-16 code units and its description is absent or a string; the fields are kept as given |
| CollectionDto.ParseUpdateCollection | api/src/dtos/collection.dto.ts:14-17 | both fields are optional, but a name that is present must be 2 to 100 UTF-16 code units; the body is rejected exactly when a field has the wrong shape or the name is out of bounds |
| CollectionDto.AstralNameBounds | api/src/dtos/collection.dto.ts:9 | a name made only of characters above U+FFFF passes with 1 to 50 characters, because each counts as two code units |
| CollectionDto.ParseImageLink | api/src/dtos/collection.dto.ts:22-25 | an element is accepted iff its type is the literal "images" and its uuid is a UUID; the result is that uuid |
| CollectionDto.ParseImageLinks | api/src/dtos/collection.dto.ts:20-27 | the array is accepted iff every element is; the uuids come back in order |
| CollectionDto.ParseRelationship | api/src/dtos/collection.dto.ts:20-37 | a body whose `data` is an array is parsed exactly as `ParseImageLinks` parses that array; a body without a `data` array is rejected |
| CollectionDto.OtherTypeRejected | api/src/dtos/collection.dto.ts:23 | one element with a type other than "images" rejects the whole body |
| CollectionDto.ParseSortKey | api/src/dtos/collection.dto.ts:43 | an absent sortBy is createdAt; only createdAt and updatedAt are accepted |
| CollectionDto.ParseCollectionsQuery | api/src/dtos/collection.dto.ts:39-45 | the query is accepted iff sort and sortBy are valid; each absent field takes its default |
| CollectionDto.CollectionsQueryDefaults | api/src/dtos/collection.dto.ts:39-45 | an empty query is page 1, limit 10, descending, by createdAt |
| SharedSchemas.ProcessImageJson | api/src/services/kafka.service.ts:30-33 | the task object carries uuid and startTime and has no `success` member |
| SharedSchemas.CompleteImageJson | worker/src/imageResize.ts:56-60 | the completion object has uuid, success and processingTime; error is present iff the message has one |
| SharedSchemas.ParseProcessImage | packages/shared-schemas/src/index.ts:3-6 | a task is accepted iff its uuid is a UUID string and its startTime a number |
| SharedSchemas.ParseCompleteImage | packages/shared-schemas/src/index.ts:8-13 | a completion is accepted iff its uuid is a UUID string, success a boolean, processingTime a number, and error absent or a string; the accepted fields are the ones given; a `null` error is rejected |
| SharedSchemas.ProcessImageRoundTrip | packages/shared-schemas/src/index.ts:3-6 | the JSON text of a task parses back to the same object, and that object passes the schema as the same task |
| SharedSchemas.CompleteImageRoundTrip | packages/shared-schemas/src/index.ts:8-13 | the same holds for a completion, with or without `error` |
| Json.ParseStringify | worker/src/imageResize.ts:15 | `JSON.parse(JSON.stringify(v))` gives back `v`, for every value the model can hold |
| Json.Get | worker/src/imageResize.ts:32 | reading a property of an object gives a member with that key, and absent means no member has the key |
| Json.Stringify | worker/src/imageResize.ts:15 | `JSON.stringify` on the model's values; no contract of its own: `Json.ParseStringify` proves that `Parse` reads its text back |
| Json.Parse | api/src/services/kafka.service.ts:142 | `JSON.parse`: one value with optional white space around it; no contract of its own: `Json.ParseStringify` proves it inverts `Stringify` |
| Json.SurrogatePairUnescape | api/src/services/kafka.service.ts:142 | the escape pair `\ud83d\ude00` decodes to the one character U+1F600 |
| Json.ToNumber | worker/src/imageResize.ts:59 | the coercion of `Date.now() - v`: a number is itself and an object is NaN; the other cases are stated by `IntTextToNumber` and `ImageResize.ElapsedCoerces` |
| Json.IntTextToNumber | worker/src/imageResize.ts:59 | the decimal text of any integer, sign included, coerces back to that integer |
| Strings.Lower | api/src/utils/upload.ts:14 | each ASCII capital letter becomes its small letter and every other character is kept, so the length is kept (not the full Unicode folding of `toLowerCase`) |
| Strings.Utf16Length | api/src/utils/upload.ts:21 | `.length` counts UTF-16 code units: between the number of characters and twice that, and equal to it iff no character is above U+FFFF |
| Strings.AstralLength | api/src/utils/upload.ts:21 | a string of characters above U+FFFF has twice as many code units as characters |
| Http.ErrorBody | api/src/controllers/images.controller.ts:113-129 | the body is an object with the one member `error: message` |
| Http.MessageBody | api/src/controllers/images.controller.ts:14-23 | the body is an object with the one member `message: text` |
| Http.TitledErrors | api/src/controllers/collections.controller.ts:23 | the body is an object with the one member `errors: [{title}]` |
| Http.MetaMessage | api/src/controllers/collections.controller.ts:98 | the body is an object with the one member `meta: {message}` |
| Http.DataBody | api/src/controllers/collections.controller.ts:20 | the body is an object with the one member `data: value` |
| ErrorHandler.ValidationBody | api/src/middleware/errorHandler.ts:16-21 | the body carries the message "Validation Error" and zod's errors |
| ErrorHandler.HandleError | api/src/middleware/errorHandler.ts:3-29 | a numeric `status` is answered with that status and `{message}`; otherwise a ZodError is 400 "Validation Error" with its errors; anything else is 500 "Internal Server Error" |
| ErrorHandler.MessageExposure | api/src/middleware/errorHandler.ts:10-28 | the error's own message is echoed only when it has a numeric status |
| ErrorHandler.StatusBeforeName | api/src/middleware/errorHandler.ts:10-16 | a numeric status wins even over the name ZodError |
| Bytes.ConcatChunks | api/src/services/image.service.ts:136-140 | concatenating the chunks of a stream gives back the object's bytes |
| Bytes.ReadAll | api/src/services/image.service.ts:136-140 | the `for await` loop returns the concatenation of the chunks |
| Bytes.Concat | api/src/services/image.service.ts:140 | `Buffer.concat`: a single chunk is itself; `Bytes.ConcatChunks` proves that the chunks of a stream concatenate to its bytes |
| Bytes.Chunks | api/src/services/image.service.ts:137-139 | each chunk a stream hands out holds 1 to `size` bytes |
| Base64.Encode | api/src/services/image.service.ts:143 | the padded encoding has 4 characters per started group of 3 bytes |
| Base64.Decode | api/src/services/image.service.ts:143 | strict decoding (section 3.5 of RFC 4648): a length that is not a multiple of 4 is refused, and each group of four characters gives 1 to 3 bytes |
| Base64.JpegDataUrl | api/src/services/image.service.ts:147 | the URL is the `data:image/jpeg;base64,` prefix followed by the encoding |
| Base64.DecodeEncode | api/src/services/image.service.ts:143 | decoding `toString('base64')` (section 4 of RFC 4648) gives back the bytes |
| Base64.DataUrlRoundTrip | api/src/services/image.service.ts:147 | the `data:image/jpeg;base64,` URL (RFC 2397) reads back as the bytes |
| KafkaService.Backoff | api/src/services/kafka.service.ts:50 | the wait is at most 3000, and below the cap it is 100·2^n |
| KafkaService.Delays | api/src/services/kafka.service.ts:48-53 | the n-th wait is the backoff after n failed attempts |
| KafkaService.SendJob | api/src/services/kafka.service.ts:12-65 | sendJobToKafka in closed form; no contract of its own: `SendJobBounds`, `SendJobSucceedsIff`, `SendJobGivesUp` and `DelaySchedule` state its properties |
| KafkaService.TerminalError | api/src/services/kafka.service.ts:60 | `lastError \|\| new Error(...)`: a truthy last error is thrown as is; otherwise a new Error with the five-attempt message |
| KafkaService.SendJobToKafka | api/src/services/kafka.service.ts:12-65 | the loop publishes and returns exactly what the closed form `SendJob` says: the messages, the result and the waits |
| KafkaService.SendJobBounds | api/src/services/kafka.service.ts:17-22 | at most four waits and at most one message; success returns true |
| KafkaService.SendJobSucceedsIff | api/src/services/kafka.service.ts:22-44 | the call succeeds iff one of the five attempts delivers; a connect failure is a failed attempt; the first delivery publishes one message stamped with that attempt's clock, after exactly as many waits as failures |
| KafkaService.SendJobGivesUp | api/src/services/kafka.service.ts:48-61 | after five failures it throws the terminal error of the fifth, publishes nothing, and has waited 200, 400, 800 and 1600 ms |
| KafkaService.DelaySchedule | api/src/services/kafka.service.ts:48-53 | the waits are 200, 400, 800 and 1600; the 3000 cap is never reached |
| KafkaService.TaskMessageRoundTrip | api/src/services/kafka.service.ts:37-40 | the published value is JSON text that parses to `{uuid, startTime}` and passes the task schema |
| KafkaService.ApplyCompletion | api/src/services/kafka.service.ts:74-91 | success sets "succeeded" and completedAt = now; failure sets only "failed"; no other column changes |
| KafkaService.HandleCompletionStep | api/src/services/kafka.service.ts:67-100 | handleCompletion on a state; no contract of its own: `CompletionEffect`, `CompletionCleanup`, `NoTerminalGuard` and `CompletionKeepsValid` state its properties |
| KafkaService.HandleCompletion | api/src/services/kafka.service.ts:67-100 | the stores after the call and its outcome are those of `HandleCompletionStep`: update the row, then remove the upload |
| KafkaService.CompletionEffect | api/src/services/kafka.service.ts:75-91 | the matched row gets `ApplyCompletion` of the success flag; every other row, the collections, the completed bucket and the topics are unchanged |
| KafkaService.CompletionCleanup | api/src/services/kafka.service.ts:88-95 | the upload object is removed iff the row was found and updated and removeObject did not throw; a missing row changes nothing |
| KafkaService.NoTerminalGuard | api/src/services/kafka.service.ts:75-91 | a row already "failed" becomes "succeeded" when a success message arrives |
| KafkaService.ReplayRestamps | api/src/services/kafka.service.ts:75-80 | replaying a success keeps "succeeded" and moves completedAt to the replay's time |
| KafkaService.CastIsNotValidation | api/src/services/kafka.service.ts:142 | a message whose success is the string "yes" fails the schema, yet the row is marked succeeded |
| KafkaService.CompletionKeepsValid | api/src/services/kafka.service.ts:88-91 | handling a completion keeps the uuid column unique |
| KafkaService.CompletionEachMessage | api/src/services/kafka.service.ts:138-148 | one message is handled as `CompletionMessageStep` says: skip an empty value, parse, hand over, and log what is thrown |
| KafkaService.CompletionMessageStep | api/src/services/kafka.service.ts:138-148 | eachMessage on a state; no contract of its own: `EmptyValueSkipped`, `UnparsableLogged` and `PublishedCompletionApplied` state its properties |
| KafkaService.ConsumeCompletions | api/src/services/kafka.service.ts:137-149 | messages are handled one at a time, each in the state the ones before it left, and an error in one never stops the next; the stores end as `ConsumeCompletionsState` says and the log is `ConsumeCompletionsLog` |
| KafkaService.ConsumeCompletionsLog | api/src/services/kafka.service.ts:137-149 | one log entry per message |
| KafkaService.EmptyValueSkipped | api/src/services/kafka.service.ts:141 | an absent or empty value changes nothing |
| KafkaService.UnparsableLogged | api/src/services/kafka.service.ts:142-147 | text that is not JSON changes nothing and is only logged |
| KafkaService.PublishedCompletionApplied | api/src/services/kafka.service.ts:140-143 | a completion the worker published, read back from its text, updates exactly its row and removes exactly its upload |
| KafkaService.ConsumeKeepsValid | api/src/services/kafka.service.ts:137-149 | a run of the consumer keeps the uuid column unique |
| ImageResize.TaskUuid | worker/src/imageResize.ts:32 | `imageData.uuid` is read when it is a string, and is absent otherwise |
| ImageResize.Elapsed | worker/src/imageResize.ts:59 | processingTime is now − startTime when startTime coerces to a number (a number is itself); it is `null` when startTime is absent or coerces to NaN |
| ImageResize.ElapsedCoerces | worker/src/imageResize.ts:59 | startTime `"5"` or `["5"]` gives now − 5, `null` and `[]` give now, `true` gives now − 1, an object or a missing field gives `null` |
| ImageResize.ErrorText | worker/src/imageResize.ts:71 | an Error gives its message; anything else gives 'Unknown error' |
| ImageResize.CompletionRecord | worker/src/imageResize.ts:13-16 | the record's value is the JSON text of the message |
| ImageResize.SendMessage | worker/src/imageResize.ts:11-20 | a failed send is dropped, never thrown; an accepted one appends exactly one record |
| ImageResize.ResizeImage | worker/src/imageResize.ts:23-76 | the buckets, the topic and the outcome are those of `ResizeStep` |
| ImageResize.ResizeStep | worker/src/imageResize.ts:23-76 | resizeImage on a state; no contract of its own: `ResizeSendsOnce`, `ResizeMessage`, `ResizeSucceedsIff` and `ResizeStores` state its properties |
| ImageResize.Processed | worker/src/imageResize.ts:30-52 | getObject, buffering, sharp and putObject; no contract of its own: `ResizeSucceedsIff` and `MissingUploadReported` state its properties |
| ImageResize.CompletionValueIsSchema | worker/src/imageResize.ts:56-60 | with a string uuid and a numeric startTime the worker writes exactly the shared completion message |
| ImageResize.LookupKeys | worker/src/imageResize.ts:56-60 | every field of the completion object reads back as written, and `error` is absent unless set |
| ImageResize.ResizeSendsOnce | worker/src/imageResize.ts:61-73 | sendMessage runs exactly once per call; one record is published iff the broker accepts it |
| ImageResize.ResizeMessage | worker/src/imageResize.ts:56-72 | the published message carries the task's uuid, success iff every step succeeded, the elapsed time and the error text otherwise; its key is the uuid; its text parses back to that object |
| ImageResize.ResizeSucceedsIff | worker/src/imageResize.ts:30-52 | success iff the upload exists, sharp returns and putObject does not throw |
| ImageResize.ResizeStores | worker/src/imageResize.ts:32-51 | the completed bucket gets the resized bytes under the uuid only on success; the upload bucket and the tables are only read |
| ImageResize.MissingUploadReported | worker/src/imageResize.ts:65-73 | a missing upload is NoSuchKey, and the completion reports success false with the store's message |
| ImageResize.WorkerEachMessage | worker/src/imageResize.ts:95-118 | one task is handled as `TaskMessageStep` says; parse and resize errors are caught |
| ImageResize.TaskMessageStep | worker/src/imageResize.ts:95-118 | eachMessage on a state; no contract of its own: `UnusableTaskIgnored` and `Pipeline.WorkerHandlesTask` state its properties |
| ImageResize.WorkerRun | worker/src/imageResize.ts:94-119 | tasks are handled one at a time, each in the state the ones before it left, and a failure never stops the next; the stores end as `TaskRunState` says and the log is `TaskRunLog` |
| ImageResize.TaskRunLog | worker/src/imageResize.ts:94-119 | one log entry per task |
| ImageResize.UnusableTaskIgnored | worker/src/imageResize.ts:105-116 | an empty value, text that is not JSON, or a `null` task publishes nothing and changes nothing |
| ImageResize.WorkerRunBounds | worker/src/imageResize.ts:94-119 | over a run the upload bucket and the image table are untouched, and at most one completion is published per task |
| ImageService.NewRecord | api/src/services/image.service.ts:83-92 | the row has the given uuid, filename and description, status "pending", no collection, completedAt 0 and createdAt now |
| ImageService.CreateProcessingTask | api/src/services/image.service.ts:76-98 | publish first, insert after, as `CreateTaskStep` says |
| ImageService.CreateTaskStep | api/src/services/image.service.ts:76-98 | createProcessingTask on a state; no contract of its own: `CreateTaskOutcome` and `CreateTaskKeepsInvariants` state its properties |
| ImageService.CreateTaskOutcome | api/src/services/image.service.ts:76-97 | a failed publish creates no row and rethrows; a successful one publishes one task keyed by the uuid; the result is Ok iff the publish succeeded and the uuid was free, and then it is the new row; the buckets are untouched |
| ImageService.CreateTaskKeepsInvariants | api/src/services/image.service.ts:83-93 | unique uuids and known statuses are kept |
| ImageService.UploadAndProcessImage | api/src/services/image.service.ts:190-236 | store the bytes, then create the task, as `UploadStep` says |
| ImageService.UploadStep | api/src/services/image.service.ts:190-236 | uploadAndProcessImage on a state; no contract of its own: `UploadOutcome` states its properties |
| ImageService.UploadOutcome | api/src/services/image.service.ts:198-235 | a failed store changes nothing and rethrows; otherwise the bytes are staged under the fresh uuid; success answers the uuid, the original name and "pending", with a pending row |
| ImageService.Attach | api/src/services/image.service.ts:127-152 | imageData is present iff the status is the one looked for and the thumbnail exists; it then decodes to the stored bytes; the row is kept |
| ImageService.AttachData | api/src/services/image.service.ts:128-151 | getObject, the chunk loop and base64 give `Attach`'s result; a failed read returns the row without data |
| ImageService.ImageByIdFor | api/src/services/image.service.ts:118-156 | absent iff no row has the uuid; otherwise the view of that row |
| ImageService.ImageById | api/src/services/image.service.ts:127 | as written, data is attached only for status "completed" |
| ImageService.ImageByIdCorrected | api/src/services/image.service.ts:127 | with the status handleCompletion writes, data is attached only for "succeeded" |
| ImageService.GetImageById | api/src/services/image.service.ts:118-156 | the method answers `ImageById` |
| ImageService.Selected | api/src/services/image.service.ts:23-31 | exactly the rows with the status that match the search |
| ImageService.SortByCreated | api/src/services/image.service.ts:32-34 | the sort is a permutation of its input |
| ImageService.SortSorted | api/src/services/image.service.ts:32-34 | the sort orders by createdAt, ascending iff sort is "asc" |
| ImageService.Window | api/src/services/image.service.ts:35-36 | skip then take: at most `take` rows, taken in order from offset `skip` |
| ImageService.WindowFromEnd | api/src/services/image.service.ts:35-36 | a negative take of `take` rows: at most `take` rows, the run that ends `skip` rows before the end, in order |
| ImageService.WindowFromEndReversed | api/src/services/image.service.ts:35-36 | the same rows as Prisma's reading of a negative take: reverse the order, skip and take, reverse back |
| ImageService.FindWindow | api/src/services/image.service.ts:35-36 | findMany's `skip` and `take`: at most abs(take) rows |
| ImageService.FindWindowSpec | api/src/services/image.service.ts:35-36 | each row of the window sits at its place in the input, counted from the front for a take of zero or more and from the back otherwise; a sorted input gives a sorted window |
| ImageService.AttachAll | api/src/services/image.service.ts:40-71 | one view per row, in order, each as `Attach` gives it |
| ImageService.AttachRows | api/src/services/image.service.ts:40-71 | the loop over the page answers `AttachAll` |
| ImageService.GetImages | api/src/services/image.service.ts:17-74 | the method answers `Images` |
| ImageService.Images | api/src/services/image.service.ts:17-74 | getImages as written, on a state; no contract of its own: `ImagesSpec`, `PageRowsSpec` and `CompletedNeverReached` state its properties |
| ImageService.PageRows | api/src/services/image.service.ts:19-37 | the rows findMany returns, on a state; no contract of its own: `PageRowsSpec`, `PageRowsFromEnd` and `LastRowPage` state its properties |
| ImageService.PageRowsSpec | api/src/services/image.service.ts:19-37 | an error iff the offset (page − 1)·limit is negative; otherwise at most abs(limit) rows of the sorted selection, sorted as asked, each a table row with the status that matches the search; for a limit of zero or more they are the rows from that offset |
| ImageService.PageRowsFromEnd | api/src/services/image.service.ts:35-36 | for a negative limit the rows are those of the reversed selection after skipping the offset and taking −limit, put back in the requested order |
| ImageService.LastRowPage | api/src/services/image.service.ts:35-36 | page 1 with limit −1 answers the last row of the sorted selection |
| ImageService.SelectionWindowSpec | api/src/services/image.service.ts:22-37 | any window of the sorted selection holds at most abs(take) rows, each at its place in the selection, sorted, each a table row with the status that matches the search |
| ImageService.WindowSelected | api/src/services/image.service.ts:22-37 | every row in any window of the sorted selection is a table row with the status that matches the search |
| ImageService.SelectedNone | api/src/services/image.service.ts:23-24 | when no row has the status looked for, the selection is empty |
| ImageService.ImagesSpec | api/src/services/image.service.ts:40-73 | getImages answers the page's rows in order, each with data as `Attach` says |
| ImageService.ImagesComplete | api/src/services/image.service.ts:22-37 | on a first page at least as large as the table, every row with the status that matches the search is returned |
| ImageService.SearchIgnoresCase | api/src/services/image.service.ts:25-30 | a search term matches iff its lower-cased text occurs in the lower-cased filename or description |
| ImageService.Matches | api/src/services/image.service.ts:25-30 | the `OR` of the two case-insensitive `contains` filters; no contract of its own: `SearchIgnoresCase` states it |
| ImageService.DeleteImageById | api/src/services/image.service.ts:161-184 | the method follows `DeleteStep` |
| ImageService.DeleteStep | api/src/services/image.service.ts:161-184 | deleteImageById on a state; no contract of its own: `DeleteOutcome` and `DeleteKeepsInvariants` state its properties |
| ImageService.DeleteOutcome | api/src/services/image.service.ts:161-183 | a missing uuid throws "Image not found" and changes nothing; otherwise that row is gone, every other row stays, the result is the deleted row, and the upload bucket and topics are untouched whatever the completed bucket does |
| ImageService.DeleteKeepsInvariants | api/src/services/image.service.ts:170-173 | unique uuids and known statuses are kept |
| ImageService.ImageExists | api/src/services/image.service.ts:241-246 | true iff a row has the uuid |
| ImageService.CompletedNeverReached | api/src/services/image.service.ts:24-127 | while every status is one the pipeline writes, no image is ever returned with data, and getImages always answers an empty page |
| ImageService.CompletedUnknown | api/src/services/kafka.service.ts:78 | "completed" is none of the statuses the pipeline writes |
| ImageService.CorrectedAttachesAfterCompletion | api/src/services/image.service.ts:127-148 | with "succeeded", a row whose completion succeeded is returned with a thumbnail that decodes to the completed bucket's bytes |
| CollectionService.ImageCount | api/src/services/collection.service.ts:21-25 | zero iff no row is linked to the collection |
| CollectionService.Listed | api/src/services/collection.service.ts:149-158 | exactly the rows of the collection that match the search |
| CollectionService.ImageCountListed | api/src/services/collection.service.ts:138-158 | the count is the number of rows listed without a search |
| CollectionService.View | api/src/services/collection.service.ts:30-34 | the collection with the number of images linked to it |
| CollectionService.Collections | api/src/services/collection.service.ts:17-35 | exactly the collections the filter keeps, each with its image count |
| CollectionService.CollectionsOf | api/src/services/collection.service.ts:19-34 | at most one view per collection; each kept collection appears with its image count, and nothing else appears |
| CollectionService.CreateCollection | api/src/services/collection.service.ts:40-61 | the method follows `CreateCollectionStep` |
| CollectionService.CreateCollectionStep | api/src/services/collection.service.ts:40-61 | createCollection on a state; no contract of its own: `CreateCollectionOutcome` states its properties |
| CollectionService.CreateCollectionOutcome | api/src/services/collection.service.ts:40-61 | a taken uuid is P2002 and changes nothing; otherwise one collection is appended, answered with image count 0, and the invariants hold |
| CollectionService.Updated | api/src/services/collection.service.ts:66-75 | the uuid and creation time are kept; updatedAt is now; each field changes iff it is given |
| CollectionService.UpdateCollection | api/src/services/collection.service.ts:66-75 | the method follows `UpdateCollectionStep` |
| CollectionService.UpdateCollectionStep | api/src/services/collection.service.ts:66-75 | updateCollection on a state; no contract of its own: `UpdateCollectionOutcome` states its properties |
| CollectionService.UpdateCollectionOutcome | api/src/services/collection.service.ts:66-75 | an unknown uuid is P2025 and changes nothing; otherwise the collection becomes `Updated` and the images are untouched |
| CollectionService.Released | api/src/services/collection.service.ts:80-84 | only the rows of the deleted collection lose their link |
| CollectionService.DeleteCollection | api/src/services/collection.service.ts:80-84 | the method follows `DeleteCollectionStep` |
| CollectionService.DeleteCollectionStep | api/src/services/collection.service.ts:80-84 | deleteCollection on a state; no contract of its own: `DeleteCollectionOutcome` states its properties |
| CollectionService.DeleteCollectionOutcome | api/src/services/collection.service.ts:80-84 | an unknown uuid is P2025 and changes nothing; otherwise the collection is gone, no image points at it, and the foreign key still holds |
| CollectionService.AddImagesToCollection | api/src/services/collection.service.ts:89-100 | the update loop follows `AddLinksStep` |
| CollectionService.AddLinksStep | api/src/services/collection.service.ts:89-100 | the updates one after the other, on a state; no contract of its own: `AddLinksState`, `AddLinksFrame`, `AddLinksOk`, `AddLinksRows` and `AddLinksError` state its properties |
| CollectionService.LinkOne | api/src/services/collection.service.ts:92-97 | one `update`, on a state; no contract of its own: `LinkOneOutcome` and `LinkOneRelinks` state its properties |
| CollectionService.Relinked | api/src/services/collection.service.ts:89-100 | the table after linking keeps the uuid column as it was |
| CollectionService.AddLinksState | api/src/services/collection.service.ts:89-100 | the only change is collectionId := the collection on listed rows, and only when the collection exists, whichever updates fail |
| CollectionService.AddLinksFrame | api/src/services/collection.service.ts:89-100 | no uuid, collection, bucket or topic changes |
| CollectionService.AddLinksOk | api/src/services/collection.service.ts:89-100 | Ok iff the collection exists and every id names an image |
| CollectionService.AddLinksRows | api/src/services/collection.service.ts:91-99 | one updated row per id, in order, each now in the collection |
| CollectionService.AddLinksError | api/src/services/collection.service.ts:91-99 | the rejection is P2025, or P2003 when the collection is missing and the first id exists |
| CollectionService.LinkOneOutcome | api/src/services/collection.service.ts:92-97 | one update succeeds iff the collection and the image exist; it then returns the image linked to the collection; otherwise P2025 for a missing image and P2003 for a missing collection |
| CollectionService.LinkOneRelinks | api/src/services/collection.service.ts:92-97 | one more id changes only that image's link, and only when it and the collection exist |
| CollectionService.UnlinkCount | api/src/services/collection.service.ts:106-114 | zero iff no row matches the `where` |
| CollectionService.Unlinked | api/src/services/collection.service.ts:106-114 | the table after unlinking keeps the uuid column as it was |
| CollectionService.UnlinkRows | api/src/services/collection.service.ts:106-114 | the loop gives `Unlinked` and `UnlinkCount` |
| CollectionService.RemoveImageFromCollection | api/src/services/collection.service.ts:105-115 | only the image table changes, to `Unlinked`; the count is `UnlinkCount` |
| CollectionService.AddRemoveRoundTrip | api/src/services/collection.service.ts:89-115 | unlinking undoes linking for images that were in no collection |
| CollectionService.UnlinkScope | api/src/services/collection.service.ts:106-114 | every other column is kept; a row's link changes iff it is listed, linked, and in the named collection (any collection when none is named) |
| CollectionService.Resolve | api/src/services/collection.service.ts:125-129 | defaults are page 1, limit 10, descending and an empty search |
| CollectionService.Pages | api/src/services/collection.service.ts:220 | there is no finite page count iff limit is 0; the count is positive iff both the limit and the number of rows are |
| CollectionService.PagesCeil | api/src/services/collection.service.ts:220 | Math.ceil: the least integer at or above count / limit; for a positive limit, the fewest pages of `limit` rows that hold `count` rows |
| CollectionService.CollectionById | api/src/services/collection.service.ts:120-225 | null iff the uuid is unknown; an error iff the offset (page − 1)·limit is negative; otherwise the collection with its image count, totalItems = imageCount, totalPages = Math.ceil(count / limit), the page and limit resolved, and at most abs(limit) images |
| CollectionService.GetCollectionById | api/src/services/collection.service.ts:120-225 | the method answers `CollectionById` |
| CollectionService.CollectionImagesSpec | api/src/services/collection.service.ts:149-209 | the listed images belong to the collection, match the search and come sorted as asked; data is attached only for "succeeded" |
| CollectionService.CollectionRowsSpec | api/src/services/collection.service.ts:149-175 | the page's rows are sorted as asked, and each is a row of the collection that matches the search |
| CollectionService.WindowSpec | api/src/services/collection.service.ts:149-171 | any window of the sorted listing, from either end, holds at most abs(take) rows, is sorted as asked and holds only rows of the collection that match the search |
| CollectionService.DefaultRowsAll | api/src/services/collection.service.ts:125-171 | with the defaults and at most ten images, the page is the whole listing, newest first |
| CollectionService.DefaultPageHoldsAll | api/src/services/collection.service.ts:125-221 | with the defaults, a collection of at most ten images lists every one of them, on 0 or 1 pages |
| CollectionService.ListedNoSearch | api/src/services/collection.service.ts:152 | an empty search term is no filter |
| CollectionService.TotalsIgnoreSearch | api/src/services/collection.service.ts:214-221 | totalItems and totalPages do not depend on the search term |
| CollectionService.RelinkKeepsInvariants | api/src/services/collection.service.ts:89-100 | unique uuids, the foreign key and known statuses survive linking |
| CollectionService.UnlinkKeepsInvariants | api/src/services/collection.service.ts:105-115 | the same holds for unlinking |
| ImagesController.TooLargeText | api/src/controllers/images.controller.ts:114 | the message reads "File too large. Maximum size is 10MB" |
| ImagesController.HandleFileUpload | api/src/controllers/images.controller.ts:108-133 | `next()` iff there is no error and the file is absent or larger than 1 byte; LIMIT_FILE_SIZE is 413; another multer error is 400 with its message; a filter error is 415; a size ≤ 1 is 400 "File is empty" |
| ImagesController.MulterReport | api/src/utils/upload.ts:10-25 | multer reports nothing iff the filter accepts and the size is at most the limit |
| ImagesController.AdmittedIff | api/src/controllers/images.controller.ts:108-133 | a file gets through iff the filter accepts and 1 < size ≤ 10 MB; a rejection is 415 with the filter's message; an oversized file is 413 |
| ImagesController.OneByteRejected | api/src/controllers/images.controller.ts:126-129 | a one-byte image is answered 400 "File is empty" |
| ImagesController.HandleFileUploadCorrected | api/src/controllers/images.controller.ts:126-129 | `next()` iff there is no error and size ≥ 1; it agrees with the original everywhere except size 1 |
| ImagesController.CorrectedAdmitsOneByte | api/src/controllers/images.controller.ts:126-129 | every accepted file of 1 byte to 10 MB gets through; only size 0 is "File is empty" |
| ImagesController.ThrownText | api/src/controllers/images.controller.ts:103 | `error.message` for an Error, `String(error)` otherwise |
| ImagesController.UploadResponse | api/src/controllers/images.controller.ts:96-105 | 200 with `{data}` iff the service resolved; otherwise 500 with the thrown text as details |
| ImagesController.UploadAndProcessImage | api/src/controllers/images.controller.ts:88-106 | no file is 400 "No file uploaded" with nothing changed; otherwise the stores follow the service and the answer is `UploadResponse` |
| ImagesController.UploadAnswers | api/src/controllers/images.controller.ts:96-98 | 200 iff the store and the publish succeeded and the uuid was free; the answer then names the fresh uuid and "pending" |
| ImagesController.ViewJson | api/src/controllers/images.controller.ts:54 | the row's seven columns, plus imageData when it is attached |
| ImagesController.ImageByIdResponse | api/src/controllers/images.controller.ts:44-58 | 404 iff null, 200 with the row iff found, 500 iff thrown |
| ImagesController.GetImagebyId | api/src/controllers/images.controller.ts:44-59 | the answer is the response for the service's result |
| ImagesController.ImageByIdAnswers | api/src/controllers/images.controller.ts:47-54 | 404 iff no row has the uuid; 200 carries that row |
| ImagesController.DeleteResponse | api/src/controllers/images.controller.ts:64-72 | 200 "Image deleted" iff resolved; 500 "Failed to delete image" iff thrown |
| ImagesController.DeleteImage | api/src/controllers/images.controller.ts:64-72 | the stores follow the service, and the answer is `DeleteResponse` |
| ImagesController.DeleteAnswers | api/src/controllers/images.controller.ts:64-72 | an unknown image is 500, never 404; a known one is 200 even when the thumbnail cannot be removed |
| ImagesController.ProcessWrites | api/src/controllers/images.controller.ts:10-25 | 200 "Processing started" on success; every failure ends with 500; two responses iff the error is named ImageNotFoundError |
| ImagesController.ProcessWritesCorrected | api/src/controllers/images.controller.ts:17-24 | exactly one response per request: 404 for ImageNotFoundError, 500 for any other failure, 200 on success |
| ImagesController.ProcessImage | api/src/controllers/images.controller.ts:10-26 | the stores follow createProcessingTask, and the responses written are `ProcessWrites` |
| ImagesController.DoubleWrite | api/src/controllers/images.controller.ts:15-24 | when every send fails with an error named ImageNotFoundError, the handler calls `res.status(...).json(...)` twice, 404 and then 500 |
| CollectionsController.ViewJson | api/src/services/collection.service.ts:30-34 | the JSON carries the uuid and imageCount |
| CollectionsController.ViewsJson | api/src/controllers/collections.controller.ts:20 | one JSON object per collection, in order |
| CollectionsController.CollectionsResponse | api/src/controllers/collections.controller.ts:17-25 | 200 `{data: [...]}` or 500 "Failed to get collections" |
| CollectionsController.GetCollections | api/src/controllers/collections.controller.ts:17-25 | the answer lists the collections the filter keeps; an unusable filter is 500 |
| CollectionsController.CollectionByIdResponse | api/src/controllers/collections.controller.ts:30-45 | 404 "Collection not found" iff null, 500 iff thrown, otherwise 200 `{data}` |
| CollectionsController.GetCollectionById | api/src/controllers/collections.controller.ts:33 | the service is called with no query, so the defaults apply |
| CollectionsController.CollectionByIdAnswers | api/src/controllers/collections.controller.ts:33-40 | 404 iff the collection is unknown, 200 iff it exists |
| CollectionsController.CreateResponse | api/src/controllers/collections.controller.ts:50-58 | 201 iff created; 500 with an `errors` list otherwise |
| CollectionsController.CreateCollection | api/src/controllers/collections.controller.ts:50-58 | the stores follow the service, and the answer is `CreateResponse` |
| CollectionsController.CreateAnswers | api/src/controllers/collections.controller.ts:52-53 | a fresh uuid is 201 with the new collection and image count 0 |
| CollectionsController.UpdateResponse | api/src/controllers/collections.controller.ts:63-76 | 200 `{data}` or 500 "Failed to update collection" |
| CollectionsController.UpdateCollection | api/src/controllers/collections.controller.ts:63-76 | the stores follow the service, and the answer is `UpdateResponse` |
| CollectionsController.UpdateAnswers | api/src/controllers/collections.controller.ts:63-76 | an unknown collection is 500, a known one 200 |
| CollectionsController.DeleteCollection | api/src/controllers/collections.controller.ts:81-104 | the stores and the answer follow `DeleteCollectionRoute`: look up, 409 for a positive count, otherwise delete |
| CollectionsController.ReleaseNothing | api/src/controllers/collections.controller.ts:89-97 | deleting an empty collection releases no image |
| CollectionsController.DeleteCollectionAnswers | api/src/controllers/collections.controller.ts:81-104 | a non-empty collection is 409 with nothing changed; an empty one is deleted with 200; an unknown uuid is 500 with nothing changed; the image table is never touched |
| CollectionsController.AddResponse | api/src/controllers/collections.controller.ts:117-121 | 200 "Images added to collection" iff resolved, 500 "Failed to update relationship" iff thrown |
| CollectionsController.AddToCollection | api/src/controllers/collections.controller.ts:109-123 | the uuids of `data` are forwarded in order, and the answer is `AddResponse` |
| CollectionsController.AddAnswers | api/src/controllers/collections.controller.ts:109-123 | 200 iff every id names an image; a 500 does not undo the links already made |
| CollectionsController.ParamId | api/src/controllers/collections.controller.ts:130 | `req.params.id` is present iff the route declares `:id` |
| CollectionsController.DeleteFromCollection | api/src/controllers/collections.controller.ts:128-142 | as written, the collection argument is `req.params.id` of a `/:uuid` route, so the unlink is not scoped to the collection; the answer is 200 |
| CollectionsController.UnlinksForeignImage | api/src/routes/collections.routes.ts:227-230 | a listed image of another collection loses its link |
| CollectionsController.DeleteFromCollectionCorrected | api/src/controllers/collections.controller.ts:130-136 | with `req.params.uuid` the unlink is scoped to the route's collection |
| CollectionsController.CorrectedUnlinksOnlyOwn | api/src/controllers/collections.controller.ts:130-136 | rows of other collections are untouched; a row of this collection is unlinked iff it is listed |
| Pipeline.WorkerHandlesTask | worker/src/imageResize.ts:105-113 | the task the API published, for an upload that can be resized, stores the thumbnail and publishes one success report, changing no table |
| Pipeline.ConsumerHandlesSuccess | api/src/services/kafka.service.ts:138-143 | a success report for a missing row is logged as P2025 with nothing changed; for a present row it is applied and removes the upload |
| Pipeline.RunTaskOutcome | api/src/services/kafka.service.ts:88-95 | a processable published task stores the thumbnail; its report is applied iff the row already exists |
| Pipeline.RaceLosesCompletion | api/src/services/image.service.ts:79-93 | as written, a worker that finishes before the insert loses its completion: P2025 is logged, the row stays pending for good, and the upload is never removed |
| Pipeline.PublishBeforeInsertExposed | api/src/services/image.service.ts:79-83 | the state between publish and insert has a task with no row |
| Pipeline.CreateProcessingTaskCorrected | api/src/services/image.service.ts:76-98 | insert first, publish after, as `CreateTaskCorrectedStep` says |
| Pipeline.CorrectedPublishes | api/src/services/image.service.ts:76-98 | with a free uuid and a delivering broker, the row is appended and then the task is published |
| Pipeline.RaceCompletes | api/src/services/image.service.ts:76-98 | with the corrected order the same schedule ends "succeeded" at the consumer's time, with the upload removed |
| Pipeline.CorrectedKeepsTasksHaveRows | api/src/services/image.service.ts:76-98 | every published task has a row; Ok iff the uuid was free and the publish succeeded; a taken uuid publishes nothing |
| Pipeline.WorkerKeepsTasksHaveRows | worker/src/imageResize.ts:94-119 | the worker keeps every task backed by a row |
| Pipeline.CompletionFrame | api/src/services/kafka.service.ts:88-95 | handleCompletion publishes no task and keeps every uuid |
| Pipeline.ConsumerKeepsTasksHaveRows | api/src/services/kafka.service.ts:137-149 | the consumer keeps every task backed by a row |
| Pipeline.GuardedTerminalStable | api/src/services/kafka.service.ts:75-91 | with a status guard, a finished row is final: no report changes any store |
| Pipeline.GuardedAgreesOnPending | api/src/services/kafka.service.ts:75-91 | on a pending row the guard does exactly what handleCompletion does |
| Pipeline.GuardedReplayKeepsTime | api/src/services/kafka.service.ts:75-80 | with the guard, replaying a success keeps the first completion time |

## Left out

- Client setup for Kafka, MinIO and Prisma, and the producer's reconnect handler: these are library plumbing and an event callback, and they are not part of this model.
- `initializeKafkaSystem`'s connect and subscribe calls are left out as I/O. Only its `eachMessage` handler is modelled (`KafkaService.CompletionEachMessage`).
- Consumer groups, partitioning, offsets and redelivery belong to the broker. A redelivery can be expressed by repeating a message in the input sequence.
- The sharp resize is an oracle `transform` over bytes.
- Real time: the waits are computed and returned as `delays` instead of slept. `Date.now()` is a `now` parameter, and the log lines are dropped.
- `Promise.all` is modelled as a sequential fold in the listing order. The real calls run concurrently, and a rejected `Promise.all` does not wait for the updates still in flight. The model lets every update run.
- zod's UUID regex is modelled as an 8-4-4-4-12 hexadecimal shape. `z.coerce.number`, `parseInt` and floating-point numbers are left out: page, limit and all JSON numbers are integers.
- Lower: `Strings.Lower` lower-cases ASCII letters only, both in the search filter and in the extension check of the file filter. JavaScript's `toLowerCase` folds all of Unicode and can change the length (`"İ"` becomes two code units), so `Upload.ExtNameLower` and `Upload.ExtensionCheckIgnoresCase` are proved for this folding only.
- Parse: `Json.Parse` refuses the escape of a lone surrogate (`\ud800` without a low surrogate after it), because a Dafny string holds Unicode scalar values only. `JSON.parse` accepts it. A surrogate pair is decoded to its one character.
- Elapsed: `ImageResize.Elapsed` reads numeric text as an integer literal (decimal with an optional sign, `0x`, `0o` or `0b`). Text with a fraction or an exponent, and `Infinity`, give `null` here, whereas JavaScript subtracts the floating-point value.
- ProcessWrites: `ImagesController.ProcessWrites` lists the writes the handler attempts. Express's refusal of a second write on a sent response (it throws ERR_HTTP_HEADERS_SENT) is not modelled.
- ViewJson: `ImagesController.ViewJson` and `CollectionsController.ViewJson` write the Date columns (createdAt, completedAt, updatedAt) as epoch-millisecond numbers. `res.json` writes a Date as its ISO 8601 text, so the real JSON carries the same instant as a string.
- The Express wiring is left out as wiring: routes (apart from the `:uuid` parameter of the relationship route), Swagger, `validate.ts`, app and server start-up.
- `getPresignedUploadUrl` and the `getImages` handler are outside this model's core. Of the presigned flow only the DTO is modelled.
- `uuidv4()` is a fresh-uuid parameter.
- The `select` projection in `getCollectionById` is left out: the model's image views carry the whole row.
- `CollectionService.DeleteCollection`: the schema is not part of this model. The model assumes Prisma's default for an optional relation, `onDelete: SetNull`, so deleting a collection unlinks its images.
- Sorting is only by `createdAt`. The `updatedAt` sort key of collections is accepted by `CollectionDto.ParseSortKey`, but no operation in the core sorts collections.
- Prisma's own failures (connection loss, timeouts) are not modelled. So `RemoveImageFromCollection` never throws, and the 500 answers of `getCollections` and `deleteFromCollection` come only from the inputs that model an unusable filter.
- `CollectionsController.DeleteFromCollection` always answers 200, because the model's `updateMany` cannot throw.
- `ImageResize.WorkerRunBounds`: states bounds on the completion topic, not its exact contents. The exact contents per message are stated by `ResizeSendsOnce` and `ResizeMessage`.

## Findings

| source | as written | input that shows it | evidently intended | confidence | as-written member | corrected member |
|---|---|---|---|---|---|---|
| api/src/services/image.service.ts:24-127 | the read side looks for status "completed", but handleCompletion writes "succeeded" (api/src/services/kafka.service.ts:78); the end-to-end tests expect "completed", so the writer may be the side at fault | any image whose completion succeeded: getImageById returns it without imageData, and getImages returns an empty list | one status name on both sides; the correction looks for "succeeded", as collection.service.ts:180 does | high that the two sides disagree; not executed | ImageService.CompletedNeverReached | ImageService.CorrectedAttachesAfterCompletion |
| api/src/services/image.service.ts:79-93 | the task is published before the row is inserted | a worker that reports before the insert: the consumer's update throws P2025, the row stays "pending" for good, and the upload is never removed | insert the row, then publish | medium (depends on timing); not executed | Pipeline.RaceLosesCompletion | Pipeline.RaceCompletes |
| api/src/services/kafka.service.ts:75-91 | the status is set from the message alone, with no look at the row's current status | a success message for a row already "failed" turns it "succeeded"; a replayed success moves completedAt | apply a completion only to a pending row | medium; not executed | KafkaService.NoTerminalGuard | Pipeline.GuardedTerminalStable |
| api/src/controllers/collections.controller.ts:130 | the collection id is read from `req.params.id`, but the route declares `:uuid` (api/src/routes/collections.routes.ts:227) | DELETE /collections/A/relationships/images listing an image of collection B unlinks it from B | read `req.params.uuid` | high; not executed | CollectionsController.UnlinksForeignImage | CollectionsController.CorrectedUnlinksOnlyOwn |
| api/src/controllers/images.controller.ts:17-24 | after writing 404 for ImageNotFoundError there is no return, so the handler goes on to write 500 on a response already sent, which Express refuses with ERR_HTTP_HEADERS_SENT | createProcessingTask rejecting with an Error named ImageNotFoundError; nothing in this core throws one, so only code outside it can reach the path | return after the 404 | medium (the error is never thrown here); not executed | ImagesController.DoubleWrite | ImagesController.ProcessWritesCorrected |
| api/src/controllers/images.controller.ts:126 | `size <= MIN_FILE_SIZE` with MIN_FILE_SIZE = 1 "1 byte minimum" (api/src/utils/upload.ts:7) | a valid one-byte image is answered 400 "File is empty" | `size < MIN_FILE_SIZE` | medium; not executed | ImagesController.OneByteRejected | ImagesController.CorrectedAdmitsOneByte |

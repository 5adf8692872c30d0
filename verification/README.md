# PLONER livestock registry integration, modelled in Dafny

PLONER is a farm-management backend (NestJS with a Prisma database). It
keeps a farm's herd in step with the Polish livestock registry IRZ+ (run by
ARiMR) and files the registry's reports. This project models the
integration core as pure functions over immutable data and proves what the
code promises.

The modelled parts are:

- **RegistryClient** and **RegistryNormalizer**: the IRZ+ HTTP client.
  - It rewrites endpoint paths for the production or test mode.
  - Its retry loop retries 5xx responses with exponential back-off, fails
    at once on 401 and never retries other errors.
  - It normalises registry records (animals, horses, poultry events,
    animal details) into the application's unified records. This includes
    the case-insensitive species and gender dictionaries.
- **Auth**: the per-user SSO token cache with a 60-second safety margin.
- **Sync**: the BullMQ animal-sync job. It covers the password decoding
  (base64 over UTF-8, see **Base64** and **Utf8**), the three category
  fetches, the upsert keyed by farm and ear tag, the progress trace and the
  sync-log row.
- **Animals**: the animal listing with its filters and pagination, the
  lookup by key, and the bulk upsert transaction.
- **Documents**: the draft death, birth and transfer reports; submission at
  most once; PDF generation and file naming.
- **Pdf**: the report layouts, the PDF string escaping with Polish letters
  folded to ASCII, and the content stream. Each report's list of lines is
  the same list the code writes out, built from a farm block, an animal
  block and a closing block that the reports share.
- **Submit**: the death-report payload for IRZ+ with the registry's codes.
- **Dashboard**: the counters, the recent-activity feed and the reminders.
- **Text**: JavaScript's `||` on optional strings, case mapping, first-match
  `String.replace` and number formatting.
- **Domain**: the enumerations.

Database rows are maps keyed the way the code looks them up. The clock, the
HTTP replies, the SSO replies and generated ids are parameters.

## Model

| member | source | states |
|---|---|---|
| Text.LowerForgetsCase | apps/api/src/modules/irz/irz.service.ts:856 | lower-casing is idempotent and forgets any earlier upper-casing |
| Text.UpperForgetsCase | apps/api/src/modules/irz/irz.service.ts:921 | upper-casing is idempotent and forgets any earlier lower-casing |
| Text.FoldStripsDiacritics | apps/api/src/modules/documents/pdf.service.ts:224-231 | a folded string holds no Polish letter, differs from its input exactly at the Polish letters, and folding it again changes nothing |
| Text.FoldCharSpec | apps/api/src/modules/documents/pdf.service.ts:224-231 | exactly the 18 Polish letters change, each into an ASCII letter; folding is idempotent |
| Text.IndexOf | apps/api/src/modules/irz/irz.service.ts:382 | the first occurrence of a pattern, or none exactly when it does not occur |
| Text.ReplaceFirst | apps/api/src/modules/irz/irz.service.ts:382 | `replace` with a string pattern rewrites only the first occurrence and leaves a string without one alone |
| Text.ReplaceFirstChanges | apps/api/src/modules/irz/irz.service.ts:382 | replacing an occurring segment by a different one of the same length changes the string |
| Text.ReplaceFirstTwiceIff | apps/api/src/modules/irz/irz.service.ts:382 | a second replacement is a no-op exactly when the first removed the last occurrence |
| Text.NatToString | apps/api/src/modules/dashboard/dashboard.service.ts:156 | a number prints as a non-empty digit string with no leading zero |
| Text.NatToStringValue | apps/api/src/modules/dashboard/dashboard.service.ts:156 | the printed digits read back as the number |
| Text.IntToString | apps/api/src/modules/irz/irz.service.ts:963 | `String(n)`: decimal digits reading back as `n`, or a leading minus and digits reading back as `-n` for a negative number |
| Text.Split | apps/api/src/modules/documents/pdf.service.ts:177 | splitting yields at least one piece and no piece contains the separator |
| Text.SplitJoin | apps/api/src/modules/documents/pdf.service.ts:173-177 | joining lines with a separator they do not contain and splitting again gives the lines back |
| Domain.ParseSpecies | apps/api/src/modules/animals/animals.service.ts:15 | a species string names exactly one enumeration value or none |
| Domain.ParseSpeciesName | apps/api/src/modules/animals/animals.service.ts:81 | every species' name parses back to that species |
| Utf8.EncodeChar | apps/api/src/modules/sync/sync-animals.processor.ts:171 | a character encodes into one to four bytes, all but the first continuation bytes |
| Utf8.DecodeFirst | apps/api/src/modules/sync/sync-animals.processor.ts:171 | a decoded character consumes one to four bytes of the input |
| Utf8.DecodeFirstEncodeChar | apps/api/src/modules/sync/sync-animals.processor.ts:171 | the encoding of a character, followed by anything, decodes to that character and its length |
| Utf8.EncodeCharDecodeFirst | apps/api/src/modules/sync/sync-animals.processor.ts:171 | a character that decodes re-encodes to exactly the bytes it was read from |
| Utf8.DecodeEncode | apps/api/src/modules/sync/sync-animals.processor.ts:171 | strict UTF-8 decoding inverts encoding |
| Utf8.EncodeDecode | apps/api/src/modules/sync/sync-animals.processor.ts:171 | every byte string that decodes is the encoding of its decoding |
| Base64.SymbolBijective | apps/api/src/modules/sync/sync-animals.processor.ts:171 | the 64 alphabet symbols and their values are inverse; no value is written as padding |
| Base64.Encode | apps/api/src/modules/sync/sync-animals.processor.ts:171 | the encoding comes in whole groups of four |
| Base64.EncodeLength | apps/api/src/modules/sync/sync-animals.processor.ts:171 | each started group of three bytes takes four symbols |
| Base64.DecodeQuad | apps/api/src/modules/sync/sync-animals.processor.ts:171 | a group decodes into one to three bytes, and into exactly three unless it is the last |
| Base64.QuadRoundTrip | apps/api/src/modules/sync/sync-animals.processor.ts:171 | three bytes survive a group's encoding and decoding |
| Base64.Quad1RoundTrip | apps/api/src/modules/sync/sync-animals.processor.ts:171 | one trailing byte survives its padded group |
| Base64.Quad2RoundTrip | apps/api/src/modules/sync/sync-animals.processor.ts:171 | two trailing bytes survive their padded group |
| Base64.DecodeEncode | apps/api/src/modules/sync/sync-animals.processor.ts:171 | strict base64 decoding inverts encoding |
| Base64.QuadCanonical | apps/api/src/modules/sync/sync-animals.processor.ts:171 | a group that decodes is the canonical encoding of its bytes |
| Base64.EncodeDecode | apps/api/src/modules/sync/sync-animals.processor.ts:171 | every string that decodes is the encoding of its decoding |
| RegistryClient.ModeOf | apps/api/src/modules/documents/irz-submit.service.ts:27 | production mode exactly when `NODE_ENV` is `production`; test mode otherwise |
| RegistryClient.EndpointPath | apps/api/src/modules/irz/irz.service.ts:380-383 | the path is the other mode's segment rewritten to this mode's, first occurrence only; a path with no mode segment is unchanged |
| RegistryClient.EndpointPathIdempotentIff | apps/api/src/modules/irz/irz.service.ts:380-383 | rewriting again is a no-op exactly when the rewritten path holds no segment of the other mode |
| RegistryClient.RepeatedSegmentNotIdempotent | apps/api/src/modules/irz/irz.service.ts:380-383 | `/prod/prod/` in test mode becomes `/test/prod/` and then `/test/test/`: the rewrite is not idempotent |
| RegistryClient.FirstOfTwoSegmentsRewritten | apps/api/src/modules/irz/irz.service.ts:382 | of two production segments only the first is rewritten |
| RegistryClient.SecondOfTwoSegmentsRewritten | apps/api/src/modules/irz/irz.service.ts:382 | a remaining production segment is rewritten by the next call |
| RegistryClient.Pow2 | apps/api/src/modules/irz/irz.service.ts:812 | the back-off factor `2^attempt` is at least one |
| RegistryClient.Settle | apps/api/src/modules/irz/irz.service.ts:801-819 | an attempt that is not retried succeeds exactly on a response, and fails with the token-expired error exactly on a 401 |
| RegistryClient.RetryFrom | apps/api/src/modules/irz/irz.service.ts:795-822 | past the last attempt the fetch fails with the limit error after no request; otherwise it stops at the first success or non-5xx failure and sleeps `2^attempt` seconds before each retry |
| RegistryClient.FetchWithRetry | apps/api/src/modules/irz/irz.service.ts:786-823 | at most `retries` requests are sent; with at least one attempt allowed the limit error is never reached |
| RegistryClient.UnauthorizedFailsImmediately | apps/api/src/modules/irz/irz.service.ts:805-808 | a 401 on the first attempt fails with the token-expired error after one request and no sleep |
| RegistryClient.SuccessAfterServerErrors | apps/api/src/modules/irz/irz.service.ts:801-816 | after k server errors a success is returned on attempt k+1 |
| RegistryClient.ServerErrorsExhaustAttempts | apps/api/src/modules/irz/irz.service.ts:811-819 | three server errors in a row send three requests, sleep 2 s and 4 s, and fail with the last error's message |
| RegistryClient.ClientErrorNotRetried | apps/api/src/modules/irz/irz.service.ts:818-819 | a client error other than 401 fails at once with its message |
| RegistryClient.MapFetched | apps/api/src/modules/irz/irz.service.ts:799-800 | post-processing a fetch keeps its attempts, sleeps and error, and maps only the success |
| RegistryNormalizer.MapSpeciesRecognises | apps/api/src/modules/irz/irz.service.ts:839-858 | a species other than cattle comes out exactly for its own dictionary names; anything else is cattle |
| RegistryNormalizer.MapSpeciesIgnoresCase | apps/api/src/modules/irz/irz.service.ts:856 | the species of a name does not depend on its case |
| RegistryNormalizer.MapSpeciesMissingIsCattle | apps/api/src/modules/irz/irz.service.ts:856-857 | a missing or empty species name is cattle |
| RegistryNormalizer.FoldedNames | apps/api/src/modules/irz/irz.service.ts:841-853 | the Polish spellings in the dictionary fold to its ASCII spellings |
| RegistryNormalizer.AsciiNamesFixed | apps/api/src/modules/irz/irz.service.ts:841-853 | the ASCII spellings are their own folding |
| RegistryNormalizer.SpeciesNamesFoldClosed | apps/api/src/modules/irz/irz.service.ts:841-853 | every name with Polish letters has its ASCII spelling in the dictionary, with the same species |
| RegistryNormalizer.SpeciesCodesBijective | apps/api/src/modules/irz/irz.service.ts:910-922 | the code dictionary names every species exactly once; `ko` in any case is a horse |
| RegistryNormalizer.MapSpeciesFromCodeIgnoresCase | apps/api/src/modules/irz/irz.service.ts:921 | the species of a code does not depend on its case; a missing code is cattle |
| RegistryNormalizer.MapGenderSpec | apps/api/src/modules/irz/irz.service.ts:860-872 | male exactly when the lower-cased word or code is on the male list; a missing value is female |
| RegistryNormalizer.MapGenderIgnoresCase | apps/api/src/modules/irz/irz.service.ts:860-872 | the gender does not depend on the case of the word or code |
| RegistryNormalizer.NormalizeAnimal | apps/api/src/modules/irz/irz.service.ts:825-837 | the ear tag (the first non-empty of the two numbers, else empty) is also the registry id; species and gender are mapped; empty optional fields become null |
| RegistryNormalizer.SelectAnimals | apps/api/src/modules/irz/irz.service.ts:799-800 | the `dane` list whenever present, even empty; otherwise `listaZwierzat`; otherwise nothing |
| RegistryNormalizer.NormalizeAnimals | apps/api/src/modules/irz/irz.service.ts:800 | the list is normalised element by element, keeping order and length |
| RegistryNormalizer.NormalizeAnimalsPayload | apps/api/src/modules/irz/irz.service.ts:799-800 | a response becomes the normalised selected list |
| RegistryNormalizer.CurrentTransponder | apps/api/src/modules/irz/irz.service.ts:957-959 | the first transponder entry without an end date, or none when every entry has one |
| RegistryNormalizer.HorseIrzId | apps/api/src/modules/irz/irz.service.ts:963 | the printed horse id when it is present and non-zero, otherwise the UELN |
| RegistryNormalizer.NormalizeHorse | apps/api/src/modules/irz/irz.service.ts:952-983 | a horse's ear tag is its UELN; species is horse; gender comes from the code; the history's current transponder is preferred over the details' one; with details, breed, mother, father, father's name, castration date and breed type are their values or null when empty; without details they are null and the horse is not castrated; the country of origin is the horse's own, else the details' country of birth, else null; the coat is the description or null |
| RegistryNormalizer.NormalizeHorses | apps/api/src/modules/irz/irz.service.ts:725 | horses are normalised element by element |
| RegistryNormalizer.NormalizeHorsesPayload | apps/api/src/modules/irz/irz.service.ts:724-725 | a missing horse list is empty; otherwise each horse is normalised |
| RegistryNormalizer.NormalizeErrors | apps/api/src/modules/irz/irz.service.ts:942-945 | each error entry gets a code and message, empty when missing |
| RegistryNormalizer.PoultryEventId | apps/api/src/modules/irz/irz.service.ts:929 | the uuid when non-empty, else the printed non-zero ordinal, else empty |
| RegistryNormalizer.NormalizePoultryEvent | apps/api/src/modules/irz/irz.service.ts:927-947 | the id is the uuid, else the number; counts default to 0 and codes to empty; the species, type and status descriptions, the date and both activity numbers are their values or null when empty; the error list is normalised entry by entry |
| RegistryNormalizer.NormalizePoultryEvents | apps/api/src/modules/irz/irz.service.ts:610 | poultry events are normalised element by element |
| RegistryNormalizer.NormalizePoultryPayload | apps/api/src/modules/irz/irz.service.ts:609-610 | a missing event list is empty; otherwise each event is normalised |
| RegistryNormalizer.NormalizeIndividualAnimal | apps/api/src/modules/irz/irz.service.ts:877-905 | the identification number is both ear tag and id; species and gender come from dictionary codes; there is never a mother tag; the species code defaults to empty; every other text field (birth date, breed, species, gender and breed codes and names, deregistration date, activity number, marking method, DDS statement) is its value or null when empty; a weight is present exactly when non-zero, and is then the registry's |
| RegistryNormalizer.AnimalDetailsResult | apps/api/src/modules/irz/irz.service.ts:413-433 | null exactly on a 404 or a record without a number; a returned record has a non-empty ear tag; other errors carry the prefixed message |
| RegistryNormalizer.FetchAnimals | apps/api/src/modules/irz/irz.service.ts:389-398 | one to three requests; success exactly when the last attempt got a response, whose selected list is normalised; otherwise that attempt's error |
| RegistryNormalizer.FetchHorses | apps/api/src/modules/irz/irz.service.ts:711-748 | the same retry outcome, with the horse list normalised |
| RegistryNormalizer.FetchHorseEvents | apps/api/src/modules/irz/irz.service.ts:750-784 | the same retry outcome, with the horse events passed through |
| RegistryNormalizer.FetchPoultryEvents | apps/api/src/modules/irz/irz.service.ts:596-636 | the same retry outcome, with the poultry events normalised |
| RegistryNormalizer.MapSpeciesAsWrittenLeaksPrototype | apps/api/src/modules/irz/irz.service.ts:856-857 | as written, the name `Constructor` reads the inherited `constructor` member, which is no species name |
| RegistryNormalizer.ConstructorInherited | apps/api/src/modules/irz/irz.service.ts:840-857 | the dictionary object has no own `constructor` key, so the lookup falls through to the prototype |
| RegistryNormalizer.SpeciesNameTableSpec | apps/api/src/modules/irz/irz.service.ts:840-854 | the object literal's own keys are the dictionary's names, each holding that species' non-empty name |
| RegistryNormalizer.MapSpeciesAsWrittenAgrees | apps/api/src/modules/irz/irz.service.ts:839-858 | away from inherited member names, the code as written returns the corrected mapping's species |
| Auth.FetchNewToken | apps/api/src/modules/irz/irz-auth.service.ts:41-70 | a grant is cached until `now + expires_in` seconds and returned; a refusal leaves the cache and fails with the SSO's description, or the default message |
| Auth.GetToken | apps/api/src/modules/irz/irz-auth.service.ts:30-39 | the SSO is asked exactly when the cached token expires within 60 s; a fresh token is returned unchanged; other users' entries are untouched |
| Auth.ClearToken | apps/api/src/modules/irz/irz-auth.service.ts:72-74 | the user's entry is removed and no other changes |
| Auth.CachedTokenIgnoresCredentials | apps/api/src/modules/irz/irz-auth.service.ts:34-36 | while a token is fresh the password and the SSO are never consulted |
| Auth.GrantedTokenReusedIff | apps/api/src/modules/irz/irz-auth.service.ts:34-60 | a granted token is reused at a later time exactly while that time is more than 60 s before its expiry |
| Auth.GrantedTokenReusedAtOnce | apps/api/src/modules/irz/irz-auth.service.ts:34-60 | a token granted for longer than 60 s is reused by an immediate second request |
| Auth.ClearedTokenRefetched | apps/api/src/modules/irz/irz-auth.service.ts:72-74 | after clearing, the next request asks the SSO |
| Auth.ShortLivedTokenNeverReused | apps/api/src/modules/irz/irz-auth.service.ts:34 | a token granted for at most 60 s is never served from the cache |
| Sync.UpsertAnimal | apps/api/src/modules/sync/sync-animals.processor.ts:126-145 | the key holds the record's id and breed stamped now; an existing row keeps its identity fields; a new row is ACTIVE with the record's fields; other keys are untouched |
| Sync.UpsertAnimals | apps/api/src/modules/sync/sync-animals.processor.ts:120-150 | the count is the number of records with an ear tag |
| Sync.UpsertFrame | apps/api/src/modules/sync/sync-animals.processor.ts:120-150 | the sync writes exactly the keys of the tagged records and stamps each with the sync time |
| Sync.UpsertKeepsIdentity | apps/api/src/modules/sync/sync-animals.processor.ts:140-144 | a row already present keeps species, gender, birth date, mother and status |
| Sync.UpsertLastRecordWins | apps/api/src/modules/sync/sync-animals.processor.ts:123-147 | with repeated ear tags, the last record's id and breed are stored |
| Sync.UpsertFirstRecordCreates | apps/api/src/modules/sync/sync-animals.processor.ts:128-139 | a new animal takes its identity from the first record with its ear tag |
| Sync.UpdateSyncStatus | apps/api/src/modules/sync/sync-animals.processor.ts:152-167 | the log row records status and count; a given message is recorded and a missing one leaves the stored message; the row has a completion time, the given time, exactly when not in progress |
| Sync.EncodePassword | apps/api/src/modules/sync/sync-animals.processor.ts:169-172 | a stored password is base64 text in whole groups |
| Sync.PasswordRoundTrip | apps/api/src/modules/sync/sync-animals.processor.ts:169-172 | decoding inverts the encoding, and a decoded password's encoding is the stored text |
| Sync.HorseAnimals | apps/api/src/modules/sync/sync-animals.processor.ts:84 | horses join the list as their unified records |
| Sync.Process | apps/api/src/modules/sync/sync-animals.processor.ts:26-149 | success exactly when the farm exists with login and password and no upsert is rejected; then the count, the full progress trace, the completed log and farm, and the upserted table; a missing farm or login fails at progress 10 with the table untouched; a rejected upsert fails with the database's message at progress 80, keeping the rows written before it |
| Sync.FirstRejected | apps/api/src/modules/sync/sync-animals.processor.ts:123-147 | the first tagged record whose birth date cannot be parsed, with every earlier one accepted, or none |
| Sync.RejectedWriteKeepsEarlierRows | apps/api/src/modules/sync/sync-animals.processor.ts:123-147 | after a rejected upsert, the rows of the earlier records are written and stamped and nothing else changed |
| Sync.Fail | apps/api/src/modules/sync/sync-animals.processor.ts:106-117 | a failed job logs FAILED with zero animals and its message and leaves the table alone |
| Sync.ProgressIncreasing | apps/api/src/modules/sync/sync-animals.processor.ts:32-102 | reported progress strictly increases |
| Sync.FailedCategoryActsAsEmpty | apps/api/src/modules/sync/sync-animals.processor.ts:50-88 | a category whose fetch fails ends the job exactly as an empty category would |
| Animals.ParseStatus | apps/api/src/modules/animals/animals.service.ts:16 | a status string names exactly one status or none |
| Animals.BuildWhere | apps/api/src/modules/animals/animals.service.ts:13-23 | the filter is built exactly when a given species and a given status are both valid values; species, status and search filters appear exactly when given non-empty, and name the given values |
| Animals.Select | apps/api/src/modules/animals/animals.service.ts:26-32 | every selected row matches and comes from the table, and every matching row is selected |
| Animals.SelectAppend | apps/api/src/modules/animals/animals.service.ts:26-32 | selecting from two tables in turn is selecting from their concatenation, so the selection keeps the table order |
| Animals.SelectCounts | apps/api/src/modules/animals/animals.service.ts:26-32 | a matching row is selected exactly as often as it occurs in the table; any other row never is |
| Animals.CeilDiv | apps/api/src/modules/animals/animals.service.ts:40 | `Math.ceil(total / pageSize)`: the fewest pages that hold every row |
| Animals.PageOf | apps/api/src/modules/animals/animals.service.ts:28-29 | a page holds at most `pageSize` rows, the slice from `(page-1)*pageSize`, and is empty past the end |
| Animals.FirstPagesPrefix | apps/api/src/modules/animals/animals.service.ts:28-29 | the first n pages together are the prefix of the rows they span |
| Animals.FindByFarm | apps/api/src/modules/animals/animals.service.ts:10-42 | the page requested (1 and 20 by default) of the matching rows, their total and the page count; every item matches and belongs to the farm |
| Animals.PagesCover | apps/api/src/modules/animals/animals.service.ts:40 | a page is non-empty exactly up to `totalPages`, and those pages list every matching row in order |
| Animals.PagesDisjoint | apps/api/src/modules/animals/animals.service.ts:28-29 | a page ends before every later page starts, so no row position is on two pages |
| Animals.FindOne | apps/api/src/modules/animals/animals.service.ts:44-71 | the animal when present, otherwise the not-found error |
| Animals.UpsertOne | apps/api/src/modules/animals/animals.service.ts:75-93 | an existing row gets its registry id, its breed when given, and the sync time; a new row gets every field; other keys are untouched |
| Animals.SyncFromIrz | apps/api/src/modules/animals/animals.service.ts:73-97 | the transaction commits exactly when no record has an invalid species or an unparseable birth date, and then holds every upsert; otherwise nothing is written and the first rejected record's error is raised |
| Animals.FirstRejected | apps/api/src/modules/animals/animals.service.ts:73-97 | the first record the database rejects, with every earlier one accepted, or none when all are accepted |
| Animals.SyncFromIrzFrame | apps/api/src/modules/animals/animals.service.ts:73-97 | a committed transaction writes exactly its records' keys, each with an id and the sync time |
| Animals.SyncFromIrzKeepsExisting | apps/api/src/modules/animals/animals.service.ts:88-92 | existing rows keep their identity, and keep their breed when no record gives one |
| Documents.FindOne | apps/api/src/modules/documents/documents.service.ts:25-35 | the document when present, otherwise the not-found error |
| Documents.SubmitToIrz | apps/api/src/modules/documents/documents.service.ts:87-138 | only a DRAFT or ERROR document is sent; success marks it SUBMITTED with number and time; failure marks it ERROR with the message; nothing else changes |
| Documents.SubmittedOnce | apps/api/src/modules/documents/documents.service.ts:90-92 | after a successful submission every later one is refused and changes nothing |
| Documents.FailedSubmissionRetryable | apps/api/src/modules/documents/documents.service.ts:127-134 | after a failed submission the next one succeeds exactly when its outcome does |
| Documents.SubmitKeepsConsistent | apps/api/src/modules/documents/documents.service.ts:87-138 | submission keeps every document's farm and animal references valid |
| Documents.OptionalField | apps/api/src/modules/documents/documents.service.ts:49 | an optional form field is stored exactly when it has a value |
| Documents.DeathFormFields | apps/api/src/modules/documents/documents.service.ts:45-56 | the death form records the animal's tag, species and breed, the cause, the method, the farm's numbers, and the place with GOSPODARSTWO as default |
| Documents.CreateDeathReport | apps/api/src/modules/documents/documents.service.ts:37-85 | succeeds exactly when the animal exists: a new DRAFT death report for it and the animal DECEASED, nothing else changed |
| Documents.DeathReportWithoutPlace | apps/api/src/modules/documents/documents.service.ts:52 | a report filed without a place prints "Miejsce: Gospodarstwo" |
| Documents.MotherTag | apps/api/src/modules/documents/documents.service.ts:186-199 | the given mother tag, else the tag of the mother found by key, else none |
| Documents.BirthDescription | apps/api/src/modules/documents/documents.service.ts:237 | the birth event names the mother's tag, or "nieznana" |
| Documents.CreateBirthReport | apps/api/src/modules/documents/documents.service.ts:169-259 | fails if the farm is missing or the ear tag is used on any farm; otherwise adds the ACTIVE calf, a DRAFT birth report and the birth event |
| Documents.TransferEvent | apps/api/src/modules/documents/documents.service.ts:297-306 | an OUT transfer is a TRANSFER_OUT event "Wydanie do: …", an IN one TRANSFER_IN "Przyjęcie z: …", the farm name defaulting to "brak nazwy" |
| Documents.CreateTransferReport | apps/api/src/modules/documents/documents.service.ts:261-327 | succeeds exactly when the animal exists: a DRAFT transfer report and its event; the animal becomes SOLD exactly on OUT |
| Documents.TransferFormFields | apps/api/src/modules/documents/documents.service.ts:269-283 | the transfer form records the direction and the other farm's numbers |
| Documents.TransferFormOptionalFields | apps/api/src/modules/documents/documents.service.ts:278-280 | the other farm's name, the reason and the transport document are stored only when given |
| Documents.TransferReportHeading | apps/api/src/modules/documents/pdf.service.ts:140 | the other-farm heading names the destination for OUT and the source for IN |
| Documents.PrinterFor | apps/api/src/modules/documents/documents.service.ts:153-164 | death, birth and transfer reports, and only these, have a printer |
| Documents.GeneratePdf | apps/api/src/modules/documents/documents.service.ts:140-167 | a missing document or a type without a printer is an error; otherwise the file is named after the ear tag, or the document id when there is none |
| Documents.DeathReportPrintable | apps/api/src/modules/documents/documents.service.ts:153-155 | a newly filed death report prints as `zgloszenie_padniecia_<ear tag>.pdf` |
| Pdf.EscapeChar | apps/api/src/modules/documents/pdf.service.ts:219-233 | a backslash or parenthesis is prefixed with a backslash; any other character is folded and is not special afterwards |
| Pdf.Escape | apps/api/src/modules/documents/pdf.service.ts:219-233 | escaping adds one character per special character |
| Pdf.EscapePassesPerChar | apps/api/src/modules/documents/pdf.service.ts:220-232 | the four replace passes together equal escaping each character on its own |
| Pdf.PassesOneChar | apps/api/src/modules/documents/pdf.service.ts:220-232 | on one character the passes give that character's escape |
| Pdf.UnescapeEscape | apps/api/src/modules/documents/pdf.service.ts:219-233 | an escaped string reads back as the folded original |
| Pdf.EscapeOfFold | apps/api/src/modules/documents/pdf.service.ts:224-231 | escaping ignores whether Polish letters were folded first |
| Pdf.EscapeSameIff | apps/api/src/modules/documents/pdf.service.ts:219-233 | two strings escape alike exactly when they fold alike |
| Pdf.ContentLine | apps/api/src/modules/documents/pdf.service.ts:173-176 | an empty line is a 10-point gap; any other shows its escaped text 30 points down for the first line, 15 after |
| Pdf.BodyOperators | apps/api/src/modules/documents/pdf.service.ts:173-177 | the content stream splits back into one operator per report line |
| Pdf.NewlineSurvivesEscape | apps/api/src/modules/documents/pdf.service.ts:219-233 | escaping neither adds nor removes line breaks |
| Pdf.LabelSpec | apps/api/src/modules/documents/pdf.service.ts:83 | a code in the table prints as its label; any other value prints as itself |
| Pdf.LabelIdentifiesCode | apps/api/src/modules/documents/pdf.service.ts:56-68 | distinct codes of a table have distinct labels |
| Pdf.SpeciesNamesLabelTable | apps/api/src/modules/documents/pdf.service.ts:20-29 | the species labels are non-empty and distinct |
| Pdf.GenderNamesLabelTable | apps/api/src/modules/documents/pdf.service.ts:31-34 | the gender labels are non-empty and distinct |
| Pdf.DisposalNamesLabelTable | apps/api/src/modules/documents/pdf.service.ts:56-60 | the disposal labels are non-empty and distinct |
| Pdf.DeathCauseNamesLabelTable | apps/api/src/modules/documents/pdf.service.ts:62-68 | the cause labels are non-empty and distinct |
| Pdf.DirectionNamesLabelTable | apps/api/src/modules/documents/pdf.service.ts:131-134 | the direction labels are non-empty and distinct |
| Pdf.DeathReportLines | apps/api/src/modules/documents/pdf.service.ts:73-95 | the death report has 21 lines |
| Pdf.DeathReportFields | apps/api/src/modules/documents/pdf.service.ts:79-94 | the farm name (or a dash), species, breed (or a dash), cause and disposal lines show the form's values through their tables, and the report ends with the signature line |
| Pdf.DeathReportPlace | apps/api/src/modules/documents/pdf.service.ts:89 | the place line prints Gospodarstwo for GOSPODARSTWO and the stored place otherwise |
| Pdf.DeathReportIdentification | apps/api/src/modules/documents/pdf.service.ts:77-92 | the producer, herd and ear-tag lines print the stored values, and the two date lines print the event and creation dates |
| Pdf.BirthReportLines | apps/api/src/modules/documents/pdf.service.ts:104-125 | the birth report has 20 lines |
| Pdf.BirthReportFields | apps/api/src/modules/documents/pdf.service.ts:110-124 | the farm name or a dash; species and gender print through their tables, the breed or a dash; the mother line prints the tag or "nieznany"; the report ends with the signature line |
| Pdf.BirthReportIdentification | apps/api/src/modules/documents/pdf.service.ts:107-122 | the producer, herd and ear-tag lines print the stored values, and the two date lines print the birth and creation dates |
| Pdf.OtherFarmLabel | apps/api/src/modules/documents/pdf.service.ts:140 | the destination heading exactly for OUT, the source heading otherwise |
| Pdf.TransferReportLines | apps/api/src/modules/documents/pdf.service.ts:142-169 | the transfer report has 26 lines |
| Pdf.TransferReportFields | apps/api/src/modules/documents/pdf.service.ts:156-168 | direction, reason, transport document, other-farm heading and name lines show the form's values, and the report ends with the signature line |
| Pdf.TransferReportIdentification | apps/api/src/modules/documents/pdf.service.ts:146-148 | the reporting farm's producer and herd lines print the stored values and its name line the name or a dash |
| Pdf.TransferReportAnimal | apps/api/src/modules/documents/pdf.service.ts:151-153 | the ear-tag line prints the stored tag, the species its label, the breed the breed or a dash |
| Pdf.TransferReportOtherFarm | apps/api/src/modules/documents/pdf.service.ts:157-166 | the other farm's producer and herd lines print the stored values, and the two date lines print the transfer and creation dates |
| Pdf.BuildPdf | apps/api/src/modules/documents/pdf.service.ts:172-216 | the file is the fixed header, the escaped title, the font switch, the drawing operators joined by line breaks, then the fixed trailer, each at its own place |
| Pdf.BuildPdfReadsBack | apps/api/src/modules/documents/pdf.service.ts:172-194 | the title slot of the file unescapes to the folded title, and its content stream splits back into one operator per line, in order |
| Pdf.GenerateReport | apps/api/src/modules/documents/pdf.service.ts:38-51 | each report is a file framed as `buildPdf` frames it, with the kind's title and the kind's lines |
| Pdf.GenerateReportReadsBack | apps/api/src/modules/documents/pdf.service.ts:38-51 | a report reads back as its kind's folded title over one operator per report line |
| Submit.Translate | apps/api/src/modules/documents/irz-submit.service.ts:88 | `mapping[x] \|\| x`: a code with a non-empty translation is translated, anything else passes through |
| Submit.MapDeathCause | apps/api/src/modules/documents/irz-submit.service.ts:80-89 | the five causes get the registry's codes; anything else passes through |
| Submit.MapDisposalMethod | apps/api/src/modules/documents/irz-submit.service.ts:91-98 | the three methods get the registry's codes; anything else passes through |
| Submit.DeathCauseCodesInvertible | apps/api/src/modules/documents/irz-submit.service.ts:81-87 | each registry cause code comes from exactly one cause |
| Submit.DisposalCodesInvertible | apps/api/src/modules/documents/irz-submit.service.ts:92-96 | each registry disposal code comes from exactly one method |
| Submit.MapDeathCauseInjective | apps/api/src/modules/documents/irz-submit.service.ts:80-89 | distinct causes are sent as distinct codes |
| Submit.MapDisposalMethodInjective | apps/api/src/modules/documents/irz-submit.service.ts:91-98 | distinct methods are sent as distinct codes |
| Submit.PassThroughMeetsTranslation | apps/api/src/modules/documents/irz-submit.service.ts:88 | a registry code passed through collides with a translated cause: the mapping is not injective on all strings |
| Submit.DeathReportEndpoint | apps/api/src/modules/documents/irz-submit.service.ts:47-49 | the test endpoint outside production, the production endpoint in it |
| Submit.EndpointsAgreeWithRewriting | apps/api/src/modules/documents/irz-submit.service.ts:47-49 | the two hard-coded endpoints are each other's mode rewriting |
| Submit.BuildPayload | apps/api/src/modules/documents/irz-submit.service.ts:51-57 | the payload carries the form's tag, date and producer and the translated cause and method |
| Submit.SubmitDeathReport | apps/api/src/modules/documents/irz-submit.service.ts:30-78 | a missing document or a failed token request raises; otherwise the request goes to the mode's endpoint with the bearer token, and the reply is the registry's number, a generated `ZPZU-<time>`, or the transport error |
| Submit.FiledReportTranslated | apps/api/src/modules/documents/irz-submit.service.ts:51-57 | a death report filed by the document service is sent with the registry's codes for its cause and method |
| Dashboard.FloorDays | apps/api/src/modules/dashboard/dashboard.service.ts:179 | `Math.floor(x / day)`, also for negative x |
| Dashboard.CeilDays | apps/api/src/modules/dashboard/dashboard.service.ts:149 | `Math.ceil(x / day)`, also for negative x |
| Dashboard.InsertBy | apps/api/src/modules/dashboard/dashboard.service.ts:216 | inserting into a sorted list keeps it sorted and adds exactly the new element |
| Dashboard.SortBy | apps/api/src/modules/dashboard/dashboard.service.ts:216 | sorting yields an ordered permutation of its input |
| Dashboard.BirthDaysLeft | apps/api/src/modules/dashboard/dashboard.service.ts:148-149 | the whole days, rounded up, until seven days after birth |
| Dashboard.BirthMessage | apps/api/src/modules/dashboard/dashboard.service.ts:155-157 | days left while positive, days overdue otherwise |
| Dashboard.BirthReminderFor | apps/api/src/modules/dashboard/dashboard.service.ts:146-164 | a reminder exactly for an animal without a birth report whose days left lie in [-7, 7] |
| Dashboard.BirthReminderWindow | apps/api/src/modules/dashboard/dashboard.service.ts:137-151 | within the 14-day query window the lower bound always holds, so a reminder is due exactly for an unreported animal already born |
| Dashboard.BirthReminders | apps/api/src/modules/dashboard/dashboard.service.ts:132-165 | every birth reminder is within a week either way, and there are at most as many as animals |
| Dashboard.BirthRemindersAppend | apps/api/src/modules/dashboard/dashboard.service.ts:146-165 | the reminders of two lists of animals are those of each list, in order: one slot per animal, in query order |
| Dashboard.BirthRemindersContents | apps/api/src/modules/dashboard/dashboard.service.ts:132-165 | a reminder is listed exactly when some animal the query returns gets it from BirthReminderFor |
| Dashboard.DraftDaysLeft | apps/api/src/modules/dashboard/dashboard.service.ts:179-186 | seven minus the whole days, rounded down, since creation |
| Dashboard.DraftReminder | apps/api/src/modules/dashboard/dashboard.service.ts:181-189 | a draft reminder is due a week after creation and names the days since then |
| Dashboard.DeathReminderAtMostFourDays | apps/api/src/modules/dashboard/dashboard.service.ts:173-186 | a death draft older than three days has at most four days left |
| Dashboard.DeathReminders | apps/api/src/modules/dashboard/dashboard.service.ts:168-190 | every death reminder has at most four days left, and there are at most as many as drafts |
| Dashboard.DeathRemindersAppend | apps/api/src/modules/dashboard/dashboard.service.ts:177-190 | the death reminders of two lists of drafts are those of each list, in order |
| Dashboard.DeathRemindersContents | apps/api/src/modules/dashboard/dashboard.service.ts:168-190 | every death draft older than three days has its reminder, and no other reminder is listed |
| Dashboard.TransferReminders | apps/api/src/modules/dashboard/dashboard.service.ts:193-214 | one transfer reminder per transfer draft |
| Dashboard.TransferRemindersOfDrafts | apps/api/src/modules/dashboard/dashboard.service.ts:193-214 | the i-th transfer reminder is the reminder of the i-th transfer draft |
| Dashboard.Filter | apps/api/src/modules/dashboard/dashboard.service.ts:193-200 | only transfer drafts are selected |
| Dashboard.FilterAppend | apps/api/src/modules/dashboard/dashboard.service.ts:193-200 | filtering keeps the order of the drafts |
| Dashboard.FilterContents | apps/api/src/modules/dashboard/dashboard.service.ts:193-200 | every transfer draft is kept as often as it occurs, and nothing else is |
| Dashboard.GetReminders | apps/api/src/modules/dashboard/dashboard.service.ts:128-217 | all reminders, ordered by days left, exactly once each |
| Dashboard.SyncItem | apps/api/src/modules/dashboard/dashboard.service.ts:86-96 | a completed sync reports its count; any other shows its error or "W trakcie..." |
| Dashboard.TypeLabel | apps/api/src/modules/dashboard/dashboard.service.ts:107-116 | death, birth and transfer reports get their Polish labels; every other type prints its own name |
| Dashboard.DocItem | apps/api/src/modules/dashboard/dashboard.service.ts:113-121 | a document item names its animal's tag, or "Dokument utworzony" |
| Dashboard.Take | apps/api/src/modules/dashboard/dashboard.service.ts:83 | `take: n` keeps the first n rows |
| Dashboard.RecentActivity | apps/api/src/modules/dashboard/dashboard.service.ts:76-126 | at most ten items, newest first, drawn from five sync logs and five documents |
| Dashboard.AllSpeciesListed | apps/api/src/modules/dashboard/dashboard.service.ts:52-64 | the species list used for grouping holds every species |
| Dashboard.GetStats | apps/api/src/modules/dashboard/dashboard.service.ts:48-74 | a species appears in the breakdown exactly when it has active animals, with their count; the totals count active animals, drafts and submitted documents; a missing farm gives null and PENDING |
| Dashboard.SumOverStep | apps/api/src/modules/dashboard/dashboard.service.ts:62-64 | the per-species sum splits animal by animal |
| Dashboard.HitsOnce | apps/api/src/modules/dashboard/dashboard.service.ts:62-64 | an active animal is counted under exactly one species |
| Dashboard.SumOverNone | apps/api/src/modules/dashboard/dashboard.service.ts:62-64 | no animals sum to zero |
| Dashboard.SpeciesCountsAddUp | apps/api/src/modules/dashboard/dashboard.service.ts:49-68 | the per-species counts add up to the active-animal count |

## Left out

- The network, the clock and the database are left out. HTTP replies, SSO replies, `Date.now()` and generated ids are parameters. Prisma queries are selections over maps or sequences.
- Prisma's `orderBy` is left out: the listing and the feed take their rows already ordered.
- Database ids are not modelled. Animals are addressed by their (farm, ear tag) key, which the schema makes unique, and documents by a given id.
- Prisma's `contains` with `mode: 'insensitive'` is modelled with the same case mapping as `toLowerCase`. Database collation and `LIKE` wildcards are not.
- Case mapping covers ASCII and the Polish letters only. Full Unicode case folding is out of scope.
- Sync.PasswordRoundTrip: strings are sequences of Unicode scalar values. A JavaScript string with a lone surrogate is encoded by `Buffer.from` as the replacement character, and Node decodes malformed UTF-8 to replacement characters; neither is modelled, and for such passwords the round trip does not hold.
- JavaScript numbers are modelled as integers. `idKoniowatego`, `lp` and the counts are integral in the registry's data; the two weights of RegistryNormalizer.NormalizeIndividualAnimal may be fractional, and their fractions are not modelled.
- Dates are kept as the registry's text, or as millisecond counts where the code computes with them. Date parsing and formatting are left out; the upserts take the parser as an input.
- Node's lenient base64 decoding is left out. It skips characters outside the alphabet and accepts missing padding. The model decodes strictly and only proves the round trip.
- `toLocaleDateString('pl-PL')` is not modelled. The formatted dates are an input of the report layouts.
- The fixed PDF object table, xref offsets and `/Length 2000` are left out. They are constants that do not depend on the content, and the model keeps only the content stream.
- Pdf.DeathReportLines: only the line count is stated in its contract. Every line that prints data is stated in Pdf.DeathReportFields, Pdf.DeathReportPlace and Pdf.DeathReportIdentification; the fixed heading and blank lines are not restated.
- Pdf.BirthReportLines: only the line count is stated in its contract. Every line that prints data is stated in Pdf.BirthReportFields and Pdf.BirthReportIdentification; the fixed heading and blank lines are not restated.
- Pdf.TransferReportLines: only the line count is stated in its contract. Every line that prints data is stated in Pdf.TransferReportFields, Pdf.TransferReportIdentification, Pdf.TransferReportAnimal, Pdf.TransferReportOtherFarm and Documents.TransferReportHeading; the fixed heading and blank lines are not restated.
- Dashboard.BirthReminders: its own contract states the kind, the window and the count. Which animals get a reminder, and in what order, is stated in Dashboard.BirthRemindersContents and Dashboard.BirthRemindersAppend.
- Dashboard.DeathReminders: its own contract states the kind, the four-day bound and the count. One reminder per stale draft, in order, is stated in Dashboard.DeathRemindersContents and Dashboard.DeathRemindersAppend.
- Dashboard.TransferReminders: its own contract states the kind and the count. The contents are stated in Dashboard.TransferRemindersOfDrafts.
- Dashboard.Filter: its own contract states only that transfer drafts are kept. That every one is kept, in order, is stated in Dashboard.FilterContents and Dashboard.FilterAppend.
- Animals.Select: its own contract states membership only. Order and multiplicity are stated in Animals.SelectAppend and Animals.SelectCounts.
- Documents.GeneratePdf: its contract states the outcome and the file name but not the bytes of the report. Those are stated line by line in the Pdf lemmas.
- Dashboard.SortBy: the stability of `Array.prototype.sort` is not proved, only that the result is an ordered permutation.
- Dashboard.GetReminders: the ordering between reminders with equal days left is not stated.
- Sync.Process: the category fetches, and the token requests before them, are inputs rather than calls. The stored password is decoded only in Sync.PasswordRoundTrip.
- Sync.Process: the only upsert failure modelled is a birth date that `new Date` cannot parse. The parser is an input, and the database's message is an input. Other database errors are left out.
- Sync.Process: the upserts use the corrected species lookup (see Findings). As written, an inherited name such as `constructor` would reach the database as a non-enumeration species and be rejected as well.
- Animals.SyncFromIrz: "Invalid enum value" and "Invalid date value" stand in for the database's error messages, which are not part of this model. The date parser is an input.
- Sync.Process: when the farm is missing, the code also updates the missing farm row in its error handler. Prisma would raise there, replacing the error message. The model reports the original message.
- The submission number of `submitToIrz` is a simulated `ZPZU/<year>/<time>` value in the code. The model takes it as the outcome input.
- The documents `findByFarm` and the dashboard's `getUserActivityLogs` are left out. Both are plain ordered reads.
- The activity-log writes and the logger are left out. The writes are best-effort and their errors are swallowed.
- Other registry calls, such as `fetchPoultryEventsIW`, `submitPigHerdSSSS`, `submitPoultryZZSSD` and the ZHK wrappers, are left out. They are thin wrappers over the modelled retry loops.
- The lookups in the cause, disposal and label tables are modelled on own keys only. The values that reach them come from enumerations the DTOs validate, so inherited member names cannot occur there.
- RegistryClient.EndpointPath: idempotence is not claimed, because it does not hold for paths with two production segments. RegistryClient.EndpointPathIdempotentIff states when it does hold.

## Findings

| source | as written | input that shows it | evidently intended | confidence | as-written member | corrected member |
|---|---|---|---|---|---|---|
| apps/api/src/modules/irz/irz.service.ts:856-857 | `mapping[normalized] \|\| 'CATTLE'` on an object literal also finds members inherited from `Object.prototype` | gatunek `"Constructor"` lower-cases to `constructor` and yields the `Object` function, not a species | unknown names map to CATTLE, so only the dictionary's own keys are looked up | not executed | RegistryNormalizer.MapSpeciesAsWrittenLeaksPrototype | RegistryNormalizer.MapSpeciesRecognises |

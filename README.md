# Customer registration API: a Dafny model of its core

This project models the core logic of a Spring Boot service that registers
customers and the field agents who sign them up. It covers these parts:

- **The Snowflake id generator.** Every Agent and Customer id comes from it: 41 bits of
  milliseconds since 2023-01-01, 10 bits of machine id and 12 bits of sequence.
  The generator is a class whose `NextId` works on a sequence of clock readings.
  The model proves the following:
  - ids decode back to their parts;
  - the ids of one generator strictly increase;
  - generators with different machine ids never collide;
  - every id fits a signed 64-bit long.
- **The response envelope.** `ApiResponseBuilder` and `ApiError` are mutable classes. Each fluent method
  states the builder's whole new state, and `Build` is tied to a function of that
  state.
- **Autocomplete over the search index.** The customer and agent suggestion
  pipelines: filter by the lower-cased query, de-duplicate in order, cut at the limit.
  The result is proved to be exactly the first `limit` distinct matches, in the
  order of their first occurrence among the hits' candidates.
  The list is empty for a failing search, a negative `limit`, or a `limit * 3` that
  wraps in 32-bit arithmetic to a page size below 1. A product that wraps to a
  positive page size still runs the pipeline.
- **Activity logging.** The client address taken from `X-Forwarded-For`, `X-Real-IP`
  or the remote address, including the header made only of commas. It also covers the record that
  `logActivity` saves, and a failing save that is swallowed.
- **The user and account endpoints' guards.** These cover:
  - the sort whitelist;
  - the login and email conflict checks of create and update, in their order;
  - the password length check, which every password endpoint makes before it calls a service;
  - the reset request, whose answer does not reveal whether the email exists.
- **The entities and the registration DTO.** These cover:
  - the Bean Validation constraints, with each regular expression proved equal to a direct description of what it accepts;
  - the fluent setters;
  - `equals`/`hashCode` by database id.

Java's `null` is `Option.None`. Integer overflow is written out where it matters (`ToInt`,
`ToLong`). Anything that reads a clock, a random source, the host or the search
engine gets that value as a parameter.

Two facts about the machine id and the id range:

- **Random machine id.** When the host cannot be read, the machine id is
  `(long) (Math.random() * MAX_MACHINE_ID)` with `MAX_MACHINE_ID` = 1023
  (`SnowflakeIdGenerator.java:119`). This gives 0..1022, so machine id 1023 is
  reachable only through the host hash (`Snowflake.MachineIdFromRandom`,
  `Snowflake.RandomFallbackReaches`).
- **Largest id.** The test `shouldFitInLongRange`
  (`SnowflakeIdGeneratorTest.java:110-118`) asserts every id is below
  `Long.MAX_VALUE`. The composition reaches `Long.MAX_VALUE` exactly at the last
  millisecond of the 41-bit window, with machine id 1023 and sequence 4095
  (`Snowflake.IdRange`). Ids are positive once the clock is past the epoch; at the
  epoch millisecond itself the id is `machineId * 4096 + sequence`.

## Model

| member | source | states |
|---|---|---|
| Snowflake.Compose | src/main/java/com/vodacom/customerregistration/api/util/SnowflakeIdGenerator.java:82-84 | the composed id is always a 64-bit long (the shifted sum narrowed as Java does) |
| Snowflake.ParseId | src/main/java/com/vodacom/customerregistration/api/util/SnowflakeIdGenerator.java:90-96 | the decoded machine id is in 0..1023 and the sequence in 0..4095, for any long |
| Snowflake.ComposeNoWrap | src/main/java/com/vodacom/customerregistration/api/util/SnowflakeIdGenerator.java:82-84 | inside the 2^41 ms window the shifted sum never wraps, so the id is non-negative |
| Snowflake.ParseCompose | src/main/java/com/vodacom/customerregistration/api/util/SnowflakeIdGenerator.java:90-96 | parseId recovers exactly the timestamp, machine id and sequence an id was composed from |
| Snowflake.ComposeMonotone | src/main/java/com/vodacom/customerregistration/api/util/SnowflakeIdGenerator.java:82-84 | for one machine, a later millisecond or a larger sequence in the same millisecond gives a larger id |
| Snowflake.ComposeInjective | src/main/java/com/vodacom/customerregistration/api/util/SnowflakeIdGenerator.java:82-84 | two ids are equal only if all three parts are equal |
| Snowflake.IdRange | src/test/java/com/vodacom/customerregistration/api/util/SnowflakeIdGeneratorTest.java:111-118 | ids after the epoch are positive; every id is at most Long.MAX_VALUE, with equality exactly at the last slot of machine 1023 |
| Snowflake.DistinctMachinesNeverCollide | src/main/java/com/vodacom/customerregistration/api/util/SnowflakeIdGenerator.java:82-84 | generators with different machine ids never produce the same id |
| Snowflake.MachineIdFromHash | src/main/java/com/vodacom/customerregistration/api/util/SnowflakeIdGenerator.java:110-121 | the host-derived machine id is abs(hash) mod 1024 and lies in 0..1023, also for Integer.MIN_VALUE |
| Snowflake.MachineIdFromRandom | src/main/java/com/vodacom/customerregistration/api/util/SnowflakeIdGenerator.java:110-121 | the random fallback lies in 0..1022 |
| Snowflake.RandomFallbackReaches | src/main/java/com/vodacom/customerregistration/api/util/SnowflakeIdGenerator.java:110-121 | every machine id in 0..1022 is produced by some random value, so the range is exactly 0..1022 |
| Snowflake.IdsOf | src/main/java/com/vodacom/customerregistration/api/util/SnowflakeIdGenerator.java:82-84 | the ids of a history of (timestamp, sequence) slots are their compositions, one per slot |
| Snowflake.IssuedIdsIncrease | src/test/java/com/vodacom/customerregistration/api/util/SnowflakeIdGeneratorTest.java:28-49 | the ids of a chronological history strictly increase, so they are unique and ordered |
| Snowflake.FirstAfter | src/main/java/com/vodacom/customerregistration/api/util/SnowflakeIdGenerator.java:102-108 | the first clock reading after the last timestamp is larger than it and every earlier reading is not |
| Snowflake.WaitForNextMillisecond | src/main/java/com/vodacom/customerregistration/api/util/SnowflakeIdGenerator.java:102-108 | the spin loop returns the first reading past the last timestamp |
| Snowflake.Generator.constructor | src/main/java/com/vodacom/customerregistration/api/util/SnowflakeIdGenerator.java:43-50 | a generator starts with lastTimestamp -1, sequence 0 and an empty history |
| Snowflake.Generator.FromHost | src/main/java/com/vodacom/customerregistration/api/util/SnowflakeIdGenerator.java:38-41 | the default constructor takes the hashed host identity, or the random fallback when it is unavailable |
| Snowflake.Generator.Create | src/main/java/com/vodacom/customerregistration/api/util/SnowflakeIdGenerator.java:43-50 | construction fails with the invalid machine id exactly when it is outside 0..1023 |
| Snowflake.Generator.NextId | src/main/java/com/vodacom/customerregistration/api/util/SnowflakeIdGenerator.java:55-85 | fails exactly when the clock went backwards, and then nothing changes. The same millisecond increments the sequence, and the sequence wrapping to 0 waits for the next millisecond. A new millisecond resets the sequence. The id is the composition of the new state, parses back to it, and extends the chronological history |
| ApiResponses.ApiError.constructor | src/main/java/com/vodacom/customerregistration/api/web/rest/util/ApiError.java:22-35 | code, message and details as given, timestamp now, no path |
| ApiResponses.ApiError.SetPath | src/main/java/com/vodacom/customerregistration/api/web/rest/util/ApiError.java:143-145 | only the path changes |
| ApiResponses.NewError | src/main/java/com/vodacom/customerregistration/api/web/rest/util/ApiError.java:61-83 | each factory gives a fresh error with its code and the message, no details and no path |
| ApiResponses.ResponseOfForgetsOnlySuccess | src/main/java/com/vodacom/customerregistration/api/web/rest/util/ApiResponseBuilder.java:190-200 | two builder states build the same response exactly when they differ at most in the success flag |
| ApiResponses.ApiResponseBuilder.constructor | src/main/java/com/vodacom/customerregistration/api/web/rest/util/ApiResponseBuilder.java:12-22 | a new builder is unsuccessful, has nothing set and is stamped now |
| ApiResponses.ApiResponseBuilder.SetSuccess | src/main/java/com/vodacom/customerregistration/api/web/rest/util/ApiResponseBuilder.java:24-27 | only the success flag changes; returns the same builder |
| ApiResponses.ApiResponseBuilder.Success | src/main/java/com/vodacom/customerregistration/api/web/rest/util/ApiResponseBuilder.java:29-32 | only success becomes true |
| ApiResponses.ApiResponseBuilder.Failure | src/main/java/com/vodacom/customerregistration/api/web/rest/util/ApiResponseBuilder.java:34-37 | only success becomes false |
| ApiResponses.ApiResponseBuilder.Status | src/main/java/com/vodacom/customerregistration/api/web/rest/util/ApiResponseBuilder.java:39-42 | only the status changes |
| ApiResponses.ApiResponseBuilder.Message | src/main/java/com/vodacom/customerregistration/api/web/rest/util/ApiResponseBuilder.java:44-47 | only the message changes |
| ApiResponses.ApiResponseBuilder.Data | src/main/java/com/vodacom/customerregistration/api/web/rest/util/ApiResponseBuilder.java:49-52 | only the data changes |
| ApiResponses.ApiResponseBuilder.Error | src/main/java/com/vodacom/customerregistration/api/web/rest/util/ApiResponseBuilder.java:54-58 | attaching an error also marks the response unsuccessful; nothing else changes |
| ApiResponses.ApiResponseBuilder.ErrorOf | src/main/java/com/vodacom/customerregistration/api/web/rest/util/ApiResponseBuilder.java:60-70 | attaches a fresh error with the given code, message and details, and marks the response unsuccessful |
| ApiResponses.ApiResponseBuilder.Timestamp | src/main/java/com/vodacom/customerregistration/api/web/rest/util/ApiResponseBuilder.java:72-75 | only the timestamp changes |
| ApiResponses.ApiResponseBuilder.Path | src/main/java/com/vodacom/customerregistration/api/web/rest/util/ApiResponseBuilder.java:77-83 | sets the response path and, when an error is attached, that error's path too, leaving its other fields alone |
| ApiResponses.ApiResponseBuilder.SuccessResponse | src/main/java/com/vodacom/customerregistration/api/web/rest/util/ApiResponseBuilder.java:86-91 | successful, status SUCCESS, the default message "Operation completed successfully", the data set; nothing else changes |
| ApiResponses.ApiResponseBuilder.SuccessResponseWithMessage | src/main/java/com/vodacom/customerregistration/api/web/rest/util/ApiResponseBuilder.java:93-98 | successful, status SUCCESS, message and data set |
| ApiResponses.ApiResponseBuilder.CreatedResponse | src/main/java/com/vodacom/customerregistration/api/web/rest/util/ApiResponseBuilder.java:100-105 | successful, status CREATED, the default message "Resource created successfully", the data set |
| ApiResponses.ApiResponseBuilder.CreatedResponseWithMessage | src/main/java/com/vodacom/customerregistration/api/web/rest/util/ApiResponseBuilder.java:107-112 | successful, status CREATED, message and data set |
| ApiResponses.ApiResponseBuilder.UpdatedResponse | src/main/java/com/vodacom/customerregistration/api/web/rest/util/ApiResponseBuilder.java:114-119 | successful, status UPDATED, the default message "Resource updated successfully", the data set |
| ApiResponses.ApiResponseBuilder.UpdatedResponseWithMessage | src/main/java/com/vodacom/customerregistration/api/web/rest/util/ApiResponseBuilder.java:121-126 | successful, status UPDATED, message and data set |
| ApiResponses.ApiResponseBuilder.DeletedResponse | src/main/java/com/vodacom/customerregistration/api/web/rest/util/ApiResponseBuilder.java:128-132 | successful, status DELETED, the default message "Resource deleted successfully", no data touched |
| ApiResponses.ApiResponseBuilder.DeletedResponseWithMessage | src/main/java/com/vodacom/customerregistration/api/web/rest/util/ApiResponseBuilder.java:134-138 | successful, status DELETED, message set |
| ApiResponses.ApiResponseBuilder.BadRequestResponse | src/main/java/com/vodacom/customerregistration/api/web/rest/util/ApiResponseBuilder.java:141-146 | unsuccessful, status BAD_REQUEST, the message, and a fresh error with the same code and message |
| ApiResponses.ApiResponseBuilder.NotFoundResponse | src/main/java/com/vodacom/customerregistration/api/web/rest/util/ApiResponseBuilder.java:148-153 | the same with NOT_FOUND |
| ApiResponses.ApiResponseBuilder.ForbiddenResponse | src/main/java/com/vodacom/customerregistration/api/web/rest/util/ApiResponseBuilder.java:155-160 | the same with FORBIDDEN |
| ApiResponses.ApiResponseBuilder.UnauthorizedResponse | src/main/java/com/vodacom/customerregistration/api/web/rest/util/ApiResponseBuilder.java:162-167 | the same with UNAUTHORIZED |
| ApiResponses.ApiResponseBuilder.ConflictResponse | src/main/java/com/vodacom/customerregistration/api/web/rest/util/ApiResponseBuilder.java:169-174 | the same with CONFLICT |
| ApiResponses.ApiResponseBuilder.ValidationErrorResponse | src/main/java/com/vodacom/customerregistration/api/web/rest/util/ApiResponseBuilder.java:176-181 | unsuccessful, status VALIDATION_ERROR, the message and the caller's error attached as it is |
| ApiResponses.ApiResponseBuilder.InternalServerErrorResponse | src/main/java/com/vodacom/customerregistration/api/web/rest/util/ApiResponseBuilder.java:183-188 | unsuccessful, status INTERNAL_SERVER_ERROR, the message and a matching fresh error |
| ApiResponses.ApiResponseBuilder.Build | src/main/java/com/vodacom/customerregistration/api/web/rest/util/ApiResponseBuilder.java:190-200 | the response carries every builder field except the success flag, and the attached error object itself |
| Autocomplete.LowercaseQueryNonEmpty | src/main/java/com/vodacom/customerregistration/api/repository/search/CustomerSearchRepository.java:79-88 | a query that is not blank stays non-empty after lower-casing and trimming |
| Autocomplete.Matching | src/main/java/com/vodacom/customerregistration/api/repository/search/CustomerSearchRepository.java:101-104 | a string survives the filter exactly when it is a non-null candidate whose lower-case form contains the query |
| Autocomplete.MatchingSnoc | src/main/java/com/vodacom/customerregistration/api/repository/search/CustomerSearchRepository.java:101-104 | the filter keeps encounter order: appending a candidate appends its string exactly when it matches |
| Autocomplete.DistinctFrom | src/main/java/com/vodacom/customerregistration/api/repository/search/CustomerSearchRepository.java:101-104 | removing duplicates and already-seen strings leaves no duplicates and exactly the unseen elements |
| Autocomplete.Distinct | src/main/java/com/vodacom/customerregistration/api/repository/search/CustomerSearchRepository.java:101-104 | distinct() keeps every element once and nothing else |
| Autocomplete.DistinctSnoc | src/main/java/com/vodacom/customerregistration/api/repository/search/CustomerSearchRepository.java:101-104 | distinct() keeps first occurrences in encounter order: appending an element appends it iff it is new |
| Autocomplete.DistinctFromIdentity | src/main/java/com/vodacom/customerregistration/api/repository/search/CustomerSearchRepository.java:101-104 | a list without duplicates is unchanged by distinct() |
| Autocomplete.Take | src/main/java/com/vodacom/customerregistration/api/repository/search/CustomerSearchRepository.java:101-104 | limit(n) keeps a prefix of exactly min(n, length) elements, the whole list when it is short enough |
| Autocomplete.FirstIndex | src/main/java/com/vodacom/customerregistration/api/repository/search/CustomerSearchRepository.java:101-104 | the position of a string's first occurrence among the candidates: it holds the string and no earlier position does |
| Autocomplete.FirstIndexSnoc | src/main/java/com/vodacom/customerregistration/api/repository/search/CustomerSearchRepository.java:101-104 | appending a candidate does not move an earlier string's first occurrence |
| Autocomplete.FirstIndexNew | src/main/java/com/vodacom/customerregistration/api/repository/search/CustomerSearchRepository.java:101-104 | a string that had not occurred first occurs at the appended position |
| Autocomplete.OrderSurvivesSnoc | src/main/java/com/vodacom/customerregistration/api/repository/search/CustomerSearchRepository.java:101-104 | a list in first-occurrence order stays so when candidates are appended, and all its strings occur before them |
| Autocomplete.OrderExtends | src/main/java/com/vodacom/customerregistration/api/repository/search/CustomerSearchRepository.java:101-104 | a string whose first occurrence follows all of a list's can be appended to it in order |
| Autocomplete.DistinctMatchesOrdered | src/main/java/com/vodacom/customerregistration/api/repository/search/CustomerSearchRepository.java:101-104 | filter then distinct emits the matching strings in increasing order of their first occurrence |
| Autocomplete.DistinctMatchesOrderedStep | src/main/java/com/vodacom/customerregistration/api/repository/search/CustomerSearchRepository.java:101-104 | the induction step: the order holds after one more candidate |
| Autocomplete.TakeDistinctMatches | src/main/java/com/vodacom/customerregistration/api/repository/search/CustomerSearchRepository.java:101-104 | the first limit distinct matches are ordered, and a match is missing only once limit earlier ones were taken |
| Autocomplete.AutocompleteRequest | src/main/java/com/vodacom/customerregistration/api/repository/search/CustomerSearchRepository.java:79-88 | no search for a null or blank query; otherwise the wildcard query on the lower-cased trimmed text and a page of limit*3 as a 32-bit int |
| Autocomplete.WrappedPageSizeRuns | src/main/java/com/vodacom/customerregistration/api/repository/search/CustomerSearchRepository.java:79-88 | a limit of 1500000000 wraps the page size to 205032704, which is positive, so the search and the pipeline still run |
| Autocomplete.Suggest | src/main/java/com/vodacom/customerregistration/api/repository/search/CustomerSearchRepository.java:101-104 | at most limit suggestions, without duplicates, each a candidate containing the query, in increasing order of first occurrence among the candidates; a matching candidate is left out only when the list already holds limit suggestions, all of which occur before it |
| Autocomplete.SuggestComplete | src/main/java/com/vodacom/customerregistration/api/repository/search/CustomerSearchRepository.java:101-104 | when the distinct matches fit in the limit, every matching candidate is suggested |
| Autocomplete.SuggestFillsLimit | src/main/java/com/vodacom/customerregistration/api/repository/search/CustomerSearchRepository.java:101-104 | the list holds min(limit, number of distinct matches) suggestions |
| Autocomplete.CustomerCandidates | src/main/java/com/vodacom/customerregistration/api/repository/search/CustomerSearchRepository.java:95-100 | each hit contributes first name, last name, "first last" (with "null" for a missing part) and NIDA number, in that order |
| Autocomplete.CustomerSuggestions | src/main/java/com/vodacom/customerregistration/api/repository/search/CustomerSearchRepository.java:78-111 | empty for a blank query, a failed search or an invalid page size; otherwise at most limit distinct candidates of the hits, each containing the query, in first-occurrence order, and a matching candidate is left out only when limit earlier ones fill the list |
| Autocomplete.CustomerFullNameSuggested | src/main/java/com/vodacom/customerregistration/api/repository/search/CustomerSearchRepository.java:95-104 | a hit's full name that matches the query is suggested when the distinct matches fit the limit |
| Autocomplete.AgentCandidates | src/main/java/com/vodacom/customerregistration/api/repository/search/AgentSearchRepository.java:132-134 | each hit contributes its phone number |
| Autocomplete.AgentSuggestions | src/main/java/com/vodacom/customerregistration/api/repository/search/AgentSearchRepository.java:106-149 | empty for a blank query, a failed search or an invalid page size; otherwise at most limit distinct phone numbers of the hits, each containing the query, in first-occurrence order, and a matching phone number is left out only when limit earlier ones fill the list |
| Autocomplete.AgentPhoneSuggested | src/main/java/com/vodacom/customerregistration/api/repository/search/AgentSearchRepository.java:132-138 | a hit's matching phone number is suggested when the distinct matches fit the limit |
| ActivityLogging.ClientIpAddress | src/main/java/com/vodacom/customerregistration/api/service/ActivityLogService.java:121-133 | the trimmed first entry of a usable X-Forwarded-For, failing exactly when it holds only commas; else a usable X-Real-IP; else the remote address |
| ActivityLogging.ForwardedForTakesPrecedence | src/main/java/com/vodacom/customerregistration/api/service/ActivityLogService.java:122-125 | with a usable X-Forwarded-For the other two sources do not affect the answer |
| ActivityLogging.ForwardedForFirstHop | src/main/java/com/vodacom/customerregistration/api/service/ActivityLogService.java:122-125 | for "hop,rest" the address is the trimmed hop |
| ActivityLogging.CommaIsNotUnknown | src/main/java/com/vodacom/customerregistration/api/service/ActivityLogService.java:122-125 | a header holding a comma is never taken for "unknown" |
| ActivityLogging.ActivityLogService.constructor | src/main/java/com/vodacom/customerregistration/api/service/ActivityLogService.java:100-119 | the repository starts empty |
| ActivityLogging.Record | src/main/java/com/vodacom/customerregistration/api/service/ActivityLogService.java:100-119 | the saved record carries the given action, entity, description, status, error and the clock reading; it carries the request's resolved address, user agent and session exactly when a request is bound and its address resolves, and none of the three otherwise |
| ActivityLogging.ActivityLogService.LogActivity | src/main/java/com/vodacom/customerregistration/api/service/ActivityLogService.java:100-119 | a failing save leaves the repository unchanged; otherwise exactly the Record of the given fields, time and request is appended |
| ActivityLogging.ActivityLogService.LogSuccess | src/main/java/com/vodacom/customerregistration/api/service/ActivityLogService.java:92-94 | the four-argument overload appends the Record with status SUCCESS and no error message, and the other fields, time and request details as given; a failing save changes nothing |
| ActivityLogging.ActivityLogService.LogWithStatus | src/main/java/com/vodacom/customerregistration/api/service/ActivityLogService.java:96-98 | the five-argument overload appends the Record with the given status and no error message; a failing save changes nothing |
| UserManagement.FindOneByLogin | src/main/java/com/vodacom/customerregistration/api/web/rest/UserResource.java:112-123 | finds the user stored under the login, if any |
| UserManagement.FindOneByEmailIgnoreCase | src/main/java/com/vodacom/customerregistration/api/web/rest/UserResource.java:112-123 | finds the user stored under the lower-cased email, if any |
| UserManagement.OnlyContainsAllowedProperties | src/main/java/com/vodacom/customerregistration/api/web/rest/UserResource.java:178-180 | true exactly when every sort property is one of the eleven whitelisted names |
| UserManagement.SortWhitelistExamples | src/main/java/com/vodacom/customerregistration/api/web/rest/UserResource.java:74 | no sort is allowed; sorting by password or by a differently cased name is refused |
| UserManagement.AllowedPropertiesConcat | src/main/java/com/vodacom/customerregistration/api/web/rest/UserResource.java:178-180 | a combined sort is allowed exactly when both parts are |
| UserManagement.GetAllUsers | src/main/java/com/vodacom/customerregistration/api/web/rest/UserResource.java:169-171 | the listing runs exactly when every sort property is whitelisted, else a bad request |
| UserManagement.CreateUserCheck | src/main/java/com/vodacom/customerregistration/api/web/rest/UserResource.java:112-123 | an id in the form is refused first, then a taken login, then a taken email; each outcome exactly characterised |
| UserManagement.UpdateUserCheck | src/main/java/com/vodacom/customerregistration/api/web/rest/UserResource.java:140-147 | an email owned by a different id is refused first, then a login owned by a different id; an id conflict is never reported |
| UserManagement.UpdateKeepsOwnLoginAndEmail | src/main/java/com/vodacom/customerregistration/api/web/rest/UserResource.java:140-147 | a user keeping its own login and email passes |
| UserManagement.CheckOrderDiffers | src/main/java/com/vodacom/customerregistration/api/web/rest/UserResource.java:112-147 | with both taken, create reports the login and update reports the email |
| UserManagement.UpdateWithoutIdConflictsLikeCreate | src/main/java/com/vodacom/customerregistration/api/web/rest/UserResource.java:140-147 | without an id in the form, update proceeds exactly when create would |
| AccountManagement.IsPasswordLengthInvalid | src/main/java/com/vodacom/customerregistration/api/web/rest/AccountResource.java:213-215 | the empty-string test is subsumed: a password is refused exactly when it is null, shorter than 4 or longer than 100 characters |
| AccountManagement.PasswordValidIff | src/main/java/com/vodacom/customerregistration/api/web/rest/AccountResource.java:213-215 | a password passes exactly when present with 4 to 100 characters |
| AccountManagement.PasswordLengthBoundaries | src/main/java/com/vodacom/customerregistration/api/web/rest/vm/ManagedUserVM.java:12-14 | lengths 4 and 100 pass, 3 and 101 do not |
| AccountManagement.RegisterAccount | src/main/java/com/vodacom/customerregistration/api/web/rest/AccountResource.java:76-81 | an invalid password is refused before any service call; otherwise registerUser is called first; when it throws login or email already used, that is the answer and no mail goes out; otherwise the activation mail follows and the answer is Created "User registered successfully" |
| AccountManagement.ChangePasswordEndpoint | src/main/java/com/vodacom/customerregistration/api/web/rest/AccountResource.java:149-153 | an invalid new password is refused before any call; otherwise exactly one change-password call |
| AccountManagement.FinishPasswordReset | src/main/java/com/vodacom/customerregistration/api/web/rest/AccountResource.java:201-209 | an invalid new password is refused before any call; otherwise the reset is attempted and an unknown key is an error |
| AccountManagement.PasswordGuardBeforeService | src/main/java/com/vodacom/customerregistration/api/web/rest/AccountResource.java:213-215 | each of the three endpoints calls a service exactly when the password passes the check, whatever the services answer |
| AccountManagement.RequestPasswordResetEndpoint | src/main/java/com/vodacom/customerregistration/api/web/rest/AccountResource.java:179-187 | the reset is always requested first, the mail goes out exactly when a user was found, and the answer is always Ok "Password reset request processed" |
| AccountManagement.PasswordResetDoesNotRevealEmails | src/main/java/com/vodacom/customerregistration/api/web/rest/AccountResource.java:179-187 | the answer is the same whether or not the email belongs to a user |
| AccountManagement.SaveAccount | src/main/java/com/vodacom/customerregistration/api/web/rest/AccountResource.java:126-136 | no login is an error; an email owned by another login (ignoring case) is refused with no call; otherwise the answer is Ok with one update call exactly when the login exists, and "User could not be found" with no call when it does not |
| AccountManagement.SaveAccountKeepsOwnEmail | src/main/java/com/vodacom/customerregistration/api/web/rest/AccountResource.java:126-136 | a user may keep its own email whatever the case of its stored login |
| Patterns.DigitsIff | src/main/java/com/vodacom/customerregistration/api/domain/Customer.java:50 | `\d{n}` accepts exactly the strings of n ASCII digits |
| Patterns.MobileTailIff | src/main/java/com/vodacom/customerregistration/api/domain/Agent.java:27 | `[67]\d{8}` accepts exactly 6 or 7 followed by eight digits |
| Patterns.AgentPhoneIff | src/main/java/com/vodacom/customerregistration/api/domain/Agent.java:27 | Agent's phone pattern accepts exactly "+255" or "0", then 6 or 7, then eight digits (13 or 10 characters) |
| Patterns.DtoPhoneIff | src/main/java/com/vodacom/customerregistration/api/service/dto/AgentRegistrationDTO.java:16 | the DTO's phone pattern accepts the same plus "255" without the plus (12 characters) |
| Patterns.AgentPhoneIsDtoPhone | src/main/java/com/vodacom/customerregistration/api/service/dto/AgentRegistrationDTO.java:37 | every phone the Agent entity accepts is accepted by the DTO |
| Patterns.DtoAcceptsWhatAgentRejects | src/main/java/com/vodacom/customerregistration/api/service/dto/AgentRegistrationDTO.java:37 | "255712345678" passes the DTO's pattern and fails Agent's |
| Patterns.NidaIff | src/main/java/com/vodacom/customerregistration/api/domain/Customer.java:49-50 | a NIDA number matches exactly when it is twenty ASCII digits |
| Validation.DtoPhoneShape | src/main/java/com/vodacom/customerregistration/api/service/dto/AgentRegistrationDTO.java:15-19 | a phone matching the DTO pattern is not blank and has 10, 12 or 13 characters |
| Validation.AgentPhoneShape | src/main/java/com/vodacom/customerregistration/api/domain/Agent.java:26-27 | a phone matching Agent's pattern is not blank and has 10 or 13 characters |
| Agents.ValidAgentIff | src/main/java/com/vodacom/customerregistration/api/domain/Agent.java:26-57 | an agent is valid exactly when its phone has Agent's form, status and user are set, and region, district and ward have at most 100 characters when present |
| Agents.ValidAgentPhoneLength | src/main/java/com/vodacom/customerregistration/api/domain/Agent.java:26-27 | a valid agent's phone is not blank and has 10 or 13 characters |
| Agents.ClearingFields | src/main/java/com/vodacom/customerregistration/api/domain/Agent.java:26-57 | clearing region, district or ward keeps an agent valid; clearing phone, status or user does not |
| Agents.Agent.constructor | src/main/java/com/vodacom/customerregistration/api/domain/Agent.java:16-57 | a new agent has every field null |
| Agents.Agent.SetId | src/main/java/com/vodacom/customerregistration/api/domain/Agent.java:69-71 | only the id changes |
| Agents.Agent.Id | src/main/java/com/vodacom/customerregistration/api/domain/Agent.java:64-67 | only the id changes, and the same agent is returned |
| Agents.Agent.SetPhoneNumber | src/main/java/com/vodacom/customerregistration/api/domain/Agent.java:82-84 | only the phone number changes |
| Agents.Agent.PhoneNumber | src/main/java/com/vodacom/customerregistration/api/domain/Agent.java:77-80 | only the phone number changes; returns the same agent |
| Agents.Agent.SetStatus | src/main/java/com/vodacom/customerregistration/api/domain/Agent.java:95-97 | only the status changes |
| Agents.Agent.Status | src/main/java/com/vodacom/customerregistration/api/domain/Agent.java:90-93 | only the status changes; returns the same agent |
| Agents.Agent.SetUser | src/main/java/com/vodacom/customerregistration/api/domain/Agent.java:103-105 | only the user changes |
| Agents.Agent.User | src/main/java/com/vodacom/customerregistration/api/domain/Agent.java:107-110 | only the user changes; returns the same agent |
| Agents.Agent.SetRegion | src/main/java/com/vodacom/customerregistration/api/domain/Agent.java:117-119 | only the region changes, null allowed |
| Agents.Agent.Region | src/main/java/com/vodacom/customerregistration/api/domain/Agent.java:121-124 | only the region changes; returns the same agent |
| Agents.Agent.SetDistrict | src/main/java/com/vodacom/customerregistration/api/domain/Agent.java:130-132 | only the district changes, null allowed |
| Agents.Agent.District | src/main/java/com/vodacom/customerregistration/api/domain/Agent.java:134-137 | only the district changes; returns the same agent |
| Agents.Agent.SetWard | src/main/java/com/vodacom/customerregistration/api/domain/Agent.java:143-145 | only the ward changes, null allowed |
| Agents.Agent.Ward | src/main/java/com/vodacom/customerregistration/api/domain/Agent.java:147-150 | only the ward changes; returns the same agent |
| Agents.Agent.Equals | src/main/java/com/vodacom/customerregistration/api/domain/Agent.java:153-162 | an agent equals itself; it equals only Agents; a different Agent only when both carry the same non-null id |
| Agents.Agent.HashCode | src/main/java/com/vodacom/customerregistration/api/domain/Agent.java:164-167 | the hash is the class's hash, read from no field of the agent |
| Agents.EqualsIsAnEquivalence | src/main/java/com/vodacom/customerregistration/api/domain/Agent.java:153-162 | equals is reflexive, symmetric and transitive on agents and false for other objects |
| Agents.EqualsById | src/test/java/com/vodacom/customerregistration/api/domain/AgentTest.java:15-26 | an agent without an id equals only itself; distinct agents are equal exactly when they share an id |
| Agents.HashCodeConsistentWithEquals | src/main/java/com/vodacom/customerregistration/api/domain/Agent.java:164-167 | all agents share one hash code, so equal agents have equal hash codes |
| Customers.ValidCustomerIff | src/main/java/com/vodacom/customerregistration/api/domain/Customer.java:28-69 | a customer is valid exactly when first and last name are set with at most 50 characters, a middle name has at most 50, the date of birth is set, the NIDA number is twenty digits, and region, district and ward have at most 100 |
| Customers.NidaExamples | src/main/java/com/vodacom/customerregistration/api/domain/Customer.java:49-50 | twenty digits pass; letters or nineteen digits do not |
| Customers.ClearingFields | src/main/java/com/vodacom/customerregistration/api/domain/Customer.java:28-69 | clearing an optional field keeps a customer valid; clearing a required one does not |
| Customers.Customer.constructor | src/main/java/com/vodacom/customerregistration/api/domain/Customer.java:18-69 | a new customer has every field null |
| Customers.Customer.SetId | src/main/java/com/vodacom/customerregistration/api/domain/Customer.java:81-83 | only the id changes |
| Customers.Customer.Id | src/main/java/com/vodacom/customerregistration/api/domain/Customer.java:76-79 | only the id changes; returns the same customer |
| Customers.Customer.SetFirstName | src/main/java/com/vodacom/customerregistration/api/domain/Customer.java:94-96 | only the first name changes |
| Customers.Customer.FirstName | src/main/java/com/vodacom/customerregistration/api/domain/Customer.java:89-92 | only the first name changes; returns the same customer |
| Customers.Customer.SetMiddleName | src/main/java/com/vodacom/customerregistration/api/domain/Customer.java:107-109 | only the middle name changes |
| Customers.Customer.MiddleName | src/main/java/com/vodacom/customerregistration/api/domain/Customer.java:102-105 | only the middle name changes; returns the same customer |
| Customers.Customer.SetLastName | src/main/java/com/vodacom/customerregistration/api/domain/Customer.java:120-122 | only the last name changes |
| Customers.Customer.LastName | src/main/java/com/vodacom/customerregistration/api/domain/Customer.java:115-118 | only the last name changes; returns the same customer |
| Customers.Customer.SetDateOfBirth | src/main/java/com/vodacom/customerregistration/api/domain/Customer.java:133-135 | only the date of birth changes |
| Customers.Customer.DateOfBirth | src/main/java/com/vodacom/customerregistration/api/domain/Customer.java:128-131 | only the date of birth changes; returns the same customer |
| Customers.Customer.SetNidaNumber | src/main/java/com/vodacom/customerregistration/api/domain/Customer.java:146-148 | only the NIDA number changes |
| Customers.Customer.NidaNumber | src/main/java/com/vodacom/customerregistration/api/domain/Customer.java:141-144 | only the NIDA number changes; returns the same customer |
| Customers.Customer.SetRegion | src/main/java/com/vodacom/customerregistration/api/domain/Customer.java:155-157 | only the region changes, null allowed |
| Customers.Customer.Region | src/main/java/com/vodacom/customerregistration/api/domain/Customer.java:159-162 | only the region changes; returns the same customer |
| Customers.Customer.SetDistrict | src/main/java/com/vodacom/customerregistration/api/domain/Customer.java:168-170 | only the district changes, null allowed |
| Customers.Customer.District | src/main/java/com/vodacom/customerregistration/api/domain/Customer.java:172-175 | only the district changes; returns the same customer |
| Customers.Customer.SetWard | src/main/java/com/vodacom/customerregistration/api/domain/Customer.java:181-183 | only the ward changes, null allowed |
| Customers.Customer.Ward | src/main/java/com/vodacom/customerregistration/api/domain/Customer.java:185-188 | only the ward changes; returns the same customer |
| Customers.Customer.Equals | src/main/java/com/vodacom/customerregistration/api/domain/Customer.java:193-202 | a customer equals itself; it equals only Customers; a different Customer only when both carry the same non-null id |
| Customers.Customer.HashCode | src/main/java/com/vodacom/customerregistration/api/domain/Customer.java:204-207 | the hash is the class's hash, read from no field of the customer |
| Customers.EqualsIsAnEquivalence | src/main/java/com/vodacom/customerregistration/api/domain/Customer.java:193-202 | equals is reflexive, symmetric and transitive on customers and false for other objects |
| Customers.EqualsById | src/test/java/com/vodacom/customerregistration/api/domain/CustomerTest.java:12-24 | a customer without an id equals only itself; distinct customers are equal exactly when they share an id |
| Customers.HashCodeConsistentWithEquals | src/main/java/com/vodacom/customerregistration/api/domain/Customer.java:204-207 | all customers share one hash code, so equal customers have equal hash codes |
| AgentRegistration.NewRegistration | src/main/java/com/vodacom/customerregistration/api/service/dto/AgentRegistrationDTO.java:32-53 | a new DTO has langKey "en", status ACTIVE and every other field null |
| AgentRegistration.RegistrationOf | src/main/java/com/vodacom/customerregistration/api/service/dto/AgentRegistrationDTO.java:55-63 | the six-argument constructor is the default DTO with exactly those six fields set |
| AgentRegistration.ValidLoginIff | src/main/java/com/vodacom/customerregistration/api/service/dto/AgentRegistrationDTO.java:15-19 | the login passes exactly when it has the DTO's phone form; it then has 10 to 13 characters, so @NotBlank and @Size add nothing |
| AgentRegistration.ValidPhoneNumberIff | src/main/java/com/vodacom/customerregistration/api/service/dto/AgentRegistrationDTO.java:36-38 | the phone number passes exactly when it has the DTO's phone form |
| AgentRegistration.RegistrationOfValidIff | src/main/java/com/vodacom/customerregistration/api/service/dto/AgentRegistrationDTO.java:15-63 | a DTO from the six-argument constructor is valid exactly when login and phone have the phone form, the names have at most 50 characters, the email 5 to 254, and a status is given |
| AgentRegistration.NewRegistrationNeedsLoginAndPhone | src/main/java/com/vodacom/customerregistration/api/service/dto/AgentRegistrationDTO.java:15-53 | the default DTO is invalid and becomes valid once a login and a phone number are set |
| AgentRegistration.RegistrationPhoneVersusAgentPhone | src/main/java/com/vodacom/customerregistration/api/service/dto/AgentRegistrationDTO.java:36-38 | every Agent phone passes the DTO; "255712345678" passes the DTO but no agent with it is valid |

## Left out

- Concurrency: `nextId` is `synchronized` and its fields `volatile`. The model is single-threaded.
- Snowflake.Generator.NextId: the wall clock is a sequence of readings passed in. The wait is modelled only under the assumption that the clock eventually passes the last timestamp.
- Snowflake.Generator.FromHost: the host name, the process name and `Math.random()` are parameters. Their hash is taken as an input `int`.
- The search engine is not modelled: a search's hits, or its failure, are inputs of the autocomplete functions. The Elasticsearch wildcard query semantics are left out too: the model filters the hits itself, as the code does after the search.
- `Instant.now()` is a millisecond number passed in. The clock is not read.
- Case mapping: `toLowerCase` and `equalsIgnoreCase` cover ASCII letters only. `String.length` counts characters, not UTF-16 code units.
- `@Email` on the DTO's email is not modelled; only its size is.
- `LOGIN_REGEX` in `Constants.java` is not part of this model.
- The REST controllers' other endpoints, the services, the mappers, the repositories' queries, and the Spring security and transaction machinery are not modelled.
- AgentStatus: the enumeration's source is not part of this model. ACTIVE is the only constant it names; any other is kept by its name.
- ApiError: the `metadata` and `fieldErrors` collections and their helper methods are not modelled.
- ActivityLogging.ActivityLogService.LogActivity: the record's database id and auditing columns are not modelled. `entityId` is carried as the string the caller passes, because the entity declares a `Long` while callers pass UUIDs.
- AccountManagement.RegisterAccount: `UserService` is not part of this model. Whether `registerUser` throws login or email already used is an input.
- UserManagement.CreateUserCheck and UserManagement.UpdateUserCheck: the form's login and email are taken as non-null, which `@Valid` ensures before the checks run.
- Agents.Agent and Customers.Customer: the auditing fields inherited from `AbstractAuditingEntity` and `toString` are not modelled. The linked User is represented by its id.
- Agents.Agent.HashCode and Customers.Customer.HashCode: the class object's identity hash is a parameter, since its value is fixed by the JVM.
- Customers.Customer: the test samples build customers with UUID ids while the entity's id is a `Long`; the model uses integer ids.

# Uptime monitor core, modelled in Dafny

This project models the core of a small Node.js uptime monitor. Users sign
up and log in with a phone number and password. They register *checks*:
a protocol, a URL, an HTTP method, the status codes that count as success,
and a timeout. Background workers probe every check once a minute, save
whether it is `up` or `down`, and text the owner when the state changes.

These parts of the system are modelled:

- the JSON API over users, tokens and checks (`lib/handlers.js`);
- the request path and response defaults of the server (`lib/server.js`);
- the helpers: password hash guard, JSON body fallback, random ids, and
  SMS parameter checks (`lib/helpers.js`);
- the log store (`lib/logs.js`);
- the environment tables (`lib/config.js`);
- the workers (`lib/workers.js`): validation, the probe's single-delivery
  guard, the state and alert decisions, logging, the save, the SMS alert,
  and the two sweeps.

## How the model is built

- **JavaScript values.** Module `JsValues` holds `undefined`, `null`,
  booleans, numbers (as reals), strings, arrays and objects, with
  JavaScript truthiness and `||`. A record is a `map<string, Value>`, and
  an absent property reads as `undefined`.
- **Strings.** Module `JsStrings` covers the string built-ins the code
  uses: `trim` (ECMAScript white space), the server's slash-stripping
  regular expression, `includes`, `replace` with a string pattern (first
  occurrence only), ASCII case mapping, and `String(n)`.
- **The record store.** The handlers and workers call it as `_data`. Its
  source, `lib/data.js`, is not part of this model. It is modelled by its
  behaviour as the class `DataStore.Store`, over a map from
  (collection, id) to record:
  - create fails when the id is taken;
  - read returns the record or fails;
  - update fails when the id is absent;
  - delete removes the record, failing when it is absent;
  - list returns each id once.
- **Each handler** is a method on the store. Its postcondition gives the
  reply and the new store for every branch the source takes: the same
  status codes, the same error texts, the same order of checks.
- **Long handlers** are split at the source's own nesting into named
  steps, for example `ChecksApi.CreateWithToken` and
  `ChecksApi.CreateForOwner`.
- **The log directory** is the class `Logs.LogDir`, a map from file name
  to contents.
- **The probe's shared state** is the class `Workers.Probe`: the outcome
  object, the `outcomeSent` flag, and what was handed on.
- **Foreign code and I/O are parameters:**

  | source | model |
  |---|---|
  | HMAC-SHA256 | `hmac` |
  | `dns.resolve` of the check's hostname | `resolves(protocol, url)` |
  | gzip + base64 | a `Logs.Codec` of two partial functions, trusted only as far as `Logs.RoundTrips` says |
  | `JSON.parse` | its result, or `None` when it throws |
  | `JSON.stringify` | `stringify` |
  | the events the http/https request fires, per check | `network` |
  | Twilio's answer, per check id | `smsReply` |
  | `Math.random` | an arbitrary pick |
  | `Date.now()` | `now` |

## Model

| member | source | states |
|---|---|---|
| JsValues.Or | lib/handlers.js:502-504 | `a \|\| b` is `a` when `a` is truthy and `b` otherwise |
| JsValues.SetProp | lib/handlers.js:964-968 | after `r.key = v`, `key` reads `v`, every other property reads as before, and no new key appears |
| JsStrings.LeadEnd | lib/server.js:39 | the first position from `i` whose character fails the test: every character before it passes, and the one at it fails |
| JsStrings.TrailStart | lib/server.js:39 | the start of the longest run of passing characters that ends at `j`, never below `lo` |
| JsStrings.Strip | lib/server.js:39 | the result is the slice between the leading and trailing runs of passing characters; both runs consist only of passing characters; and the result neither begins nor ends with one |
| JsStrings.StripUnchanged | lib/server.js:39 | a string that neither begins nor ends with a passing character is returned unchanged |
| JsStrings.StripIdempotent | lib/server.js:39 | stripping twice is the same as stripping once |
| JsStrings.Trim | lib/handlers.js:398 | `trim()` returns the string minus its leading and trailing runs of ECMAScript white space, interior characters kept, and what it leaves neither begins nor ends with white space |
| JsStrings.TrimIdempotent | lib/workers.js:40 | trimming a trimmed string changes nothing, which is why re-validation keeps a saved id |
| JsStrings.TrimOfTrimmed | lib/helpers.js:64 | a string with no white space at either end is its own trim |
| JsStrings.IndexOfFrom | lib/logs.js:34 | the first occurrence of the pattern at or after `from`, or `None`, with no occurrence before it |
| JsStrings.IncludesIff | lib/logs.js:34 | `includes` holds exactly when the pattern occurs at some position |
| JsStrings.ReplaceFirst | lib/logs.js:35 | `replace` with a string pattern swaps only the first occurrence, and returns a string without one unchanged |
| JsStrings.ReplaceFirstSuffix | lib/workers.js:233 | a pattern that occurs only as the suffix is removed exactly, leaving the stem |
| JsStrings.ToLowerAscii | lib/server.js:45 | same length; every character lower-cased |
| JsStrings.ToUpperAscii | lib/workers.js:184 | same length; every character upper-cased |
| JsStrings.LowerIdempotent | lib/config.js:69 | lower-casing twice is lower-casing once |
| JsStrings.LowerOfLower | lib/config.js:69 | a string with no upper-case letter is its own lower case |
| JsStrings.NatToString | lib/workers.js:234 | `String(n)` is a non-empty string of decimal digits, with a leading `0` only for zero |
| JsStrings.NatToStringValue | lib/workers.js:234 | reading the digits back gives `n`: the rendering loses nothing |
| Validation.TrimmedString | lib/handlers.js:398 | a string field is trimmed, anything else becomes `''` |
| Validation.TrimmedOfLength | lib/handlers.js:400 | non-empty exactly when the value is a string of the given length once trimmed, and then it is that trim |
| Validation.OneOf | lib/handlers.js:806 | non-empty exactly when the value is one of the allowed strings (untrimmed), and then it is that string |
| Validation.NonEmptyArray | lib/handlers.js:809 | non-empty exactly when the value is a non-empty array, and then it holds that array's items |
| Validation.TimeoutSeconds | lib/handlers.js:810-816 | non-zero exactly when the value is a whole number from 1 to 5, and then it is that number |
| Validation.Boolean | lib/handlers.js:402 | true exactly when the value is the boolean `true` |
| DataStore.IdsIn | lib/workers.js:18 | the ids stored in one collection, exactly |
| DataStore.Store.Create | lib/handlers.js:416 | fails exactly when the id is taken, and otherwise adds the record |
| DataStore.Store.Read | lib/handlers.js:406 | returns the stored record exactly when there is one |
| DataStore.Store.Update | lib/handlers.js:507 | fails exactly when the id is absent, and otherwise replaces the whole record |
| DataStore.Store.Delete | lib/handlers.js:550 | fails exactly when the id is absent; afterwards the record is gone |
| DataStore.Store.List | lib/workers.js:18 | each id of the collection exactly once |
| Config.CurrentEnvironmentName | lib/config.js:69 | `''` when `NODE_ENV` is unset; the name never holds an upper-case letter |
| Config.Select | lib/config.js:9-72 | the export is one of the three tables, holding the name `NODE_ENV` gives or else staging; it allows 5 checks and serves HTTPS on the port after the HTTP one |
| Config.MissingSelectsStaging | lib/config.js:72 | no `NODE_ENV` selects staging |
| Config.UnknownSelectsStaging | lib/config.js:72 | a name that is not a table selects staging |
| Config.SelectIgnoresCase | lib/config.js:69 | selection is the same for a name and its lower-cased form |
| Config.SelectCaseInsensitive | lib/config.js:69 | two names that differ only in case select the same table |
| Config.EachNameSelectsItsTable | lib/config.js:72 | each of `staging`, `testing` and `production`, in any case, selects its own table |
| Config.SelectAsWritten | lib/config.js:72 | where the written lookup yields an environment, it is the one `Select` gives |
| Config.ConstructorExportsNoEnvironment | lib/config.js:72 | `NODE_ENV=CONSTRUCTOR` or `__proto__` exports an inherited member instead of an environment |
| Config.AsWrittenAgreesOffPrototype | lib/config.js:72 | away from the inherited member names, the written lookup equals the corrected one |
| Helpers.Hash | lib/helpers.js:15-22 | `''` for a non-string or empty input, and otherwise the HMAC of the input under the secret |
| Helpers.ParseJsonToObjectAsWritten | lib/helpers.js:25-33 | `{}` when parsing throws, and otherwise whatever the parse produced, `null` included |
| Helpers.NullBodyIsNotAnObject | lib/helpers.js:28 | a body of `null` is handed on as `null`, and reading a property of it throws |
| Helpers.ParseJsonToObject | lib/helpers.js:25-33 | always an object: the parsed object, or `{}` when parsing fails or yields a non-object |
| Helpers.ParseJsonToObjectAgrees | lib/helpers.js:25-33 | wherever the written helper already gives an object, the corrected one gives the same |
| Helpers.RandomStringLength | lib/helpers.js:37-45 | no characters for a non-number or non-positive length; otherwise at least the length, since a fractional length rounds up |
| Helpers.CreateRandomString | lib/helpers.js:36-58 | the length is `RandomStringLength`, so exactly `n` for a positive integer `n`; `''` for a non-positive or non-number length; every character is from `a-z0-9` |
| Helpers.SmsPhone | lib/helpers.js:63 | non-empty exactly when the phone is a string of 10 characters once trimmed, and then it is that trim |
| Helpers.SmsMessage | lib/helpers.js:64 | non-empty exactly when the message is a string of 1 to 1600 characters once trimmed, and then it is that trim |
| Helpers.SendTwilioSms | lib/helpers.js:61-115 | there is no request, and the error is "invalid parameters", exactly when the phone or the message fails validation; otherwise the request goes to `+1` + phone with the trimmed text, and succeeds exactly on status 200 or 201 |
| Logs.Contribution | lib/logs.js:33-41 | a directory entry adds no name exactly when it is neither a `.log` file nor, with compressed logs included, a `.gz.b64` file |
| Logs.TrimmedFilenames | lib/logs.js:31-42 | the listing: each directory entry's names, in directory order, as `Logs.Contribution` gives them; its membership is characterised by `Logs.ListedLogNames` and `Logs.ListedCompressedNames` |
| Logs.ListedLogNames | lib/logs.js:31-37 | without compressed logs, a name is listed exactly when some entry contains `.log` and becomes that name once the first `.log` is removed |
| Logs.ListedCompressedNames | lib/logs.js:39-41 | with compressed logs, every entry containing `.gz.b64` is also listed, with that pattern removed |
| Logs.ListingLength | lib/logs.js:31-37 | without compressed logs, the listing has one name per `.log` entry |
| Logs.LogDir.Append | lib/logs.js:17-25 | fails exactly when the directory is missing; otherwise the file becomes its old contents (empty if it was missing) followed by the string and a newline |
| Logs.LogDir.Readdir | lib/logs.js:29 | every file name exactly once, or an error when the directory is missing |
| Logs.LogDir.List | lib/logs.js:28-49 | an error for a missing directory, the empty listing passed through for an empty one, and otherwise the trimmed names in directory order |
| Logs.LogDir.Truncate | lib/logs.js:99-107 | a missing log is reported as an error and nothing changes; otherwise the log is empty |
| Logs.LogDir.Compress | lib/logs.js:52-75 | fails, writing nothing, when the log is missing or packing fails; otherwise writes the packed log as the snapshot; a log whose name differs from the snapshot's is never changed |
| Logs.LogDir.Decompress | lib/logs.js:78-96 | an error when there is no snapshot; otherwise whatever unpacking the snapshot gives, a failure included |
| Logs.CompressThenDecompress | lib/logs.js:52-96 | when the codec round-trips, decompressing a snapshot just written gives back the log's contents |
| Server.TrimPath | lib/server.js:39 | the trimmed path neither begins nor ends with `/`; it is the original path minus its leading and trailing runs of slashes, interior slashes kept |
| Server.TrimPathIdempotent | lib/server.js:39 | trimming a trimmed path changes nothing |
| Server.TrimPathKeepsInterior | lib/server.js:39 | a path with no slash at either end comes back unchanged, interior slashes included |
| Server.TrimPathDropsAddedSlashes | lib/server.js:39 | any number of slashes added at either end of a trimmed path are removed again |
| Server.LowerMethod | lib/server.js:45 | the method is lower-cased, with its length kept |
| Server.MethodCaseIgnored | lib/server.js:45 | a method spelled in any case that lower-cases to an accepted method is accepted by the dispatchers |
| Server.Lookup | lib/server.js:88-93 | exactly the paths `ping`, `users`, `tokens` and `checks` reach their handlers; every other path reaches `notFound` |
| Server.LookupAsWritten | lib/server.js:60 | where the written lookup finds a handler, it is the one `Lookup` gives |
| Server.ConstructorPathMissesNotFound | lib/server.js:60 | `/constructor`, with any slashes around it, finds an inherited member instead of `notFound` |
| Server.ProtoPathMissesNotFound | lib/server.js:60 | `/__proto__` finds an inherited member instead of `notFound` |
| Server.LookupAgreesOffPrototype | lib/server.js:60 | away from the inherited member names, the written lookup equals the corrected one |
| Server.SlashedIsNotARoute | lib/server.js:88-93 | a trimmed path holding a slash never names a route |
| Server.PingPathIsPing | test/api.js:49-58 | `/ping` reaches the ping handler, which answers 200 |
| Server.ApiUsersPathIsNotFound | test/api.js:61-70 | `/api/users` reaches `notFound`, which answers 404 |
| Server.SegmentedPathIsNotFound | test/api.js:73-82 | any path of two or more segments, `/this/path/shouldnt/exist` among them, reaches `notFound` |
| Server.DefaultStatus | lib/server.js:68 | a numeric status is kept, and anything else becomes 200 |
| Server.DefaultPayload | lib/server.js:71 | an object or array payload is kept, and anything else becomes `{}` |
| Server.DefaultPayloadIdempotent | lib/server.js:71 | defaulting twice is defaulting once |
| Server.Respond | lib/server.js:66-79 | the body written is always an object or an array |
| Server.UnifiedServer | lib/server.js:33-93 | the response written is the defaulted reply of the handler the trimmed path routes to, and that reply and the new store meet that handler's full postcondition (`Server.Served`); so an unknown path answers 404 and a ping answers 200, both without touching the store, and an unacceptable method on an API path answers 405, store unchanged; the body is always an object or an array |
| Server.Dispatch | lib/server.js:59-66 | the chosen handler is called with the request: ping and `notFound` answer without touching the store, and each API route meets its dispatcher's postcondition |
| Server.ServedPlainReplies | lib/server.js:59-66 | whatever meets `Server.Served` answers 404 for an unknown path and 200 for a ping, and 405 for an unacceptable method on an API path, in each case with the store unchanged |
| Handlers.Ping | lib/handlers.js:1062-1064 | always 200, with no payload |
| Handlers.NotFound | lib/handlers.js:1067-1069 | always 404, with no payload |
| Handlers.ContentType | lib/handlers.js:340-355 | `favicon` over `jpg` over `png` over `css` when the name mentions several, and `plain` exactly when it mentions none |
| Handlers.Users | lib/handlers.js:381-388 | post, get, put and delete each meet the full reply-and-store postcondition of the `_users` handler of that name (get changes nothing); any other method answers 405 and changes nothing |
| Handlers.Tokens | lib/handlers.js:598-605 | post, get, put and delete each meet the full reply-and-store postcondition of the `_tokens` handler of that name (get changes nothing); any other method answers 405 and changes nothing |
| Handlers.Checks | lib/handlers.js:789-796 | post, get, put and delete each meet the full reply-and-store postcondition of the `_checks` handler of that name (get changes nothing); any other method answers 405 and changes nothing |
| TokensApi.VerifyToken | lib/handlers.js:771-786 | false for an empty id, a falsy phone or an unknown token; otherwise true exactly when the token's phone is the phone and it has not expired |
| TokensApi.IssuedTokenVerifiesForAnHour | lib/handlers.js:634-636 | a token just issued verifies for its phone exactly until an hour after issue |
| TokensApi.VerifiedOwnerIsUnique | lib/handlers.js:781 | a token verifies for one phone only |
| TokensApi.ExpiryIsPermanent | lib/handlers.js:781 | a token that fails to verify at one time fails at every later time |
| TokensApi.Post | lib/handlers.js:613-676 | 400 for a missing phone or password; 400 for an unknown user; 401 when the hash does not match; in all three cases nothing is written; a match creates the token or answers 500 |
| TokensApi.CreateToken | lib/handlers.js:634-666 | on 200, a fresh 20-character id from `a-z0-9`, stored and returned, holding the phone and `expires = now + 3600000`; otherwise 500 with the store unchanged |
| TokensApi.Get | lib/handlers.js:681-700 | 400 for a malformed id, 404 for an unknown token, otherwise 200 with the stored token |
| TokensApi.Extended | lib/handlers.js:719 | `expires` becomes an hour after now, and every other property is kept |
| TokensApi.Put | lib/handlers.js:705-737 | 400 without a 20-character id and `extend: true`; 400 for an unknown token; 400 for an expired one; in all three cases the store is unchanged; a live token is extended and the reply is 200 |
| TokensApi.ExtendedTokenVerifies | lib/handlers.js:719 | an extended token verifies for its phone for the following hour |
| TokensApi.Delete | lib/handlers.js:742-768 | 400 for a malformed or unknown id, store unchanged; otherwise the token is removed and the reply is 200 |
| UsersApi.NewUser | lib/handlers.js:413 | the stored user holds no password, only its hash, and `tosAgreement: true` |
| UsersApi.Post | lib/handlers.js:396-435 | 400 "Missing required fields" unless every field is valid; 400 for a phone already registered; 500 when hashing gives `''`; nothing is written in any of these; otherwise the new user is stored and the reply is 200 |
| UsersApi.Get | lib/handlers.js:440-471 | 400 for a malformed phone; 403 unless the token verifies for it; 404 for an unknown user; otherwise 200 with the record minus `hashedPassword`, which is never returned |
| UsersApi.Merged | lib/handlers.js:502-504 | each supplied field replaces the stored one, an empty one keeps it, and every other property is kept |
| UsersApi.MergeKeepsIdentity | lib/handlers.js:502-504 | an update never changes the phone, the agreement or the list of checks |
| UsersApi.Put | lib/handlers.js:476-527 | 400 for a malformed phone; 403 unless the token verifies; 400 when no field is supplied; 400 for an unknown user; nothing changes in any of these; otherwise the merged record is stored and the reply is 200 |
| UsersApi.UserChecks | lib/handlers.js:555 | the user's `checks` when it is an array, and otherwise no checks; `ChecksApi.WithCheck` and `ChecksApi.WithoutCheck` state how the list grows and shrinks |
| UsersApi.CheckKeys | lib/handlers.js:562-566 | the check records named by the string ids in the user's list |
| UsersApi.Delete | lib/handlers.js:531-595 | the 400, 403 and 400 refusals change nothing; otherwise the user and every listed check are removed; the reply is 200 exactly when no check deletion failed, and 500 with the cascade message otherwise; the 500 for a failed user deletion is modelled and shown unreachable right after a successful read |
| UsersApi.CascadeIgnoresUsers | lib/handlers.js:550-562 | removing the user first does not change which check deletions fail |
| UsersApi.DeleteChecks | lib/handlers.js:555-580 | every listed check is removed, and the error flag is set exactly when some deletion failed (a non-string id, an unknown check, or a repeat) |
| ChecksApi.CheckRecord | lib/handlers.js:849 | the new check holds its id and the owner's phone, an accepted protocol and method, a non-empty url, a non-empty list of success codes, and a whole-number timeout from 1 to 5 |
| ChecksApi.WithCheck | lib/handlers.js:857-858 | the owner's list becomes the old list with the new id appended; every other property is kept |
| ChecksApi.Post | lib/handlers.js:804-888 | 400 for invalid fields; 403 for a missing token, an expired token, or a token without a user; past those, the owner's quota, DNS and create steps decide; the store is unchanged unless the reply is 200 |
| ChecksApi.CreateWithToken | lib/handlers.js:823-884 | 403 "Missing or invalid token", "Token has expired", or "There is no user associated with the provided token", in that order; otherwise the owner step decides |
| ChecksApi.CreateForOwner | lib/handlers.js:836-877 | an owner at `maxChecks` or more gets 400 with the quota in the text; an unresolved hostname gets 400; otherwise 200 with the check added, or 500; a 200 only ever happens below the quota |
| ChecksApi.StoreNewCheck | lib/handlers.js:846-868 | on 200, a fresh random id: the check is stored under it and returned, and the id is appended to the owner's list; otherwise 500 with the store unchanged |
| ChecksApi.Get | lib/handlers.js:893-924 | 400 for a malformed id, 404 for an unknown check, 403 unless the token verifies for the check's owner, otherwise 200 with the check |
| ChecksApi.MergedCheck | lib/handlers.js:964-968 | each supplied field replaces the stored one, an empty one keeps it, and every other property is kept |
| ChecksApi.MergeKeepsOwner | lib/handlers.js:964-968 | an update never changes the check's owner or id |
| ChecksApi.SameOutsideUpdatable | lib/handlers.js:849 | two created checks with the same id and owner agree on every property an update cannot set |
| ChecksApi.SameAtUpdatable | lib/handlers.js:964-968 | an update with a field supplied stores that field exactly as a create would |
| ChecksApi.FullUpdateMatchesCreate | lib/handlers.js:964-968 | an update supplying every field turns a created check into the check a create with those fields stores |
| ChecksApi.Put | lib/handlers.js:929-990 | 400 for a malformed id, and 400 when no field is supplied, both with the store unchanged; otherwise the lookup step decides |
| ChecksApi.UpdateCheck | lib/handlers.js:951-983 | 400 for an unknown check; 403 unless the token verifies for its owner; both change nothing; otherwise the merged check is stored and the reply is 200 |
| ChecksApi.FirstIndex | lib/handlers.js:1031 | `indexOf` finds the first position holding the id |
| ChecksApi.RemoveFirst | lib/handlers.js:1033 | `splice` shortens the list by one, keeping every entry before the first occurrence in place and shifting every entry after it down by one |
| ChecksApi.RemoveFirstRemovesOne | lib/handlers.js:1031-1033 | exactly one occurrence of the id is removed and every other entry is kept; no occurrence is left when there was only one |
| ChecksApi.WithoutCheck | lib/handlers.js:1028-1036 | the owner's list loses the first occurrence of the id, and every other property is kept |
| ChecksApi.Delete | lib/handlers.js:995-1059 | 400 for a malformed or unknown id, and 403 unless the token verifies, all with the store unchanged; otherwise the check is removed and the owner step decides |
| ChecksApi.Unlist | lib/handlers.js:1021-1046 | 500, changing nothing, when the owner is missing or the id is not on its list; otherwise 200, with the id's first occurrence removed from the owner's list |
| Workers.IdField | lib/workers.js:40 | truthy exactly when the stored id is a string of 20 characters once trimmed, and then it is that trim; otherwise `false` |
| Workers.PhoneField | lib/workers.js:41-42 | truthy exactly when the stored phone is a string of 10 characters once trimmed, and then it is that trim; otherwise `false` |
| Workers.ProtocolField | lib/workers.js:43-44 | truthy exactly when the protocol is `http` or `https`, and then it is kept as it is; otherwise `false` |
| Workers.UrlField | lib/workers.js:45 | a string url is trimmed, and is truthy exactly when the trim is non-empty; anything else becomes `false` |
| Workers.MethodField | lib/workers.js:46-49 | truthy exactly when the method is one of the four accepted, and then it is kept as it is; otherwise `false` |
| Workers.SuccessCodesField | lib/workers.js:50-51 | truthy exactly when the success codes are a non-empty array, and then they are kept; otherwise `false` |
| Workers.TimeoutField | lib/workers.js:52-58 | truthy exactly when the timeout is a whole number from 1 to 5, and then it is kept; otherwise `false` |
| Workers.StateField | lib/workers.js:61-62 | `up` or `down`, and `up` exactly when the stored state is `up` |
| Workers.LastCheckedField | lib/workers.js:63-64 | `false` or a positive number, and a number only when it is the stored one |
| Workers.Others | lib/workers.js:39-64 | the properties validation does not rewrite, with the same values |
| Workers.ToRecord | lib/workers.js:163-165 | the object as saved: `state` and `lastChecked` as computed, and every other property the validated check had |
| Workers.Validated | lib/workers.js:38-64 | `state` is `up` or `down`, defaulting to `down`; `lastChecked` is `false` or the stored positive number; a check that passes the gate has every field in its validated form; other properties are kept |
| Workers.Performable | lib/workers.js:67-75 | the gate in front of the probe: all seven validated fields are truthy; `Workers.GateMeaning` proves it equals the seven field tests |
| Workers.GateMeaning | lib/workers.js:67-75 | the gate passes exactly when the stored id, phone, protocol, url, method, success codes and timeout each pass their own test |
| Workers.ValidateCheckData | lib/workers.js:38-80 | rewrites the stored record into its validated form; it goes on to be probed exactly when the gate passes, and then every field is well formed |
| Workers.Fired | lib/workers.js:110-143 | a response records its status code and keeps the error; an error or timeout records an error and keeps the code |
| Workers.Probe.constructor | lib/workers.js:85-91 | the outcome starts with no error and no code, and nothing has been handed on |
| Workers.Probe.Deliver | lib/workers.js:117-120 | the outcome is handed on only if it was not already, and `outcomeSent` is then set |
| Workers.Probe.OnResponse | lib/workers.js:110-121 | records the status code, then hands on the outcome unless it was already handed on |
| Workers.Probe.OnError | lib/workers.js:124-132 | records the error, then hands on the outcome unless it was already handed on |
| Workers.Probe.OnTimeout | lib/workers.js:135-143 | records the timeout, then hands on the outcome unless it was already handed on |
| Workers.RunProbe | lib/workers.js:83-147 | whatever events fire and in whatever order, at most one outcome is handed on: the one the first event produced, and none when no event fires |
| Workers.AlertWarranted | lib/workers.js:156 | an alert is warranted exactly when the check has a truthy `lastChecked` and its stored state differs from the new one; its consequences are proved by `Workers.FirstCheckNeverAlerts`, `Workers.RepeatedOutcomeDoesNotAlert` and `Workers.ChangeAfterCheckAlerts` |
| Workers.NewState | lib/workers.js:153 | the new state is `up` or `down` |
| Workers.FailedRequestIsDown | lib/workers.js:153 | a probe whose first event is an error or timeout leaves the check down |
| Workers.ResponseStateMeaning | lib/workers.js:153 | after a first response the check is up exactly when the status is non-zero and one of its success codes |
| Workers.FirstCheckNeverAlerts | lib/workers.js:156 | a check that has never been checked raises no alert, whatever its outcome |
| Workers.Processed | lib/workers.js:163-165 | the saved check is the validated one with only `state` set to the new state and `lastChecked` to the time of the check |
| Workers.RepeatedOutcomeDoesNotAlert | lib/workers.js:156 | once an outcome is saved, the same outcome again raises no alert |
| Workers.ChangeAfterCheckAlerts | lib/workers.js:156 | after an earlier check, any outcome that changes the state raises an alert |
| Workers.AlertMessage | lib/workers.js:184 | the message starts with `Alert: Your check for ` and ends with ` is currently ` and the state |
| Workers.AlertNamesTheState | lib/workers.js:184 | the message for an up check differs from the one for a down check |
| Workers.ErrorValue | lib/workers.js:124-137 | the logged `error` is `false` exactly when the request raised none |
| Workers.AppendingKeepsContents | lib/logs.js:18 | appending to a file keeps what every file already held |
| Workers.LogData | lib/workers.js:197-203 | the log record: the check as it was before the outcome, the outcome's error and response code, the new state, the alert decision and the time |
| Workers.LogLine | lib/workers.js:205-206 | the stringified log record for an outcome, with the state and alert decision computed as `processCheckOutcome` computes them |
| Workers.Log | lib/workers.js:195-219 | `<id>.log` gains the stringified log record and a newline; no other file changes, and nothing is written when the directory is missing |
| Workers.AlertUserToStatusChange | lib/workers.js:183-192 | the outcome is what `sendTwilioSms` gives for the check's phone and the alert message |
| Workers.AlertMessageIsTrimmed | lib/workers.js:184 | the alert message has no white space to trim at either end |
| Workers.AlertSentIffItFits | lib/workers.js:184-185 | for a validated check, the SMS request is made exactly when the alert fits 1600 characters, and then goes to `+1` + phone with the text unchanged |
| Workers.LongUrlNeverAlerts | lib/workers.js:185 | a check whose url is over 1600 characters never alerts: the helper refuses the message |
| Workers.ProcessCheckOutcome | lib/workers.js:151-180 | appends the log line, with the check as it was before; saves the processed check when that check is stored; sends an SMS exactly when the save worked and an alert is warranted |
| Workers.SavedId | lib/workers.js:163-168 | the saved record holds the validated id |
| Workers.SavedUserPhone | lib/workers.js:163-168 | the saved record holds the validated phone |
| Workers.SavedProtocol | lib/workers.js:163-168 | the saved record holds the validated protocol |
| Workers.SavedUrl | lib/workers.js:163-168 | the saved record holds the validated url |
| Workers.SavedHttpMethod | lib/workers.js:163-168 | the saved record holds the validated method |
| Workers.SavedSuccessCodes | lib/workers.js:163-168 | the saved record holds the validated success codes |
| Workers.SavedTimeoutSeconds | lib/workers.js:163-168 | the saved record holds the validated timeout |
| Workers.SavedOthers | lib/workers.js:163-168 | the other properties come back unchanged from the saved record |
| Workers.SettledRevalidates | lib/workers.js:38-64 | validating the saved form of a settled check gives that check back |
| Workers.IdFieldSettles | lib/workers.js:40 | validating a validated id changes nothing |
| Workers.PhoneFieldSettles | lib/workers.js:41-42 | validating a validated phone changes nothing |
| Workers.UrlFieldSettles | lib/workers.js:45 | validating a validated url changes nothing |
| Workers.ValidatedIsSettled | lib/workers.js:38-64 | whatever validation produces is already in validated form |
| Workers.ProcessedIsSettled | lib/workers.js:163-165 | saving an outcome keeps a check in validated form |
| Workers.ValidationIdempotent | lib/workers.js:38-64 | validating, saving and validating again gives the first result |
| Workers.SavedCheckRevalidates | lib/workers.js:163-168 | the next sweep reads a saved check back as exactly the check that was saved |
| Workers.Saved | lib/workers.js:168 | the save changes only the record under the check's own id, stamping it with the time and an up/down state |
| Workers.SweepOne | lib/workers.js:20-29 | one check's turn keeps the set of records and every user and token, and stamps each changed record with the time and an up/down state |
| Workers.Swept | lib/workers.js:16-35 | the whole sweep keeps the set of records and every user and token, and stamps each changed check with the time and an up/down state |
| Workers.CheckOne | lib/workers.js:20-29 | one listed id: the store changes exactly as `Workers.SweepOne` describes, the log directory exactly as `Workers.SweepOneLogs` describes (nothing written for a check that is missing, fails the gate or fires no event), and the alert sent is exactly `Workers.SweepAlert` of the store before the turn |
| Workers.SweepAlert | lib/workers.js:149-183 | an id with no stored check sends nothing; otherwise an alert goes out exactly when the validated check is performable, the probe fired an event, the save finds the check under its own id, and the computed state differs from a stored state that was checked before; the alert is the Twilio request for the owner's phone with the status-change message |
| Workers.CheckAlert | lib/workers.js:149-183 | for a performable check and the probe's events: an alert goes out exactly when an event fired, the check is stored under its validated id and the alert is warranted, and it is the SMS of the status-change message |
| Workers.SweepAlerts | lib/workers.js:16-35 | a sweep sends at most one alert per listed id, each computed on the store as the sweep had left it |
| Workers.GatherAllChecks | lib/workers.js:16-35 | lists every stored check exactly once and processes them in that order, so the store changes exactly as `Workers.Swept` describes and the log directory exactly as `Workers.SweptLogs` describes; log files are only appended to; the alerts sent are exactly `Workers.SweepAlerts` of the listing |
| Workers.SweepOneLogs | lib/workers.js:67-79 | one check's turn appends to its files only: a check that is missing, fails the gate or fires no event writes nothing, and a processed check appends exactly its log line and a newline to `<id>.log` under its validated id (lib/workers.js:159-160, 195-219); nothing at all without a directory |
| Workers.SweptLogs | lib/workers.js:16-35 | the log directory after a sweep is the fold of `Workers.SweepOneLogs` over the listing, each turn on the store as the sweep left it, and earlier contents are kept as prefixes |
| Workers.SweptLogsWithoutDirectory | lib/workers.js:212 | without a log directory a whole sweep writes no file |
| Workers.SweptKeepsUnreached | lib/workers.js:16-35 | a sweep leaves the record of an id it has not reached yet unchanged |
| Workers.NoAlertsForUncheckedStore | lib/workers.js:150-156 | a sweep over distinct ids sends no alert when no stored check carries a positive `lastChecked` and each performable one sits under its own validated id |
| Workers.SnapshotId | lib/workers.js:234 | a snapshot's id is the log id, a dash and the decimal time; `Workers.SnapshotIsNotALog` proves its file never collides with a log |
| Workers.RotatedId | lib/workers.js:233 | the second `.replace('.log', '')` on a listed name: a name without `.log` is unchanged, and otherwise exactly the four characters of the first `.log` are removed |
| Workers.SnapshotIsNotALog | lib/workers.js:234-235 | a snapshot's file name is never a log's file name |
| Workers.RotateOne | lib/workers.js:233-248 | rotating one log never removes a file; when the log is missing or cannot be packed nothing changes; otherwise exactly the snapshot is added, holding the packed contents, the log is emptied, and every other file is kept |
| Workers.RotationKeepsContents | lib/workers.js:235-240 | a rotation changes nothing, or empties the log only after writing a snapshot that unpacks to its old contents |
| Workers.Rotations | lib/workers.js:231-249 | rotating every listed log, one after the other, never removes a file |
| Workers.FailedRotationIsSkipped | lib/workers.js:236-247 | a log whose rotation fails leaves the directory as if that log had not been listed, so one failure does not disturb the other rotations |
| Workers.SameStartSameRotations | lib/workers.js:231-249 | two listings that leave the directory the same still do so after the same further logs are rotated |
| Workers.RotateLogs | lib/workers.js:227-254 | lists the uncompressed logs and rotates each in the listed order; with no listing nothing changes |

## Left out

- I/O and concurrency:
  - The http/https probe, DNS, Twilio, the file system and `JSON.parse`/`stringify` enter as parameters.
  - The callbacks of the `forEach` sweeps (`gatherAllChecks`, `rotateLogs`, the user-delete cascade) run in source order, one after the other. Interleavings of their callbacks are not modelled.
- Timers: the `setInterval` loops and `workers.init` are not modelled (they only start the sweeps).
- Clock: each handler call and each sweep reads the clock once, as `now`. In the source, `processCheckOutcome` reads `Date.now()` once per outcome (lib/workers.js:159), so within one sweep the checks get different `lastChecked` values and log times; `Workers.Saved`, `Workers.SweepOne`, `Workers.Swept` and `Workers.SweptLogs` stamp every check of a sweep with the one `now`. `rotateLogs` calls `Date.now()` once per log, so two snapshots from one rotation may carry different timestamps. There is no timestamp subtraction anywhere.
- `new URL` parsing:
  - Its ability to throw (an invalid url in `checks.post` or `performCheck`) is not modelled.
  - The hostname/path split is inside the `resolves` and `network` parameters.
- Workers.RunProbe: the callbacks share one outcome object. An event after the first still mutates it, after `processCheckOutcome` has read it. The model hands on a snapshot of the outcome as it stood at the first event, which is what the state, alert and log computations read synchronously.
- Workers.ValidateCheckData: the source overwrites the properties of `originalCheckData` in place. The model builds the validated check as a value (`CheckData`). Nothing else holds a reference to that object, so no aliasing is lost.
- `validateCheckData`'s fallback to `{}` for a non-object is not modelled. The store keeps only objects.
- Workers.Log, Workers.ProcessCheckOutcome: a log line is `stringify` of the log record. What `JSON.stringify` drops (properties holding `undefined`) depends on `stringify`.
- JsValues.SetProp: assigning `undefined` removes the property. After a JSON round trip through the store the two are the same.
- Lookups with a non-string id or phone (a check id inside a user's list, a token's `phone`) count as failed lookups. The source would coerce them into a file name.
- JsStrings.ToLowerAscii, JsStrings.ToUpperAscii: only ASCII letters are case-mapped.
- String lengths count UTF-16 code units in JavaScript. Here they count code points. The two differ only outside the Basic Multilingual Plane.
- TokensApi.NotExpired: compares only a numeric `expires`. JavaScript would coerce a string.
- The Twilio credentials and the page template globals in `lib/config.js` come from the process environment or feed only the HTML pages.
- The HTML page handlers and `handlers.public`'s asset reading need template and asset helpers that are not part of this model. Only the content-type choice is modelled.
- The `perf_hooks` marks and measures in `_tokens.post` only log timings.
- Server plumbing (listening, TLS keys, body buffering, the response write and its log line) is not modelled. `index.js` and the other entry points are not modelled either.
- Handler branches that cannot be reached once the record was just read (a failing update or delete right after a successful read) are modelled, and shown unreachable.
- Server.UnifiedServer: it composes the corrected `Helpers.ParseJsonToObject` and `Server.Lookup` (see Findings). As written, the source never answers `/constructor` or `/toString`, throws on `/__proto__`, and throws at lib/handlers.js:398 on a `null` POST or PUT body; in those cases the model answers 404, or the handler's 400 for a missing field.
- An alert over 1600 characters (a url over about 1550 characters) is refused by `sendTwilioSms`. `Workers.LongUrlNeverAlerts` states this as a property of the code.

## Where the code departs from its design

The model follows the code in each of these cases.

- A login for an unknown phone answers 400, not an authorization failure. Only a password mismatch answers 401.
- A timed-out probe records the error `{error: true, value: 'timeout'}`.
- An outcome's log line is appended first, before the check is saved, and it describes the check as it was before the outcome.
- A check's outcome is saved only if its validated id names a stored check. Otherwise `_data.update` fails, and no alert is sent.
- A status code of `0` never counts as up, even when it is listed among the success codes.
- `test/api.js` expects `/api/users` to answer 400. The router has no `api/` prefix, so that path reaches `notFound` and answers 404 (`Server.ApiUsersPathIsNotFound`).
- Probes within a sweep are not bounded in number, and writes to one record are not serialised. The model runs the sweep's callbacks one after the other.

## Findings

| source | as written | input that shows it | evidently intended | confidence | as-written member | corrected member |
|---|---|---|---|---|---|---|
| lib/helpers.js:25-33 | `parseJsonToObject` returns whatever `JSON.parse` yields, `null` included | a request body of `null`: every handler's first `data.payload.<field>` throws a TypeError in the request's `end` callback | an object in all cases, `{}` when the body is not a JSON object | high; not executed | Helpers.ParseJsonToObjectAsWritten (shown by Helpers.NullBodyIsNotAnObject) | Helpers.ParseJsonToObject (agreement proved by Helpers.ParseJsonToObjectAgrees) |
| lib/server.js:60 | `server.router[trimmedPath]` on an object literal finds members inherited from `Object.prototype` | `GET /constructor` calls `Object(data, callback)`, which never calls back, so no response is sent; `GET /__proto__` finds a non-callable object and throws | every path other than the four routes reaches `notFound` and answers 404 | high; not executed | Server.LookupAsWritten (shown by Server.ConstructorPathMissesNotFound and Server.ProtoPathMissesNotFound) | Server.Lookup (agreement proved by Server.LookupAgreesOffPrototype) |
| lib/config.js:72 | `environments[currentEnvironment]` on an object literal finds inherited members | `NODE_ENV=CONSTRUCTOR` exports the `Object` function, so `httpPort`, `hashingSecret` and `maxChecks` are `undefined` | a name that is not one of the three tables selects staging | high; not executed | Config.SelectAsWritten (shown by Config.ConstructorExportsNoEnvironment) | Config.Select (agreement proved by Config.AsWrittenAgreesOffPrototype) |

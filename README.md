# bugzilla_query in Dafny

A model of the core of `bugzilla_query`, a Rust client for the Bugzilla REST
API. The model covers three parts of the library.

- **The client** (`src/access.rs`) is a `BzInstance` class. It holds the host,
  the authentication method, the pagination mode and the requested fields.
  Its setters update it in place. It builds the request URL
  `host/rest/bug?<method><include_fields><limit>` and turns the server's
  reply into bugs or an error: `bugs`, `bug` and `search`.
- **The records** (`src/bug_model.rs`) are `Bug`, `User`, `Flag` and the
  `Response` envelope. Each has the decoding rule that its serde derive gives
  it, including the flatten catch-all `extra`. The untagged `OneOrMany`
  field has its own decoding and `into_vec`.
- **The flag lookup** (`src/bug_methods.rs`) is `Bug::get_flag`.

JSON is an abstract value (`Json.Value`) that is already parsed. The HTTP
transport is a parameter, `Access.Server`: a function from the request sent
(URL and authorization) to the JSON body received or a transport failure.
`Text.Join` and `Text.Decimal` model Rust's `join(",")` and `format!("{n}")`.
The library never splits a string: `Text.Split` is the inverse of `Join`, and
it is used only to state that the parameters of a URL can be read back.

Files:

- `results.dfy` defines `Option` and `Result`.
- `json.dfy` defines JSON values and `extra`.
- `text.dfy` defines the string helpers.
- `bug_model.dfy` defines the records and their decoding.
- `bug_methods.dfy` defines the flag lookup.
- `access.dfy` defines the client.

## Model

| member | source | states |
|---|---|---|
| `Text.Join` | src/access.rs:85 | `join` with one separator: no parts give `""`; the first part comes first; with two or more parts, the separator follows the first part. |
| `Text.SplitJoin` | src/access.rs:85 | Splitting the result of `join(",")` at the separator gives back the parts in order, when no part contains the separator. |
| `Text.JoinSplit` | src/access.rs:140 | Joining the pieces of a split gives back the string, for every string. |
| `Text.JoinAvoids` | src/access.rs:140 | A character that is absent from every part and is not the separator is absent from the join. |
| `Text.Decimal` | src/access.rs:69 | `format!("{n}")` of a number is a non-empty string of decimal digits with no leading zero: a string starting with `0` is exactly `"0"`. |
| `Text.ParseDecimalOfDecimal` | src/access.rs:69 | Reading the decimal rendering back gives the number. |
| `Json.Extra` | src/bug_model.rs:132-133 | The flatten catch-all holds exactly the object's keys that no named field consumes, each with its value unchanged. |
| `BugModel.Strings` | src/bug_model.rs:55 | An array gives a list of strings exactly when every element is a string; the list has the same length and the same strings in order. |
| `BugModel.DecodeOneOrMany` | src/bug_model.rs:49-56 | Untagged decoding succeeds exactly on `null`, a string, or an array of strings. A decoded value re-encodes to the JSON it came from. |
| `BugModel.DecodeToJson` | src/bug_model.rs:49-56 | Every variant survives the trip through its JSON shape: `None` as `null`, `One` as a string, `Many` as an array. |
| `BugModel.OneOrMany.IntoVec` | src/bug_model.rs:58-66 | Lists every item of the field whatever its shape: none for `None`, the one string for `One`, and the list itself, with its length and order, for `Many`. |
| `BugModel.IntoVecOfDecoded` | src/bug_model.rs:58-66 | `into_vec` of a decoded field gives `[]` for `null`, `[s]` for a string, and the array's strings in order for an array. |
| `BugModel.IntoVecNotInjective` | src/bug_model.rs:50-66 | Equality is structural: `One(s) != Many([s])`, yet both give the same `into_vec`. |
| `BugModel.Field` | src/bug_model.rs:81-134 | A non-`Option` field decodes exactly when its key is present, from the value under that key. Otherwise the error is a missing field naming that key. |
| `BugModel.OptionalField` | src/bug_model.rs:31-33 | An `Option<T>` field is `None` exactly when its key is absent or `null`. Otherwise it is the value under the key. |
| `BugModel.OptionalStringField` | src/bug_model.rs:32 | An `Option<String>` field decodes exactly when it is absent, `null` or a string. It is `None` exactly for absent or `null`, and otherwise holds the string sent. |
| `BugModel.OptionalU32Field` | src/bug_model.rs:31 | An `Option<u32>` field decodes exactly when it is absent, `null` or a number in the `u32` range. It is `None` exactly for absent or `null`, and otherwise holds the number sent. |
| `BugModel.TimestampField` | src/bug_model.rs:154-155 | A timestamp decodes exactly when a string is under its key, and keeps that string. |
| `BugModel.Require` | src/bug_model.rs:81-134 | A bug object passes exactly when every non-`Option` field's key is present. Otherwise the error names a required key that is missing. |
| `BugModel.StringField` | src/bug_model.rs:89-90 | A `String` field decodes exactly when a JSON string is under its key, and gives that string. |
| `BugModel.I32Field` | src/bug_model.rs:85 | An `i32` field decodes exactly when a JSON number in the 32-bit signed range is under its key, and gives that number. |
| `BugModel.OneOrManyField` | src/bug_model.rs:82 | A `OneOrMany` field decodes exactly when its key is present with a decodable value, and re-encodes to that value. |
| `BugModel.DecodeArray` | src/bug_model.rs:34 | A `Vec<T>` decodes exactly when every element decodes. The result has one element per array element, in order. |
| `BugModel.DecodeFlag` | src/bug_model.rs:150-162 | A flag decodes exactly from an object with every named field of its declared type, where `requestee` may be absent or `null`. Every kept field (`id`, `type_id`, both dates, `name`, `status`, `setter`, `requestee`) is what the server sent. Its `extra` holds every key except the eight named ones. |
| `BugModel.DisplaySplitsAtColon` | src/bug_model.rs:164-168 | The display is `name: status`: when neither part contains a colon, it splits at the only colon into the name and `" " + status`. |
| `BugModel.Flag.Display` | src/bug_model.rs:164-168 | The display is the name, then `": "`, then the status, and nothing else. |
| `BugModel.DecodeUser` | src/bug_model.rs:137-145 | A user decodes exactly from an object with `email`, `id`, `name` and `real_name` of their declared types. Those four fields are what the server sent. Its `extra` holds every other key. |
| `BugModel.FlagsField` | src/bug_model.rs:128-129 | `flags` absent or `null` is `Ok(None)`, never an error. Otherwise it decodes exactly when it is an array of decodable flags, and then holds those flags one for one, in order. |
| `BugModel.DecodeBug` | src/bug_model.rs:78-134 | A decoded bug comes from an object. Its `id`, `status`, `summary`, `alias`, `component` and `version` are what the server sent under those keys. `creator_detail` is the user decoded from the object sent under it. `flags` is present exactly when sent non-null. `extra` holds the unnamed keys. |
| `BugModel.DecodeBugShape` | src/bug_model.rs:78-134 | A bug object decodes exactly when every required key is present, the modelled fields have their declared shape, `creator_detail` is a user, and `flags` is absent, `null` or an array of flags. |
| `BugModel.BugFlagsFromServer` | src/bug_model.rs:129 | A decoded bug's flags are the flag objects sent under `flags`, one for one and in the server's order. |
| `BugModel.MissingRequiredKey` | src/bug_model.rs:81-134 | An object without a required key is refused. The model's error is a missing field naming a required key. |
| `BugModel.BugExtraPassthrough` | src/bug_model.rs:132-133 | A key is in a decoded bug's `extra` exactly when the object has it and no named field consumes it; its value is kept verbatim. |
| `BugModel.CustomKeyIsUnnamed` | src/bug_model.rs:81-131 | No named bug field starts with `cf_`, the prefix of Bugzilla's custom fields. |
| `BugModel.CustomFieldInExtra` | tests/integration.rs:45-75 | A custom `cf_...` field of a decoded bug, such as `cf_release_notes`, is in `extra` with its value unchanged, `\r\n` endings included. |
| `BugModel.DecodeResponse` | src/bug_model.rs:29-37 | A reply decodes exactly when it is an object whose `offset`, `limit` and `total_matches` are absent, `null` or of their types, and whose `bugs` is an array of decodable bugs. Its `extra` holds every key except those four. |
| `BugModel.ResponseKeepsServerOrder` | src/bug_model.rs:34 | The decoded bugs are the server's bug objects, one for one and in the server's order. |
| `BugMethods.FindFlag` | src/bug_methods.rs:33-34 | `find` on the flag list: `None` exactly when no flag has the name; otherwise the status of a flag with that name and no earlier one. |
| `BugMethods.GetFlag` | src/bug_methods.rs:28-35 | Requires the flags to be present (the source panics otherwise). `None` exactly when no flag has the name. A result is the status of a flag with that name. When a flag with the name is at index `i`, the result comes from an index `j <= i`, so the first flag wins. |
| `BugMethods.FlagStatusFromServer` | src/bug_methods.rs:28-35 | On a bug decoded from a reply, a status that `get_flag` finds is the `status` string of a flag object the server sent with that `name`. |
| `Access.AuthorizationFor` | src/access.rs:160-164 | Anonymous sends no credentials. An API key becomes the header value `Bearer <key>`. Basic passes the user and password on. |
| `Access.Pagination.UrlFragment` | src/access.rs:64-72 | Empty exactly for `Default`. Otherwise it is `&limit=` followed by a non-empty decimal number with no leading zero, and for `Unlimited` it is exactly `&limit=0`. |
| `Access.PaginationLimit` | src/access.rs:64-72 | `Default` adds no fragment. `Limit(n)` makes the server read `limit` `n`, and `Unlimited` makes it read `0`. |
| `Access.UnlimitedIsLimitZero` | src/access.rs:66-72 | `Unlimited` and `Limit(0)` give the same fragment. |
| `Access.Method.UrlFragment` | src/access.rs:82-88 | The ID method starts with `id=`. A search query is passed as is. |
| `Access.IdsParameter` | src/access.rs:82-88 | The ID method is `id=` followed by the IDs, which split back at `,` into the requested IDs in the caller's order. |
| `Access.Received` | src/access.rs:180-193 | A transport or decode failure is passed through. A reply with no bugs is the `NoBugs` error. Otherwise the result is exactly the reply's bugs, and never empty. |
| `Access.ErrorReportIsDecodeFailure` | src/access.rs:180-184 | The HTTP status is not checked, so Bugzilla's error report `{"error": true, "code": ..., "message": ...}` fails as a decode error: `bugs` is missing. |
| `Access.First` | src/access.rs:203 | The first bug of the list, or `NoBugs` exactly when the list is empty. |
| `Access.SplitAfterParameter` | src/access.rs:147-155 | Appending `&` and one more parameter adds exactly that parameter to the query's `&`-separated list. |
| `Access.BzInstance.At` | src/access.rs:94-107 | Keeps the host verbatim, anonymous, default pagination, fields `["_default"]`. |
| `Access.BzInstance.Authenticate` | src/access.rs:109-114 | Replaces the authentication and leaves the other fields unchanged. |
| `Access.BzInstance.Paginate` | src/access.rs:116-121 | Replaces the pagination and leaves the other fields unchanged. |
| `Access.BzInstance.IncludeFields` | src/access.rs:123-132 | Overwrites the field list, without merging, and leaves the other fields unchanged. |
| `Access.BzInstance.FieldsAsQuery` | src/access.rs:134-142 | The fields fragment is empty exactly when no field is requested. |
| `Access.BzInstance.Path` | src/access.rs:144-155 | The URL starts with `host/rest/bug?`. A search query follows it verbatim. |
| `Access.BzInstance.AuthenticatedGet` | src/access.rs:157-166 | A GET of exactly the given URL. It carries no credentials when anonymous, the header `Bearer <key>` for an API key, and the user and password for basic authentication. |
| `Access.BzInstance.Bugs` | src/access.rs:168-194 | No IDs means `Ok([])` and no request. Otherwise it sends one authenticated GET of the ID path, and the result is the checked reply. |
| `Access.BzInstance.Bug` | src/access.rs:196-204 | Succeeds exactly when the one-ID query does, with its first bug. It fails with that query's error otherwise, so it never succeeds on an empty reply. |
| `Access.BzInstance.Search` | src/access.rs:206-227 | One authenticated GET of the search path, with no shortcut for an empty query, and the same empty-means-`NoBugs` rule. |
| `Access.IncludeFieldsParameter` | src/access.rs:134-142 | A non-empty field list becomes `&include_fields=` followed by the fields, which split back at `,` into the configured list in order. |
| `Access.FieldsFragmentParameters` | src/access.rs:134-142 | The fields fragment adds the `include_fields` parameter to the query, and only when some field is requested. |
| `Access.PaginationFragmentParameters` | src/access.rs:64-72 | The pagination fragment adds a `limit` parameter unless the mode is the default. |
| `Access.PathParameters` | src/access.rs:144-155 | Split at `&`, the URL's query is the method's parameters, then `include_fields` (when fields are requested), then `limit` (unless the pagination is the default), in that order. |

## Left out

- The HTTP transport is a parameter. This covers `reqwest`, TLS, `send().await` and `.json::<Response>()`'s byte parsing. The client never checks the HTTP status, so the model does not either: an error reply's JSON body goes to the decoder. async/await and the `log::debug!` calls have no logic to model.
- Basic authentication is carried as user and password. Its base64 encoding into a header is done by the transport and is not modelled.
- JSON numbers are integers only. Floating point is not modelled, and no named field the model decodes is a float.
- BugModel.TimestampField: `chrono` parsing of `DateTime`/`NaiveDate` is not modelled. Timestamps are kept as the text the server sent, so the model accepts any string. chrono refuses a malformed timestamp: a flag whose `creation_date` is `"x"` decodes in the model but fails in the library.
- BugModel.DecodeBug: only `alias`, `id`, `creator_detail`, `summary`, `status`, `component`, `version`, `flags` and `extra` are decoded and kept. For the other non-`Option` fields, only the presence of the key is checked, not the type of its value. The other `Option` fields are consumed, so they never reach `extra`, but they are not type-checked.
- BugModel.DecodeBug: when several fields are wrong, the model reports the first missing required key. serde's derived `visit_map` reports a present named field's type error as soon as it reads that field, and reports missing fields only after the whole object is read. So an object that lacks `op_sys` and holds `"is_open": "yes"` fails with an invalid-type error in the library, but with `MissingField("op_sys")` in the model.
- BugModel.MissingRequiredKey: the missing-field error it states is the model's own choice of error. The library only guarantees that such an object fails.
- Access.Received: the decode error it passes on is the model's error. The same ordering difference applies to `DecodeResponse`, so the library may report a different decode error for the same reply.
- BugModel.Require: the model demands every non-`Option` key, including `alias`, `component` and `version`. In serde, a missing untagged `OneOrMany` is an error: serde's `missing_field` hands the untagged enum a deserializer whose `deserialize_any` returns the missing-field error before any variant is tried.
- Access.BzInstance.At: `at` returns `Result` but never fails, so it is a constructor. The `reqwest::Client` it creates is part of the transport.
- Access.BzInstance.Authenticate: the builder methods take and return the instance by value. They are modelled as in-place updates of the one instance.
- `src/errors.rs` is modelled only through its variants `NoBugs` and `MissingBugs`. Its messages are not modelled. `MissingBugs` is kept in `QueryError`, but no query produces it.
- The `?` at src/access.rs:182, 184, 215 and 217 propagates `reqwest::Error`. The only conversion into `BugzillaQueryError`, `Rest(#[from] restson::Error)`, cannot hold that error, so the source does not type-check there. `Rest(Transport(..) | Decode(..))` is this model's own reading of what those `?` were meant to pass on.
- JSON objects are maps, so the model cannot express an object that repeats a named key. serde refuses such an object with a "duplicate field" error.
- `BugzillaError` (src/bug_model.rs:40-47) is declared but never used, so it is left out.
- The doc comment at src/access.rs:65 shows `?limit=20`. The code emits `&limit=<n>`, because the fragment always follows the method's parameters. The code is followed.
- Whether the bugs in a reply match the requested IDs depends on the server. The model passes on whatever the server sends.

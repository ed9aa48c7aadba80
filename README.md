# kanboard-mcp: the adapter's decision logic, in Dafny

kanboard-mcp exposes Kanboard's JSON-RPC API as tools for an agent. Almost every
tool handler in `main.go` extracts its arguments, builds a parameter map, makes one
JSON-RPC call and relays the result. This project models the parts of that code that
make decisions, and proves what they promise:

- **The JSON-RPC client** (`callKanboardAPI`), in module `Rpc`. Basic authentication
  is used only when both username and password are set; otherwise the `X-API-Auth`
  header carries the API key. The request envelope is built from the call. An
  exchange with the endpoint becomes a result or an error: the status is checked
  first, then the body is decoded, then a present `error` object wins over `result`.
  The text of the client's errors is modelled too, because the user-assignment tool
  compares it with a fixed string to recognise a 403.
- **Project lookup by name** (`getTasksHandler`, `createTaskHandler`), in module
  `Lookup`. The loose result of `getProjectByName` is classified as found with a
  non-zero id, not found (for a stated reason), or unparsable. The `id` is read the
  way Go's `encoding/json` fills `struct { ID int }`: keys equal to `id` up to ASCII
  case are taken in sorted order, a null leaves the field unchanged, and a string, a
  boolean, an array, an object or an integer that does not fit Go's `int` makes
  decoding fail.
- **Parameter maps with optional keys**, in module `Params`. Required keys are always
  present. Each optional key is added only when its value is not `0`, `""` or an empty
  tag list. No other key is added.
- **Argument checks**, in module `Validate`: the comment-visibility and project-role
  whitelists, and narrowing task metadata to string values.
- **The handlers** that use all of the above, in module `Handlers`: create project,
  get tasks by project name, create task by project name, update task, move task to
  project, create comment, assign user to project, save task metadata. Each handler
  returns the remote calls it made, in order, with its tool result. So the model shows
  when no follow-up call is made.

`strconv.Itoa` and `strconv.Atoi` are modelled in module `Decimal`. A found project
id goes to the follow-up call as its decimal text. The user-assignment tool parses its
`project_id` argument. The proofs show that this text reads back as the same id.

Where the code is more specific than its description, the model follows the code:

- An object whose `id` is a string is not "not found". Go refuses to decode a string
  into an `int`, so the tool reports that it could not parse the project info.
- A null `id`, and an object without any `id` key, decode to 0, so they are "not
  found".
- The authentication choice is made on every request from the fixed configuration.
  It is not made once when the client is built. The effect is the same.
- An explicit empty `role` argument is rejected. Only an absent role gets the default
  `project-member`.

## Model

| member | source | states |
|---|---|---|
| `Rpc.ChooseAuth` | main.go:2134-2140 | Basic credentials iff username and password are both non-empty, carrying them; otherwise the API key |
| `Rpc.Headers` | main.go:2132-2140 | the content type plus exactly one authentication header: `Authorization` = "Basic " + base64(user:pass) iff both are set, else `X-API-Auth` = the API key |
| `Rpc.Envelope` | main.go:2115-2120 | the request body has exactly the keys jsonrpc "2.0", method, id 1 and params, and carries the call's method and params |
| `Rpc.EnvelopeDeterminesCall` | main.go:2115-2120 | two calls sent as the same request body are the same call: the body carries the method name and the params unchanged |
| `Rpc.Interpret` | main.go:2142-2174 | a result is returned iff the status is 200, the body decodes and no error object is present, and then it is the envelope's result; a non-200 status gives an HTTP-status error carrying that code even if the body is malformed; a present error object gives a remote error with its code and message |
| `Rpc.ErrorHidesResult` | main.go:2170-2174 | when the error object is present, the envelope's `result` does not change the outcome |
| `Rpc.Call` | main.go:2114-2175 | for the request built from the configuration and the call, the result is returned iff the exchange is a 200 whose body decodes without an error object, and then it is that body's `result`; any other status gives an HTTP-status error with that code and status line |
| `Rpc.ErrorText` | main.go:2129-2171 | each client error text begins with the fixed opening of its kind: "failed to create request: ", "failed to send request: ", "API request failed with status code: ", "failed to decode API response: " or "kanboard API error: " |
| `Rpc.ErrorTextShowsKind` | main.go:2129-2171 | two client errors with the same text are of the same kind (request creation, sending, HTTP status, decoding, or remote error) |
| `Rpc.ForbiddenTextMeans` | main.go:3644 | the client error's text equals "API request failed with status code: 403, Response: 403 Forbidden" iff the error is HTTP status 403 with status line "403 Forbidden" |
| `Decimal.Itoa` | main.go:2315 | the text is non-empty, starts with '-' iff the number is negative, is otherwise all decimal digits, is "0" for zero, and has no leading zero (no "-0" either) |
| `Decimal.Atoi` | main.go:3610-3613 | a value is returned iff the text is an optional sign followed by one or more digits whose signed value fits Go's `int`, and the value is that signed value |
| `Decimal.AtoiItoa` | main.go:2391 | for every Go `int`, parsing the decimal text gives back the same number |
| `Decimal.AtoiLeadingZero` | main.go:3610-3613 | a leading zero before a run of digits is accepted and does not change the value read |
| `Decimal.AtoiPlusSign` | main.go:3610-3613 | a leading `+` before a run of digits is accepted and does not change the value read |
| `Decimal.AtoiNonCanonical` | main.go:3610-3613 | "+7" and "007" read as 7 and "-0" as 0; the empty text, a lone "+" and "7a" are refused |
| `Lookup.DecodeId` | main.go:2300-2309 | decoding from a Go `int` starting value yields a Go `int` |
| `Lookup.DecodeIdMeans` | main.go:2300-2309 | decoding fails iff some id key holds a value other than null or an in-range integer; otherwise the id is the last integer among the keys, or the initial value when none holds one |
| `Lookup.Classify` | main.go:2272-2313 | any non-object result is not found; found implies a non-empty object and a non-zero id in Go's `int` range |
| `Lookup.SentinelsNotFound` | main.go:2272-2297 | false, true, null, [], {}, {"id": 0} and {"id": null} are each not found, with their own reason |
| `Lookup.FoundIff` | main.go:2295-2313 | found with id n iff the result is a non-empty object, no id key holds an unacceptable value, the last id key holding a number holds n, and n is non-zero |
| `Lookup.LowercaseIdWins` | main.go:2300-2313 | an object whose `id` is a non-zero in-range integer, with its other id keys acceptable, is found with that id |
| `Lookup.StringIdUnparsable` | main.go:2307-2309 | a string `id` makes the result unparsable, not not-found |
| `Params.ValueOf` | main.go:2475-2478 | a tag list is sent as an array of the same strings in the same order |
| `Params.TagsReadBack` | main.go:2475-2478 | the array sent for a tag list determines the list: equal arrays come from equal lists |
| `Params.BuiltAppend` | main.go:2199-2202 | inserting the next optional argument only when it is set keeps the map equal to the required entries plus the set arguments |
| `Params.AddOptionals` | main.go:2193-2242 | the result holds the required entries unchanged; each optional key is present iff its value is not the default, and then carries that value; it has no other key |
| `Validate.IsListed` | main.go:3497-3504 | the flag is set iff the value is in the allowed list |
| `Validate.NarrowMetadata` | main.go:6097-6104 | succeeds iff every value is a string, and then returns exactly the input keys with the same strings; otherwise names a key whose value is not a string |
| `Handlers.ResolveProject` | main.go:2264-2313 | resolved iff the lookup call succeeds and its result is classified as found, with that non-zero id; a failed call, a not-found result and an unparsable result each give their own error |
| `Handlers.SentinelsStopLookup` | main.go:2272-2297 | a non-object, an empty object or an object with id 0 from the lookup gives a project-not-found error |
| `Handlers.ProjectIdReadsBack` | main.go:2315 | the `project_id` text sent on reads back as the id that was found |
| `Handlers.GetTasks` | main.go:2257-2327 | a missing name makes no call; otherwise `getProjectByName` is called first, and `getAllTasks` is called second iff the project is resolved, with `project_id` the decimal text of the found id; otherwise the lookup error is returned |
| `Handlers.ProjectOptionals` | main.go:2197-2242 | the optional project keys are pairwise distinct |
| `Handlers.CreateProject` | main.go:2191-2255 | a missing name makes no call; otherwise exactly one `createProject` call with `name` and each optional key present iff non-default; the client's error is passed on as is |
| `Handlers.TaskOptionals` | main.go:2395-2483 | the optional task-creation keys are pairwise distinct |
| `Handlers.TaskParams` | main.go:2390-2483 | the task parameters hold `project_id` as the id's decimal text and `title`, plus each optional key iff non-default, and nothing else |
| `Handlers.CreateTask` | main.go:2329-2496 | missing project name or title makes no call; the lookup comes first; `createTask` is called iff the project is resolved, with `project_id` the decimal text of the found id, the given `title`, and each optional key present iff non-default |
| `Handlers.UpdateOptionals` | main.go:2505-2584 | the optional task-update keys are pairwise distinct |
| `Handlers.UpdateTask` | main.go:2498-2597 | a missing id makes no call; otherwise one `updateTask` call with `id` and each optional key present iff non-default |
| `Handlers.MoveOptionals` | main.go:6243-6263 | the optional keys for moving a task are pairwise distinct |
| `Handlers.MoveTaskToProject` | main.go:6234-6276 | missing task or project id makes no call; otherwise one `moveTaskToProject` call with both ids and each optional key present iff non-zero |
| `Handlers.CommentOptionals` | main.go:3489-3509 | `reference` and `visibility` are distinct keys |
| `Handlers.CreateComment` | main.go:3469-3522 | a non-empty visibility outside {app-user, app-manager, app-admin} gives an error and no call; a call is made iff all required arguments are present and the visibility is empty or allowed; a valid visibility is sent unchanged, an empty one is omitted |
| `Handlers.EffectiveRole` | main.go:3620 | an absent role becomes "project-member", which is one of the allowed roles; a given role is used as given |
| `Handlers.AbsentRoleAccepted` | main.go:3620-3633 | an absent role passes the role check, while an explicitly empty role fails it |
| `Handlers.AssignUserToProject` | main.go:3605-3656 | a missing role becomes "project-member"; a role outside the three allowed ones, an unparsable `project_id` or a missing argument gives an error and no call; an accepted role is sent unchanged; a 403 "403 Forbidden" failure gives the permission-denied error, any other failure the generic one |
| `Handlers.MetadataOutcome` | main.go:6022-6036 | a client failure is passed on; a boolean result gives the text "true" or "false" after that boolean (`strconv.FormatBool`); any other result type is an error |
| `Handlers.SaveTaskMetadata` | main.go:6084-6111 | a call is made iff the task id is present and `values` is an object whose values are all strings; the values sent are exactly that object; a non-string value gives an error naming one such key; the outcome is the client wrapper's reading of the call's result (`Handlers.MetadataOutcome`) |

## Left out

- Tool registration and parameter schemas in `main` (main.go:18-2096): declarative calls into the protocol library, with no decisions in them.
- Configuration from environment variables with placeholder defaults (main.go:29-47): process input. The configuration is a value (`Rpc.Config`).
- The HTTP request, base64 encoding, JSON encoding and decoding: foreign library code. A client carries base64 and the transport as functions, and the transport returns an already-decoded exchange (`Rpc.Exchange`).
- Pretty-printing results with `MarshalIndent`, and its failure path, which cannot fail on decoded JSON values: results are relayed as JSON values (`Handlers.ToolResult.JsonText`).
- Failure to marshal the request body: it cannot happen for JSON parameter values.
- Argument extraction by the protocol library (`RequireString`, `GetInt`, `GetStringSlice`, ...): handlers receive the extracted values. A required argument is `None` when it was missing or mistyped, and both give `Handlers.ToolError.BadArgument`.
- Floating-point numbers: `Json.Value.Num` is integral. Non-integral ids, the `float64` assertions and `int(...)` conversions (main.go:5261, 5546, 5749), and Go's rounding of integers above 2^53 during decoding are not modelled.
- The wording of tool error texts (`fmt.Sprintf` with `%v` and `%T`): tool errors are the structured `Handlers.ToolError`. The client's own error text is modelled, because a handler compares it.
- The roughly 250 passthrough handlers that only forward one or two arguments. The modelled builders cover their pattern.
- Request contexts and cancellation: the call is a function of its request.
- Moving a task by column name: `main.go` has no such handler.
- Go's `int` is taken to be 64 bits wide (`Decimal.InInt64`), as on the 64-bit targets the adapter is built for. On a 32-bit target, `Lookup.DecodeId`, `Decimal.Atoi` and `Decimal.AtoiItoa` would need the 32-bit range instead.

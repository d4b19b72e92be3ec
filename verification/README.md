# A verified model of NotifBuddy's routing, codec, session and scripting cores

This Dafny project models the parts of the repository that decide something non-trivial and proves what they are
for. `dafny verify dfyconfig.toml` checks all of it.

- **Routing.** The two compiled routers (`ServeHTTP`, `FindPath`) are transcribed node by node as methods over a
  cursor, with their restores, breaks and fall-throughs. `RouteTrie` has a generic backtracking search over a trie
  and the theorem that it refines a flat route list; `RouteTable` and `FlatTable` instantiate it with the API's 23
  patterns; `UniqueRoutes`, `RouteReply`, `RouteAgreement` and `MethodNotAllowed` say what the replies mean and
  where the two routers agree. `ApiCalls` has the 28 calls as the client makes them, apart from the router's table,
  and that the routers reach every operation by exactly its own call. `PercentCoding`, `ClientCalls` and
  `PathRoundTrip` go from the generated client's path building to the server's parameter decoders and back to the
  value.
- **JSON.** `Json` is a token stream with a reader (recursive skip) and a writer. `Schema` is what one generated
  decoder knows, with the theorems about order, duplicates and unknown fields; `Records` instantiates it for nine
  records with their round trips, and `RecordKeys` says of each which key holds what. `RequiredBits` is the
  required-field bit set. `RecordCodec` and `RecordEncoder` are the generated decoders and encoders themselves, as
  loops, for three records. `Validation` and `RequestDecoder` are what follows a decode.
- **Sessions and members.** `SessionCache` has the service class with its locked sections and the key;
  `SessionRuns` interleaves requests, two-call fetches, stores, invalidations, authd changes and time, and proves
  the invariants over every run. `MemberRoles` is the role update and its safety over runs. `Slug` is the
  organization slug.
- **Smaller cores.** `Digits` and `Framing` are the fake APIs' `itoa` and keep-alive loop; `Truncate` the quoted
  TRUNCATE list against a lexer; `EnvRefs` the substitution of environment references; `JsonHeap`, `Fixtures` and
  `FixtureProperties` the in-place scrubbing of captured payloads on a heap of dictionaries and lists.

Conventions. Go's nil slice is `None` and an empty one `Some([])`. Go errors are `Result` or `Option` values. A
ghost parameter of a method names the tree or value its heap holds. Library functions that the code calls appear
as parameters with the stated contract: path normalisation and percent-decoding are written out with the set of
characters left alone as a parameter; the hash is injective; the lexing of bytes, `strings.ToLower`, `str.lower`,
the e-mail pattern, `net/http` request heads, the extent of a chunked body and the format of instants are arbitrary
functions, constrained only where a lemma says so.

Places where the code does less than one might expect are stated as results, each with a concrete case and the
exact condition. `FindPath` unescapes a second time when a raw path does not normalise, which no received URL can
cause (`RouteAgreement.FindPathAgrees`, `ReceivedUrlsAgree`, `FindPathUnescapesTwice`). The setting id `test`, and
providers and levels outside their enumerations, do not survive the way from the client to the handler
(`PathRoundTrip.ClientPathRoundTrip`, `TestCaptured`, `UnknownProvider`). A billing instant that its text does not
keep comes back changed (`Records.UserReadsBack`, `BillingFractionLost`). A reference to a variable that is not
set goes through where `process.env` inherits the name (`EnvRefs.ThrowsExactly`, `InheritedNotThrown`). An
invalidation does not reach a session that a fetch in flight already holds (`SessionRuns.InvalidateExact`,
`SignedOutUserServed`). A handler that records a body under a status without one breaks the framing
(`Framing.OneResponseEach`, `BodyUnderNoContent`). The comment on `FindRoute` that it does not handle escapes is
consistent with the model: it passes a URL without a raw path.

## Model

| member | source | states |
|---|---|---|
| `RouteTrie.WalkIsFirstMatch` | backend/internal/api/oas_router_gen.go:80-861 | for every well-formed trie and every path, the backtracking search (cursor restores, empty-rest breaks, fall-through to the parameter node) answers like the first matching row of the trie's flat list of routes |
| `RouteTrie.MatchIsFill` | backend/internal/api/oas_router_gen.go:464-474 | a pattern matches exactly the paths it denotes, with exactly the arguments that denote them: no slash in an argument, and an empty one only where the router lets it through |
| `RouteTrie.FirstMatchMeaning` | backend/internal/api/oas_router_gen.go:80-861 | a flat table answers with a row that denotes the path, and gives no answer exactly when no row denotes it with any arguments |
| `FlatTable.RootWellFormed` | backend/internal/api/oas_router_gen.go:82-852 | the API's trie meets the conditions of the refinement: siblings start differently, and children searched before a parameter put the cursor back where it matters |
| `FlatTable.RootRows` | backend/internal/api/oas_router_gen.go:82-852 | the trie's flat list is the 23-row table, in its order, with `test` before `{settingId}` |
| `FlatTable.SearchIsTable` | backend/internal/api/oas_router_gen.go:80-861 | the router's search answers like the first matching row of the table, for every path |
| `UniqueRoutes.StaticWins` | backend/internal/api/oas_router_gen.go:80-861 | in any well-formed trie nothing is found in front of a static route for its own path |
| `UniqueRoutes.RowAlone` | backend/internal/api/oas_router_gen.go:282-340 | a row that denotes a path is the table's answer for it, so no two rows denote the same path, except exactly the setting's row on the path of `test`, where the static row answers |
| `ServeHTTP.ServeSettingsSlash` | backend/internal/api/oas_router_gen.go:271-342 | the node with the one overlap, in the code's form: `test` first, cursor restored, then a non-empty `{settingId}` |
| `ServeHTTP.ServeIntegrations` | backend/internal/api/oas_router_gen.go:221-503 | children `linear/` and `s` first, each with its cursor restored, then the provider segment followed by `/disconnect` |
| `ServeHTTP.ServeHTTP` | backend/internal/api/oas_router_gen.go:58-861 | every method string and URL gets the reply the flat table prescribes: the row's operation and argument, a refusal with exactly the row's methods, headers and accepted type, or not-found |
| `FindPath.UnescapeArgs` | backend/internal/api/oas_router_gen.go:923-929 | the deferred loop replaces exactly the arguments that unescape and leaves the others |
| `FindPath.FindPath` | backend/internal/api/oas_router_gen.go:914-1748 | every lookup finds the route the flat table gives for the searched path, with its arguments rewritten only when there is a raw path |
| `RouteAgreement.FindPathAgrees` | backend/internal/api/oas_router_gen.go:914-930 | `FindPath` succeeds exactly when `ServeHTTP` reaches a handler, with the same operation, for every URL; an argument equals the handler's value exactly unless there is a raw path that does not normalise and the argument holds a well-formed escape |
| `RouteAgreement.ReceivedUrlsAgree` | backend/internal/api/oas_router_gen.go:914-930 | for every URL that can be received, that is whose path is decoded from its raw path, that exception never arises: the two agree on route, operation and every argument |
| `RouteAgreement.FindPathUnescapesTwice` | backend/internal/api/oas_router_gen.go:914-930 | on a URL built by hand, with a raw path that is not an encoding of its path, it does arise: the handler sees `%41` and `FindPath` reports `A` |
| `RouteAgreement.DecoderOnlyRequires` | backend/internal/api/oas_parameters_gen.go:308-355 | whatever the router passes on, the parameter decoder can only fail on an empty argument, never on an escape |
| `MethodNotAllowed.AllowListElements` | backend/internal/api/oas_router_gen.go:256-266 | splitting the joined list of methods at its commas gives the methods back |
| `MethodNotAllowed.RefusalListsHandledMethods` | backend/internal/api/oas_cfg_gen.go:117-148 | a refusal is 204 for OPTIONS and 405 otherwise, and its header lists exactly the methods with which this very path would have been handled |
| `MethodNotAllowed.PreflightHeaders` | backend/internal/api/oas_router_gen.go:13-41 | for every path, a preflight request is told the header to send exactly if the method it asks about would reach, on that path, a handler that decodes a body, and the accepted type of a POST exactly if a POST would; a refusal of any other method is told neither |
| `MethodNotAllowed.PrescribedMeaning` | backend/internal/api/oas_router_gen.go:58-861 | the reply is not-found exactly when no row denotes the path, and otherwise that of a row that denotes it |
| `ApiCalls.CallReaches` | backend/internal/api/oas_client_gen.go:308-2705 | for each of the 28 operations, called with the method and the path that the generated client writes, at every base and with every parameter of one segment (for a setting id: not empty and not `test`), both routers reach exactly this operation with this parameter, and the lookup names the pattern with the parameter's name |
| `ApiCalls.OnlyItsCall` | backend/internal/api/oas_router_gen.go:58-861 | conversely, whatever method and path reach an operation are those of its own call, with the argument as the parameter |
| `ApiCalls.CallsDiffer` | backend/internal/api/oas_client_gen.go:308-2705 | no two of these calls coincide |
| `PercentCoding.UnescapeEscape` | backend/internal/api/oas_parameters_gen.go:313-317 | decoding an encoded value gives the value back, for every choice of characters left alone that leaves out the percent sign |
| `PercentCoding.EscapeIsSegment` | backend/internal/api/oas_client_gen.go:2407-2424 | an encoded value has no slash, so it stays one path segment |
| `PercentCoding.NormalizeDecodes` | backend/internal/api/oas_router_gen.go:61-66 | normalising an escaped path keeps what it decodes to |
| `PercentCoding.EscapeIs` | backend/internal/api/oas_router_gen.go:61-66 | every octet, escaped in hexadecimal digits of either case, decodes to itself, and normalising writes it plainly if it may be and otherwise in upper-case digits |
| `PathRoundTrip.AddPathParts` | backend/internal/api/oas_client_gen.go:2425 | the loop appends the parts in order to the base path |
| `PathRoundTrip.SendUpdateLinearSettings` | backend/internal/api/oas_client_gen.go:2403-2425 | the array of parts gives base, text, encoded value |
| `PathRoundTrip.SendDeleteLinearSettings` | backend/internal/api/oas_client_gen.go:760-782 | the same for the deletion |
| `PathRoundTrip.SendRevokeInvitation` | backend/internal/api/oas_client_gen.go:2050-2072 | the same for an invitation |
| `PathRoundTrip.SendDisconnectIntegration` | backend/internal/api/oas_client_gen.go:941-964 | the three parts, with the text after the value |
| `PathRoundTrip.SendUpdateMemberRole` | backend/internal/api/oas_client_gen.go:2506-2530 | the three parts, with the text after the value |
| `PathRoundTrip.DecodePathParam` | backend/internal/api/oas_parameters_gen.go:308-355 | unescape if escaped, then required: the value, or which of the two failed |
| `PathRoundTrip.ParamRefused` | backend/internal/api/oas_parameters_gen.go:308-355 | refused as missing exactly if empty, and as badly escaped exactly if it was routed in escaped form and does not decode |
| `PathRoundTrip.DecodeDisconnectParams` | backend/internal/api/oas_parameters_gen.go:108-220 | the provider's enumeration, the default level that is written and then overwritten by the query, and the level's enumeration, in that order of errors |
| `PathRoundTrip.ClientPathRoundTrip` | backend/internal/api/oas_client_gen.go:2403-2425 | for all five operations and every non-empty value, the URL the client builds, once received, is routed to the called operation and the server's decoder of its parameters gives back what the client was given, an unset level as `workspace`, exactly unless the value is the setting id `test`, which the static route refuses, or, for the disconnect call, the provider or the level is outside its enumeration, which the decoder then names |
| `PathRoundTrip.TestCaptured` | backend/internal/api/oas_router_gen.go:282-313 | both calls with the setting id `test` get the refusal of the static route |
| `PathRoundTrip.UnknownProvider` | backend/internal/api/oas_parameters_gen.go:140-165 | the disconnect call for the provider `github` is routed and then refused by the decoder |
| `Json.ParseTokens` | backend/internal/api/oas_json_gen.go:2592-2597 | the tokens of any value parse back to it, whatever follows |
| `Json.ParsedTokens` | backend/internal/api/oas_json_gen.go:2687-2817 | whatever parses is the writing of what it parses to |
| `Json.Decoder.Skip` | backend/internal/api/oas_json_gen.go:2812-2813 | skipping succeeds exactly on a complete value of any shape and depth, and stops right after it |
| `Schema.FoldIsCanonical` | backend/internal/api/oas_json_gen.go:2687-2817 | assigning fields in input order is assigning the last value of each declared field in declaration order |
| `Schema.LastValuesDecide` | backend/internal/api/oas_json_gen.go:2687-2850 | two objects with the same last values of the declared fields decode alike, also in which required fields they miss, if both are well typed or neither is: not the order of fields, earlier duplicates, or unknown fields of any depth matter; of two ill-typed ones each fails with its own first bad field |
| `Schema.SameFieldsDecide` | backend/internal/api/oas_json_gen.go:2687-2850 | two objects with the same declared fields in any order, and the same last ones of repeated keys, succeed or fail together, and give the same record |
| `Records.AllLawful` | backend/internal/api/oas_json_gen.go:2687-2817 | all nine records meet the laws that this rests on: fields do not interfere, and each is reset before it is decoded |
| `Schema.DecodesIff` | backend/internal/api/oas_json_gen.go:2687-2850 | an object decodes exactly when its declared fields are well typed and its required ones are there |
| `Schema.EmitDecodes` | backend/internal/api/oas_json_gen.go:2599-2665 | what the field writer emits decodes to the last of the states that assigning the set fields goes through |
| `Records.WorkflowRoundTrip` | backend/internal/api/oas_json_gen.go:3321-3446 | every workflow state reads back exactly |
| `RecordKeys.WorkflowKeys` | backend/internal/api/oas_json_gen.go:3321-3341 | every workflow state is written with each property under its own key, spelled out, and unset ones under none |
| `RecordKeys.WorkflowIsRead` | backend/internal/api/oas_json_gen.go:3350-3446 | an object is read as one exactly if it has the required keys, spelled out, and all values under its keys are of their kinds |
| `RecordKeys.WorkflowSays` | backend/internal/api/oas_json_gen.go:3350-3446 | and then every property is what the last value under its own key says, or unset if there is none |
| `Records.TeamRoundTrip` | backend/internal/api/oas_json_gen.go:3164-3299 | every team reads back, with its array of workflow states; only a nil array has become empty |
| `RecordKeys.TeamKeys` | backend/internal/api/oas_json_gen.go:3164-3188 | every team is written with each property under its own key, spelled out, and unset ones under none |
| `RecordKeys.TeamIsRead` | backend/internal/api/oas_json_gen.go:3197-3299 | an object is read as one exactly if it has the required keys, spelled out, and all values under its keys are of their kinds |
| `RecordKeys.TeamSays` | backend/internal/api/oas_json_gen.go:3197-3299 | and then every property is what the last value under its own key says, or unset if there is none, the states as the records of the array |
| `Records.SlackRoundTrip` | backend/internal/api/oas_json_gen.go:4908-5050 | every Slack member reads back exactly |
| `RecordKeys.SlackKeys` | backend/internal/api/oas_json_gen.go:4908-4934 | every Slack member is written with each property under its own key, spelled out, and unset ones under none |
| `RecordKeys.SlackIsRead` | backend/internal/api/oas_json_gen.go:4944-5050 | an object is read as one exactly if it has the required keys, spelled out, and all values under its keys are of their kinds |
| `RecordKeys.SlackSays` | backend/internal/api/oas_json_gen.go:4944-5050 | and then every property is what the last value under its own key says, or unset if there is none |
| `Records.SampleRoundTrip` | backend/internal/api/oas_json_gen.go:4778-4886 | every sample event reads back exactly |
| `RecordKeys.SampleKeys` | backend/internal/api/oas_json_gen.go:4778-4792 | every sample event is written with each property under its own key, spelled out, and unset ones under none |
| `RecordKeys.SampleIsRead` | backend/internal/api/oas_json_gen.go:4800-4886 | an object is read as one exactly if it has the required keys, spelled out, and all values under its keys are of their kinds |
| `RecordKeys.SampleSays` | backend/internal/api/oas_json_gen.go:4800-4886 | and then every property is what the last value under its own key says, or unset if there is none |
| `Records.SettingsRoundTrip` | backend/internal/api/oas_json_gen.go:2599-2853 | every settings record reads back; unset optionals stay unset and only a nil array has become empty |
| `RecordKeys.SettingsKeys` | backend/internal/api/oas_json_gen.go:2599-2665 | every settings record is written with each property under its own key, spelled out, and unset ones under none |
| `RecordKeys.SettingsIsRead` | backend/internal/api/oas_json_gen.go:2681-2853 | an object is read as one exactly if it has the required keys, spelled out, and all values under its keys are of their kinds |
| `RecordKeys.SettingsSays` | backend/internal/api/oas_json_gen.go:2681-2853 | and then every property is what the last value under its own key says, or unset if there is none |
| `Records.ResponseReadsBack` | backend/internal/api/oas_json_gen.go:2960-3141 | the tokens of every settings response, with anything after them, parse and decode to it through four nested arrays of records, ending where it ends; only nil arrays have become empty, at both levels |
| `RecordKeys.ResponseKeys` | backend/internal/api/oas_json_gen.go:2960-2998 | every settings response is written with each property under its own key, spelled out, and unset ones under none |
| `RecordKeys.ResponseIsRead` | backend/internal/api/oas_json_gen.go:3008-3141 | an object is read as one exactly if it has the required keys, spelled out, and all values under its keys are of their kinds |
| `RecordKeys.ResponseSays` | backend/internal/api/oas_json_gen.go:3008-3141 | and then every property is what the last value under its own key says, or unset if there is none, all four arrays as their records |
| `Records.OrgRoundTrip` | backend/internal/api/oas_json_gen.go:4169-4277 | every organization reads back exactly |
| `RecordKeys.OrgKeys` | backend/internal/api/oas_json_gen.go:4169-4185 | every organization is written with each property under its own key, spelled out, and unset ones under none |
| `RecordKeys.OrgIsRead` | backend/internal/api/oas_json_gen.go:4193-4277 | an object is read as one exactly if it has the required keys, spelled out, and all values under its keys are of their kinds |
| `RecordKeys.OrgSays` | backend/internal/api/oas_json_gen.go:4193-4277 | and then every property is what the last value under its own key says, or unset if there is none |
| `Records.BillingRoundTrip` | backend/internal/api/oas_json_gen.go:420-526 | for every format of instants, a billing summary reads back with its instant as the format reads it back, or fails on that field if it does not; so it is unchanged exactly if this one instant is |
| `Records.BillingFractionLost` | backend/internal/store/billing.go:27-39 | with a format of whole seconds a summary comes back with the fraction of its trial end cut off, unchanged exactly if there is none |
| `RecordKeys.BillingKeys` | backend/internal/api/oas_json_gen.go:420-434 | every billing summary is written with each property under its own key, spelled out, and unset ones under none |
| `RecordKeys.BillingIsRead` | backend/internal/api/oas_json_gen.go:442-526 | an object is read as one exactly if it has the required keys, spelled out, and all values under its keys are of their kinds |
| `RecordKeys.BillingSays` | backend/internal/api/oas_json_gen.go:442-526 | and then every property is what the last value under its own key says, or unset if there is none, the instant as the format reads it |
| `Records.UserReadsBack` | backend/internal/api/oas_json_gen.go:6986-7207 | for every format of instants, the tokens of every user response, with anything after them, parse and decode to it, keeping a nil and an empty list of organizations apart and unset optionals unset, but with the billing instant, if there is one, as the format reads it back, or fail on the billing field; unchanged exactly if there is no billing or its instant reads back |
| `RecordKeys.UserKeys` | backend/internal/api/oas_json_gen.go:6986-7042 | every user is written with each property under its own key, spelled out, and unset ones under none |
| `RecordKeys.UserIsRead` | backend/internal/api/oas_json_gen.go:7056-7207 | an object is read as one exactly if it has the required keys, spelled out, and all values under its keys are of their kinds |
| `RecordKeys.UserSays` | backend/internal/api/oas_json_gen.go:7056-7207 | and then every property is what the last value under its own key says, or unset if there is none, the billing summary and the organizations as their records |
| `RequiredBits.AppendMissed` | backend/internal/api/oas_json_gen.go:2825-2845 | the popcount and trailing-zeros loop ends and appends one name for each set bit, lowest first |
| `RequiredBits.MissedFields` | backend/internal/api/oas_json_gen.go:2818-2850 | for any number of bytes and any masks the check returns the names of the missed bits, byte by byte |
| `RequiredBits.MissedIndicesExact` | backend/internal/api/oas_json_gen.go:2818-2850 | the indices reported are exactly those required and not seen, each once, in ascending order |
| `RequiredBits.MissedNamesAreIndices` | backend/internal/api/oas_json_gen.go:2832-2838 | if the masks only name declared fields, the report is their names and the numeric fallback is never used |
| `RequiredBits.MissedAreMissing` | backend/internal/api/oas_json_gen.go:2818-2850 | on the bit set of an object the reported fields are the required fields the object does not have |
| `RecordCodec.MarkSets` | backend/internal/api/oas_json_gen.go:2700 | setting one bit of one byte marks exactly that field |
| `RecordCodec.Advance` | backend/internal/api/oas_json_gen.go:2687-2817 | one field read keeps the loop's invariant: what is still to come, applied to the record so far, gives what the whole object gives |
| `RecordCodec.ReadStates` | backend/internal/api/oas_json_gen.go:3250-3266 | the array loop returns the elements, each decoded into a fresh record, or fails as soon as one does |
| `RecordCodec.DecodeLinearWorkflowState` | backend/internal/api/oas_json_gen.go:3350-3446 | the imperative decoder reads one value and answers as the schema prescribes, for every receiver and input |
| `RecordCodec.DecodeLinearTeamState` | backend/internal/api/oas_json_gen.go:3197-3299 | the same, through the nested array |
| `RecordCodec.SettingsField` | backend/internal/api/oas_json_gen.go:2688-2815 | the callback resets, decodes and marks the field of its key, and skips an unknown one |
| `RecordCodec.DecodeLinearSettings` | backend/internal/api/oas_json_gen.go:2681-2853 | the same for eleven fields and a bit set of two bytes: the record, the first bad field, or exactly the missing fields; the reader stops after the value |
| `RecordEncoder.WrittenObject` | backend/internal/api/oas_json_gen.go:2592-2597 | field by field with the braces is the whole object |
| `RecordEncoder.EncodeLinearWorkflowState` | backend/internal/api/oas_json_gen.go:3314-3338 | appends exactly the tokens of the record's object |
| `RecordEncoder.EncodeLinearTeamState` | backend/internal/api/oas_json_gen.go:3157-3187 | the same, with the nested array |
| `RecordEncoder.EncodeLinearSettings` | backend/internal/api/oas_json_gen.go:2592-2665 | the same, with eight optional fields and an array of strings |
| `RecordEncoder.SettingsThereAndBack` | backend/internal/api/oas_json_gen.go:2592-2853 | encoding and then decoding a settings record succeeds and gives it back, up to nil arrays |
| `RecordEncoder.TeamThereAndBack` | backend/internal/api/oas_json_gen.go:3157-3299 | the same for a team with its states |
| `Validation.ValidateLinearSettings` | backend/internal/api/oas_validators_gen.go:362-412 | collects the failures of a settings record in field order |
| `Validation.SettingsBlamed` | backend/internal/api/oas_validators_gen.go:362-438 | a record is blamed for exactly: a `creationMode`, and a set `archiveMode`, that is not `status`, `manual` or `condition`, and a nil `autoAddMembers`, each under its own name |
| `Validation.ResponseBlamed` | backend/internal/api/oas_validators_gen.go:440-528 | a response is blamed for exactly its nil lists and the failing elements of `configs` and `teams`, each under its own name |
| `Validation.ValidateConfigs` | backend/internal/api/oas_validators_gen.go:446-470 | the loop over the configurations collects, by index, exactly the failing ones with their own failures |
| `Validation.ValidateLinearSettingsResponse` | backend/internal/api/oas_validators_gen.go:440-528 | collects all failures of a response, nested ones included |
| `Validation.DecodedHasNoNil` | backend/internal/api/oas_json_gen.go:3008-3141 | after a successful decode no required array is nil, in the response or in any record of its arrays |
| `Validation.NeverBlamesNil` | backend/internal/api/oas_validators_gen.go:440-551 | after a successful decode no failure of `Validate`, at any depth, is about a nil array |
| `Validation.OnlyModesFail` | backend/internal/api/oas_validators_gen.go:362-528 | after a successful decode `Validate` fails exactly when some configuration has an illegal mode |
| `Validation.ConfigsBlamed` | backend/internal/api/oas_validators_gen.go:446-475 | and then its one failure names, by index, exactly the configurations with an illegal mode |
| `RequestDecoder.AcceptedIff` | backend/internal/api/oas_request_decoders_gen.go:141-169 | decoding, end of input and validation all pass, with a record, exactly when the whole input is one object with `creationMode`, `autoAddMembers` and `teamId`, all values under its keys of their kinds, and the last `creationMode`, and the last `archiveMode` if there is one, `status`, `manual` or `condition`; the record is what the keys say |
| `RequestDecoder.ModesBlamed` | backend/internal/api/oas_validators_gen.go:414-438 | on an object that decodes, validation fails with exactly the ones of `creationMode` and `archiveMode` whose last value is none of the three modes, naming the key and the value |
| `RequestDecoder.DecodeBuffer` | backend/internal/api/oas_request_decoders_gen.go:138-169 | the first of the three that fails determines the error |
| `RequestDecoder.DecodeCreateLinearSettingsRequest` | backend/internal/api/oas_request_decoders_gen.go:96-173 | the pipeline: media type, length, reading and re-setting the body, empty body, then the above; a record is returned exactly when it is the accepted one |
| `SessionCache.KeysDiffer` | backend/internal/auth/auth.go:204-207 | for cookies without NUL and an injective hash, equal keys mean equal credentials |
| `SessionCache.KeyAlone` | backend/internal/auth/auth.go:204-207 | under an injective hash, exactly the credentials without NUL in either header share their key with no others |
| `SessionCache.KeysCollide` | backend/internal/auth/auth.go:204-207 | with NUL in a cookie two credential sets can share a key |
| `SessionCache.NamesJoin` | backend/internal/auth/auth.go:683-694 | the two names are the trimmed name cut at its first space |
| `SessionCache.TrimmedIs` | backend/internal/auth/auth.go:684 | the trimmed name is the part of the name between spaces at its two ends, and has none at its own |
| `SessionCache.UserMeaning` | backend/internal/auth/auth.go:224-248 | somebody is signed in exactly if a session names a user; id, e-mail, picture and organization are the session's, the first name has no space and is followed in the trimmed name by the last one, and the role is `admin` exactly if there is an active organization in which authd answered `admin` or `owner`, else authd's answer, or nothing without an organization or an answer |
| `SessionCache.StoredMeaning` | backend/internal/auth/auth.go:183-199 | an entry is served for exactly 60 s after it is stored, and other entries stay unless there were more than 4096 |
| `SessionCache.InvalidatedMeaning` | backend/internal/auth/auth.go:628-634 | an invalidation removes its own entry and no other |
| `SessionCache.Service.Lookup` | backend/internal/auth/auth.go:183-190 | a hit is an entry under the key that has not expired, unless the request asks to skip the cache |
| `SessionCache.Service.Store` | backend/internal/auth/auth.go:194-200 | drops everything past 4096 entries, then stores the user with its expiry |
| `SessionCache.Service.ResolveUser` | backend/internal/auth/auth.go:172-202 | one uninterrupted request: empty credentials, a hit, or a fetch that is stored and found again |
| `SessionCache.Service.Invalidate` | backend/internal/auth/auth.go:628-634 | removes exactly this credential set's entry |
| `SessionRuns.HitOk` | backend/internal/auth/auth.go:183-190 | a hit comes from a fetch for the same credentials that was stored less than the time to live before |
| `SessionRuns.StepInv` | backend/internal/auth/auth.go:172-202 | every step of any request, of authd, of the clock and of an invalidation keeps the invariant |
| `SessionRuns.EveryRun` | backend/internal/auth/auth.go:172-248 | over all interleavings: nobody is served without credentials; otherwise whoever is served was fetched with the same credentials and is what the session says that authd gave for them then, as an administrator only if authd said so of an admin or owner; that fetch began less than 60 s plus its own duration before; a no-cache request is never served by a fetch that began before it arrived; and the cache holds at most 4097 entries |
| `SessionRuns.ServedWhatAuthdSays` | backend/internal/auth/auth.go:172-248 | from every state, a request with credentials that is not answered from the cache and that nothing interrupts is served as what authd then says of its session and its role, or as nobody if there is no session |
| `SessionRuns.FreshAfterInvalidate` | backend/internal/auth/auth.go:310-321 | if no older fetch for the credentials is in flight when they are invalidated, nothing older is ever served to them afterwards, whether a fetch is judged by when it began or by the version of authd that its session comes from |
| `SessionRuns.OldFetchServesNewRequest` | backend/internal/auth/auth.go:310-321 | if a fetch in flight already holds a session from before the invalidation, some continuation serves exactly that session to a request that arrives after it |
| `SessionRuns.SignedOutUserServed` | backend/internal/auth/auth.go:183-201 | this happens in a run from the start: authd signs a user out, the credentials are invalidated, and a request that arrives then is still served as that user |
| `SessionRuns.InvalidateExact` | backend/internal/auth/auth.go:628-634 | so an invalidation keeps every older session from being served to the credentials afterwards exactly when no fetch for them in flight holds an older session |
| `MemberRoles.UpdateOrganizationMemberRole` | backend/internal/auth/auth.go:425-456 | the scan and the checks in their order: the error of the first that fails and nothing changed, or the membership with its new role and the organization updated |
| `MemberRoles.OutcomeMeaning` | backend/internal/auth/auth.go:425-456 | which answer is given exactly when: not found if the listed organization has no such membership, the own-role error if it is the caller's, and accepted if it is another's, authd is reached and the caller is an admin or owner |
| `MemberRoles.AcceptedMeaning` | backend/internal/auth/auth.go:425-456 | an accepted update was asked for by an administrator and changed exactly one membership of the organization, not the caller's |
| `MemberRoles.UpdateIsTwoSteps` | backend/internal/auth/auth.go:425-456 | the outcome of one update that nothing interrupts is that of its check followed by its commit |
| `MemberRoles.AnAdministratorRemains` | backend/internal/auth/auth.go:425-456 | over any interleaving of checks and updates, also from a moment when some are under way, an organization that has an administrator keeps one |
| `MemberRoles.EveryRunKeepsAdministrators` | backend/internal/auth/auth.go:425-456 | so it is in every run that starts with no update under way and one membership per user |
| `MemberRoles.OwnRoleCheckNeeded` | backend/internal/auth/auth.go:447-449 | the same service without the own-role check has a run of two steps that leaves an organization without any administrator |
| `Digits.ItoaInBuffer` | backend/e2e/fakeapis/proxy.go:54-66 | the backward fill stays inside its 20 bytes for every non-negative 64-bit number and returns its digits |
| `Digits.ItoaReads` | backend/e2e/fakeapis/proxy.go:54-66 | parsing the digits gives the number back; there is no leading zero |
| `Framing.Drain` | backend/e2e/fakeapis/proxy.go:34-36 | draining leaves the input right after the body, or empty if the body was cut off |
| `Framing.ServeConn` | backend/e2e/fakeapis/proxy.go:15-52 | the loop writes exactly one framed response for each request on the input, in order, until one closes or nothing more parses |
| `Framing.ResponseReadsBack` | backend/e2e/fakeapis/proxy.go:38-44 | a response reads back with its body and leaves the input at the next one, exactly unless the handler recorded a body where the status excludes one |
| `Framing.LengthKept` | backend/e2e/fakeapis/proxy.go:38-43 | a response has a `Content-Length` line exactly if it has a body, its status allows one, or it answers a POST, PUT or PATCH |
| `Framing.HeaderKept` | backend/e2e/fakeapis/proxy.go:38-43 | every recorded header whose name is valid and none of `Content-Length`, `Transfer-Encoding` and `Trailer` is written as one line |
| `Framing.LineRecorded` | backend/e2e/fakeapis/proxy.go:38-43 | and every other line of the head is that of such a header |
| `Framing.OneResponseEach` | backend/e2e/fakeapis/proxy.go:15-52 | reading the whole output back gives one response for each processed request, in order, bodies intact, exactly if no handler recorded a body under a status that excludes one |
| `Framing.BodyUnderNoContent` | backend/e2e/fakeapis/proxy.go:38-44 | a body recorded under `204 No Content` is left on the connection in front of the next response |
| `Framing.Aligned` | backend/e2e/fakeapis/proxy.go:34-36 | every well-formed message sent, with a length or chunked, is seen as it was sent, whatever the handlers read of the bodies |
| `Truncate.TruncateAll` | backend/cmd/nuke/main.go:226-252 | the statement for the rows read, or none for no table |
| `Truncate.DoubledReads` | backend/cmd/nuke/main.go:255-257 | lexing a quoted identifier gives the name back, whatever quotes it contains |
| `Truncate.StatementReads` | backend/cmd/nuke/main.go:236-257 | the statement lexes to its keywords around exactly the list of names, unless a name is empty: then it does not lex |
| `Truncate.StatementNames` | backend/cmd/nuke/main.go:236-257 | so no name can add, drop or change a table |
| `EnvRefs.MatchesIff` | authd/src/config.ts:41 | the pattern matches at a position exactly where some reference starts |
| `EnvRefs.DollarStarts` | authd/src/config.ts:41 | a dollar sign starts a reference exactly if letters, digits or underscores follow, or a brace, some of these and a closing brace |
| `EnvRefs.PiecesAreProper` | authd/src/config.ts:41 | every string is cut into characters and longest references, with no reference starting at a single character |
| `EnvRefs.ProperIsPieces` | authd/src/config.ts:41 | there is no other such cut |
| `EnvRefs.ReplaceRenders` | authd/src/config.ts:40-46 | replacement fails with the first reference that the lookup does not answer and otherwise is the pieces in order, values put in as they are and never searched again |
| `EnvRefs.ResolveRenders` | authd/src/config.ts:39-53 | over any tree: shape, keys and other leaves are kept, every string is rendered, and the error names the first reference in order that the lookup does not answer |
| `EnvRefs.NamesResolve` | authd/src/config.ts:41-46 | for every name of letters, digits and underscores, `${NAME}` and `$NAME` both become the variable's text, if it is not set the inherited one, and throw the name if there is neither |
| `EnvRefs.ThrowsExactly` | authd/src/config.ts:39-53 | it throws exactly when some reference in some string is neither set nor inherited by `process.env`; that agrees with some reference being unset exactly if one is neither or all are set |
| `EnvRefs.InheritedGoesIn` | authd/src/config.ts:41-46 | a reference to any inherited name that is not set does not throw, and becomes the inherited text |
| `EnvRefs.InheritedNotThrown` | authd/src/config.ts:41-46 | so it is for `$constructor` |
| `Fixtures.SetString` | scripts/scrape_test_data.py:102-107 | one string entry is replaced in place |
| `Fixtures.ScrubPeople` | scripts/scrape_test_data.py:97-111 | the in-place recursion leaves exactly the scrubbed tree, and touches nothing else |
| `Fixtures.Sanitize` | scripts/scrape_test_data.py:69-88 | the in-place recursion leaves exactly the sanitized tree, and touches nothing else |
| `Fixtures.Finalize` | scripts/scrape_test_data.py:114-117 | scrubbing, then sanitizing, of the same document in place |
| `FixtureProperties.ShapeKept` | scripts/scrape_test_data.py:69-117 | the same containers, keys, order and other leaves; strings stay strings |
| `FixtureProperties.FinalizedHidesPeople` | scripts/scrape_test_data.py:92-117 | at every depth the string `name`, `login` and `email` of a dictionary under `actor`, `user`, `assignee`, `creator`, `owner`, `sender` or `author` are the three placeholders, and so is every string under an e-mail key |
| `FixtureProperties.FinalizedKeepsOthers` | scripts/scrape_test_data.py:69-117 | every other non-empty string under a name key is as it was, every other string of a dictionary has only its e-mail addresses masked, and is as it was without an at sign, and so is every string of a list |
| `FixtureProperties.ActionCommutes` | scripts/scrape_test_data.py:150-157 | finalizing commutes with setting the top-level action, for every dictionary |
| `FixtureProperties.WithActionSays` | scripts/scrape_test_data.py:150-157 | the derived dictionary has `remove` under `action` and what it had under every other key |
| `FixtureProperties.DeriveRemoved` | scripts/scrape_test_data.py:143-157 | the fixture derived from the deep copy is the finalized source with only its action changed |
| `Slug.Slugify` | backend/internal/auth/auth.go:700-712 | the rewriting steps give the cut name, a dash and the eight hexadecimal digits |
| `Slug.TrimmedIsWords` | backend/internal/auth/auth.go:701-702 | the collapsed and trimmed name is its runs of letters and digits joined by single dashes |
| `Slug.StemIsCutWords` | backend/internal/auth/auth.go:701-708 | the part before the suffix is that, cut at 30 characters, or `org` |
| `Slug.PlainNameKept` | backend/internal/auth/auth.go:701-708 | a name of `a-z0-9` only is its own stem, up to 30 characters |
| `Slug.HexIs` | backend/internal/auth/auth.go:710-711 | the suffix writes each byte in two lower-case hexadecimal digits, the higher one first |
| `Slug.SlugsCollideOnlyAtRandom` | backend/internal/auth/auth.go:696-712 | two slugs are equal only if their random bytes and their stems are, whatever the names |
| `Slug.SlugShape` | backend/internal/auth/auth.go:696-712 | 10 to 39 characters of `[a-z0-9-]`, the first a letter or digit, and two dashes in a row exactly at the suffix of a name cut after a dash |

## Left out

- Route metadata: the operation's summary and group, tracing, metrics, labelers and middleware of the generated handlers and client.
- The concrete sets of characters that `net/url` and the generated encoder leave unescaped: the proofs hold for every set without the percent sign, and for the client's set without the slash.
- A configured `MethodNotAllowed` handler: its response is not modelled, only that it replaces the default one.
- The other generated records, validators, response decoders and status-code switches: they repeat the shapes shown; the records at schema level have no imperative decoder of their own here, except the three in `RecordCodec`.
- Bytes of JSON: escapes, numbers and white space are the decoder library's; the model starts at tokens, and one token stands for input that does not lex. A nil receiver is not representable.
- RecordCodec.DecodeLinearSettings: the error for a malformed value is only said to be an error, because its text is the library's.
- RequestDecoder.DecodeCreateLinearSettingsRequest: the closers and their joined errors, because this operation registers none.
- SHA-256: taken as injective where keys must differ. Header values with NUL never reach the service, because `net/http` refuses them; `SessionCache.KeyAlone` shows that this is exactly what the key needs.
- Concurrency below the lock: each locked section is one step of `SessionRuns`, and Go's mutex is taken to provide that. Cancelled contexts appear only as failed calls.
- SessionRuns.EveryRun: the organization and the role of one user may come from two versions of authd, because they are two calls; nothing is claimed about them being one snapshot.
- Time in `SessionRuns` never goes backwards, as Go's monotonic clock readings do not.
- authd: it takes a role update only from a current administrator of the organization; joining, leaving, ownership transfer and comma-separated role lists are not modelled. Requests without a session context are not modelled either.
- The other member, organization and invitation calls of the auth service: calls and copies without a loop worth a proof.
- Framing: the inside of a chunked coding, of which only the extent is known, and the chunk data that a handler reads; bare line feeds. Whether the recorder takes a body under a status that excludes one depends on the version of `net/http/httptest`; the model lets it, and none of the fake handlers does it. Errors while writing to the connection end the loop in the code and are not modelled. The order of header lines on the wire is not that of `net/http`.
- The format of instants of the JSON library: any pair of functions; `Records.WHOLE_SECONDS` is one example.
- Records.ResponseReadsBack: the fields go through `Emit` and the schema, not through loops over an encoder and a decoder of their own, which would repeat those of `RecordCodec` and `RecordEncoder`; the same for Records.UserReadsBack.
- PathRoundTrip.ClientPathRoundTrip: the query's own encoding, which `net/url` writes and reads; a level given more than once.
- Truncate: PostgreSQL's truncation of identifiers to 63 bytes, because names that come from the catalogue are within it; the query itself; and the counters of `revokeTokens`.
- EnvRefs: which names `process.env` inherits, and what text an inherited value becomes: both are any map.
- Fixtures: idempotence of the e-mail pattern, which does not hold in general; reading the captured files and writing the results.
- Slug: lower-casing is applied before the model's input, which is any text; uniqueness of the random suffix is not a property of the code.
- Network, database, TLS, certificates, e-mail, process lifecycle, front end and configuration files.

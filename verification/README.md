# magister core, modelled in Dafny

magister is a Rust service that keeps a pool of GPU instances rented on
Vast.ai. This project models its sequential decision logic and proves
properties of it. The async, HTTP and actor plumbing is left out.

- **Configuration** (`config.dfy`, `config_load.dfy`):
  - `ContemplantConfig::default`.
  - The shell exports handed to contemplants (`to_env_exports`), including the escaping of SSH keys.
  - `Config::load` as a total function of what is found at the configuration path and of the environment:
    - it starts from the decoded file, or from a fallback with empty required fields;
    - it applies every environment override (numbers, text, comma-separated lists) and checks the six required fields.
- **Vast client** (`vast.dfy`):
  - `filter_offers`, the blacklist filter.
  - The accept-until-`count` loop of `create_instances`. The offers search result and the answer of each create request are inputs.
- **Instance controller** (`instance_controller.dfy`):
  - `InstanceController::new`.
  - The `Drop` and `GetAll` arms of the background loop, as transitions of a `map<string, VastInstance>`.
  - The command loop as a fold over a sequence of commands. The answers of the remote destroy requests are inputs.
- **Records** (`types.dfy`): `VastInstance::new` and `From<Offer> for InstanceOverview`.
- **Shared support**:
  - `wrappers.dfy`: `Option` and `Result`.
  - `numeric.dfy`: Rust's `str::parse` for unsigned integers and the decimal `Display` of an unsigned integer.
  - `text.dfy`: `split` on a char, `join`, `trim`, `replace`, and subsequences.

Modelling decisions:
- `u16`, `u64` and `usize` are bounded `nat` subset types. `usize` is 64 bits wide.
- An `f64` is an opaque 64-bit pattern. Parsing one from the environment is a caller-supplied function, because float parsing is not modelled.
- The environment is a map holding the variables whose values are valid Unicode. `env::var` reports any other variable as unset, so it is absent from the map.

## Model

| member | source | states |
|---|---|---|
| Numeric.ParseUInt | src/config.rs:264 | `parse` of an unsigned integer succeeds exactly when, after one optional `+`, the text is one or more ASCII digits whose value fits the type; the value is then that of the digits |
| Numeric.ParseEdgeCases | src/config.rs:263-292 | the empty text, a lone `+`, a `-` sign, a leading space and 65536 (as a `u16`) are all rejected; `+007` reads as 7 and 65535 fits a `u16` |
| Numeric.ToDecimal | src/config.rs:150 | the decimal rendering of a number is non-empty, all digits, and has no leading zero unless the number is 0 |
| Numeric.ParseToDecimal | src/config.rs:150-159 | a number rendered into an export reads back as itself whenever it fits the type |
| Numeric.CanonicalDecimal | src/config.rs:150-159 | a digit string without leading zeros is exactly the rendering of its value, so rendering and reading are inverse on such text |
| Text.Split | src/config.rs:322 | splitting on `,` yields at least one piece, and no piece contains a `,` |
| Text.JoinSplit | src/config.rs:322 | joining the pieces of a split with the separator gives back the original text |
| Text.SplitLength | src/config.rs:322 | a split has one more piece than the text has separators, so an empty value is one empty piece |
| Text.Trim | src/config.rs:322 | trimming leaves a slice of the input with only whitespace cut off both ends and no whitespace at either end of the result |
| Text.TrimIdempotent | src/config.rs:322 | trimming twice is trimming once |
| Types.NewInstance | src/types.rs:41-48 | a new instance stores exactly the given id and offer and is never marked for dropping |
| Types.OverviewOf | src/types.rs:243-253 | the overview's instance id is the offer id; gpu, location, machine id, host id and hourly cost are copied unchanged |
| Types.OverviewProjection | src/types.rs:243-253 | two offers give the same overview exactly when they agree on the six projected fields |
| Configuration.DefaultContemplant | src/config.rs:95-133 | the default contemplant is a `cpu` prover on port 9011 with a 30 s heartbeat, 2 stored proofs, log `./moongate.log` polled every 2000 ms, and no name, endpoint or SSH keys |
| Configuration.FallbackConfig | src/config.rs:232-259 | without a file the six required fields are empty or zero, the port, backoff, polling and verification timeout take their defaults, no lists are set and the contemplant is the default |
| Configuration.EscapeKeys | src/config.rs:161-164 | escaped SSH keys contain no raw newline |
| Configuration.EscapeKeysIsEscapeEach | src/config.rs:163 | the three chained replacements equal escaping every character on its own in one pass |
| Configuration.UnescapeEscapeKeys | src/config.rs:161-164 | unescaping the escaped keys recovers the original keys exactly |
| Configuration.EscapeEachWellEscaped | src/config.rs:163 | the escaping of any text is well escaped: each `\` starts one of `\\`, `\"` and `\n`, and there is no bare `"` and no raw newline |
| Configuration.EscapeEachUnescape | src/config.rs:163 | every well-escaped text is the escaping of what it reads back as, so the texts the escaping produces are exactly the well-escaped ones |
| Configuration.WellEscapedQuotes | src/config.rs:163 | in well-escaped text every `"` comes right after a `\`, and there is no raw newline |
| Configuration.QuoteFirstIsNotReversible | src/config.rs:163 | with the two replacements the other way round (`"` before `\`), reading back with `Unescape` (which reads `\\`, `\"` and `\n`) turns the escaped text of `"` into `\"`, not `"`; the source's order is the one `Unescape` inverts (the swapped order is injective too, but it needs another reader) |
| Configuration.Exports | src/config.rs:138-160 | there are six exports plus one per optional field that is set, and PROVER_TYPE comes first |
| Configuration.ExportsKeepMandatoryOrder | src/config.rs:141-159 | the six mandatory exports appear in their fixed order: PROVER_TYPE, HTTP_PORT, HEARTBEAT_INTERVAL_SECONDS, MAX_PROOFS_STORED, MOONGATE_LOG_PATH, WATCHER_POLLING_INTERVAL_MS |
| Configuration.ExportsOptional | src/config.rs:144-165 | CONTEMPLANT_NAME, MOONGATE_ENDPOINT and SSH_AUTHORIZED_KEYS are exported exactly when the corresponding option is set |
| Configuration.ExportsOptionalValues | src/config.rs:144-165 | a set option is exported with its value, and the SSH keys are exported escaped |
| Configuration.ExportsOrdered | src/config.rs:138-165 | the exports follow one fixed global order of names, so no name is exported twice |
| Configuration.ToEnvExports | src/config.rs:138-168 | the joined string starts with the PROVER_TYPE export and a `; `, and ends with the SSH keys export if keys are set, else with the WATCHER_POLLING_INTERVAL_MS export |
| Configuration.DefaultContemplantExports | src/config.rs:119-168 | the default contemplant renders exactly the six mandatory exports with `cpu`, 9011, 30, 2, `./moongate.log` and 2000, joined by `; ` |
| Configuration.RenderSshKeys | src/config.rs:161-164 | for all keys, the SSH-keys export is `export SSH_AUTHORIZED_KEYS=\"` + the escaped keys + `\"`; the line contains no raw newline, every `"` inside the value comes right after a `\`, the value is well escaped, and it reads back as the keys |
| ConfigLoad.OverrideText | src/config.rs:266-268 | a set text variable replaces the field; an unset one leaves it |
| ConfigLoad.OverrideSome | src/config.rs:342-344 | a set variable makes the optional field `Some` of its value; an unset one leaves it |
| ConfigLoad.OverrideNum | src/config.rs:263-265 | a set numeric variable must parse within the field's width, else the load fails naming the variable; a valid one replaces the field, an unset one leaves it |
| ConfigLoad.OverrideFloat | src/config.rs:301-303 | the same for a float variable, with float parsing supplied by the caller |
| ConfigLoad.OverrideList | src/config.rs:321-324 | a set list variable must parse as a list, else the load fails naming it; a valid one replaces the field with `Some` of the list |
| ConfigLoad.ParseList | src/config.rs:322 | a list reads exactly when every trimmed comma-separated piece is a `u64`; it then holds one value per piece, in order |
| ConfigLoad.ParseListOfDecimals | src/config.rs:322 | a non-empty list of numbers written with commas reads back as that list |
| ConfigLoad.ParseListEmpty | src/config.rs:322 | an empty value is an error, not an empty list |
| ConfigLoad.ParseListTrailingComma | src/config.rs:322 | a trailing comma is an error |
| ConfigLoad.ParseListNegative | src/config.rs:322 | a negative number is an error |
| ConfigLoad.ParseListPair | src/config.rs:322 | two comma-separated pieces that each trim to a number read as those two numbers |
| ConfigLoad.ParseListSpaces | src/config.rs:322 | spaces around the pieces are ignored: ` d , e` reads as the two digits |
| ConfigLoad.ApplyServiceOverrides | src/config.rs:262-292 | the service overrides succeed exactly when every set numeric variable among them is valid; they then apply every set variable and change nothing else; a failure names the first malformed variable in statement order (`HTTP_PORT`, `HIEROPHANT_HTTP_PORT`, `VAST_API_CALL_BACKOFF_SECS`, `TASK_POLLING_INTERVAL_SECS`, `CONTEMPLANT_VERIFICATION_TIMEOUT_SECS`, `NUMBER_INSTANCES`), all before it being well formed |
| ConfigLoad.ApplyQueryOverrides | src/config.rs:294-318 | the same for the eight offers-query variables: success exactly when the seven numeric and float ones are well formed, and a failure names the first malformed one in statement order |
| ConfigLoad.ApplyListOverrides | src/config.rs:320-336 | the same for the four list variables, checked in the order `BAD_HOSTS`, `BAD_MACHINES`, `GOOD_HOSTS`, `GOOD_MACHINES` |
| ConfigLoad.ApplyContemplantOverrides | src/config.rs:338-365 | the same for the nine contemplant variables, of which the four numeric ones are checked, in statement order |
| ConfigLoad.ServiceOrder | src/config.rs:262-292 | for each service variable: if it is malformed and every one checked before it is well formed, the reported error names it; all pass exactly when the service variables are well formed |
| ConfigLoad.QueryOrder | src/config.rs:294-318 | the same, one clause per checked offers-query variable |
| ConfigLoad.ListOrder | src/config.rs:320-336 | the same, one clause per list variable |
| ConfigLoad.ContemplantOrder | src/config.rs:338-365 | the same, one clause per checked contemplant variable |
| ConfigLoad.EnvChecksOrder | src/config.rs:262-365 | the four stages' checks, concatenated, are all the checks in statement order: all pass exactly when each stage's do, and an error a stage reports after earlier stages passed is the first malformed variable of the whole list |
| ConfigLoad.MissingFields | src/config.rs:367-397 | a configuration is complete exactly when none of the six required fields is empty or zero |
| ConfigLoad.Validate | src/config.rs:367-399 | validation passes a complete configuration through unchanged, and otherwise names the first missing required field in the order they are checked |
| ConfigLoad.Base | src/config.rs:225-260 | no file gives the fallback, a decoded file its contents, and an unreadable or undecodable file an error |
| ConfigLoad.ApplyEnv | src/config.rs:262-365 | the override layer succeeds exactly when every set variable is well formed, and then applies all of them; a failure names the first malformed variable of all 21 checked ones, in the order of the statements of `load` |
| ConfigLoad.Load | src/config.rs:224-400 | `load` fails on an unreadable or undecodable file and on a malformed variable (it never falls back), naming the first malformed variable in statement order; a result is the base with every set variable applied and all required fields present |
| ConfigLoad.LoadSucceeds | src/config.rs:224-400 | conversely, a readable file and well-formed variables make `load` return that configuration whenever it is complete |
| ConfigLoad.EnvAppliedDeterministic | src/config.rs:262-365 | the base and the environment determine the overridden configuration completely |
| ConfigLoad.NoFileNeedsEnv | src/config.rs:231-397 | without a file, a successful load needs the environment to supply all six required fields, non-empty and non-zero |
| Vast.FilterOffers | src/vast.rs:174-198 | every kept offer is eligible, meaning its host id and its machine id are on no set blacklist, and the filter never adds offers |
| Vast.FilterCons | src/vast.rs:180-193 | an offer in front is kept exactly when it is eligible, ahead of the filtered rest |
| Vast.FilterCounts | src/vast.rs:182-192 | the filter keeps every eligible offer as often as it occurs in the input and drops every other offer |
| Vast.FilterSubsequence | src/vast.rs:180-193 | the kept offers are a subsequence of the input, in the input's order |
| Vast.FilterAppend | src/vast.rs:180-193 | filtering works offer by offer: the filter of a concatenation is the concatenation of the filters |
| Vast.FilterIdempotent | src/vast.rs:174-198 | filtering twice is filtering once |
| Vast.FilterKeepsAll | src/vast.rs:182-192 | the filter keeps the input unchanged exactly when every offer is eligible, and always when both blacklists are unset |
| Vast.Attempt | src/vast.rs:40-53 | a successful create request yields one instance holding the returned id and its offer; a failed one yields nothing and is not retried |
| Vast.SuccessesPrefix | src/vast.rs:39-59 | requesting more offers only appends instances |
| Vast.SuccessesWellFormed | src/vast.rs:40-46 | every rented pair is keyed by the instance's own id, is not marked for dropping, and comes from a requested offer |
| Vast.SuccessesInOfferOrder | src/vast.rs:39-59 | rented instances follow the order of their offers |
| Vast.RequestInOrder | src/vast.rs:39-59 | the loop returns the instances of exactly the requests it made, which are the first `count` successes; it makes no request once `count` instances are rented |
| Vast.CreateInstancesTakesFirst | src/vast.rs:39-59 | stopping at the `count`-th success, or at the end of the offers, yields the first `count` successes of the whole list |
| Vast.CreateInstances | src/vast.rs:22-62 | a count of 0 returns no instances without searching; a failed search is an error; otherwise the result is the first `count` successful requests over the filtered offers, at most `count` of them, each from an eligible offer and keyed by its instance id; no request is made after the `count`-th success |
| InstanceController.New | src/instance_controller.rs:43-55 | a new controller holds no instances |
| InstanceController.DropInstance | src/instance_controller.rs:62-69 | after `Drop` the id is not in the pool; every other entry is unchanged; the pool shrinks by one exactly when the id was present |
| InstanceController.DropIdempotent | src/instance_controller.rs:63-66 | dropping an unknown id leaves the pool unchanged, and dropping twice is dropping once |
| InstanceController.Step | src/instance_controller.rs:61-82 | `GetAll` returns exactly the current pool and changes nothing; `Drop` removes the id, reports whether it was known, and sends the destroy request whatever its answer |
| InstanceController.Run | src/instance_controller.rs:57-94 | the loop handles every command once, in order, and never changes the configuration |
| InstanceController.DroppedIdsExact | src/instance_controller.rs:62-63 | an id counts as dropped exactly when some `Drop` command names it |
| InstanceController.RunPool | src/instance_controller.rs:57-83 | nothing is ever added to the pool: after a run it is the initial pool without the dropped ids |
| InstanceController.RunIgnoresDestroyAnswers | src/instance_controller.rs:63-72 | the local removal stands whatever the remote destroy requests answer |
| InstanceController.RunEffectsPrefix | src/instance_controller.rs:57-94 | commands are handled one after another: a prefix of the commands yields a prefix of the effects |
| InstanceController.RunSnapshot | src/instance_controller.rs:78-81 | each `GetAll` answers with the initial pool minus the ids dropped before it |
| InstanceController.RunDestroys | src/instance_controller.rs:62-72 | each `Drop` sends a destroy request for its id, reports it known exactly when it was still in the pool, and logs a failure exactly when the remote call failed |
| InstanceController.NewStaysEmpty | src/instance_controller.rs:43-94 | a controller started with `new` stays empty and sends only empty snapshots |
| InstanceController.NewDropsUnknown | src/instance_controller.rs:62-72 | on such a controller every `Drop` finds its id unknown but still sends the destroy request |

## Left out

- Reading the configuration file and TOML/serde decoding (src/config.rs:226-230) are not modelled: the input is the outcome, either no file, an unreadable file, an undecodable file or a decoded `Config`. serde defaults for fields missing from the file are part of that decoding.
- Parsing `f64` environment values (src/config.rs:301-317) is a caller-supplied function, and `f64` values are opaque.
- `VastQueryConfig::to_query_string` (src/config.rs:191-217) is not modelled. It formats `f64` values with `Display`.
- `VastInstance`'s `Display` (src/types.rs:51-63) is not modelled, for the same reason (`{:.2}` of an `f64`).
- The HTTP requests are not modelled: offers search, create and destroy (src/vast.rs:64-171), including URLs, headers and JSON. Their outcomes are inputs:
  - the offers search is an `Ok` list or an `Err`;
  - each create request is an id or a failure, looked up by its position in the request order and the offer id;
  - each destroy request is `Ok` or `Err` per command.
- The tokio channel, the task spawning, `InstanceControllerClient` and the slow-command timing (src/instance_controller.rs:14-31, 57-60, 85-91) are not modelled. The commands are modelled as a sequence handled one at a time.
- Log messages are not modelled, except the facts they report (a `Drop` of a known or unknown id, a failed destroy).
  - This includes the warning about the number of offers found (src/vast.rs:30-38). Its condition fires when more offers than requested were found, while its message describes a shortfall. No behaviour depends on it.
- The empty block after a `Drop` when the pool is below `number_instances` (src/instance_controller.rs:74-76) does nothing and is not modelled.
- Of the offer's fields, only the id, contract id, host id, machine id, GPU name, location and hourly cost are kept. The others are only decoded and displayed.
- Three spots in the source would not compile as written. The model follows the evident intent:
  - `template_hash_id` in the create request body, where the field is `template_hash`;
  - the import of a nonexistent `VastConfig`;
  - a `&String` instance id passed where a `u64` is expected.

  The controller's pool is keyed by the `String` id, and the remote destroy is opaque.
- `Vast.CreateInstances`: the requested count is an unbounded `nat` rather than a `usize`. A count that does not fit in 64 bits cannot arise.
- The HTTP server and router (src/main.rs, src/http_handler.rs) are not modelled.

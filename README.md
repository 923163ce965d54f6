# nuagex_lab in Dafny

A model of the `nuagex_lab` Ansible module. The module makes sure that a lab on the NuageX
platform exists and runs (`state=present`) or is gone (`state=absent`). It also models the
result-capture helpers its tests use.

The NuageX HTTP API is an oracle: `Server = seq<Request> -> Reply`. The server answers the last
request of the history it is given, with a status, a message and a decoded JSON body. Because
the oracle sees the whole history, any server behaviour can be modelled, including one that
changes over time or depends on earlier calls. The run's observable behaviour is its trace of
requests:

- `Login`;
- `Http(endpoint, bearer)`, where the endpoint is a lookup by name, a create or a delete by id;
- `Sleep(seconds)`.

Modules:

- `Json` (`json.dfy`): decoded JSON values, Python truthiness and `dict.get`.
- `Labs` (`nuage_lab.dfy`): the `NuageLab` record, `from_json`, `as_json` and `is_runnung`.
- `NuageXSpec` (`nuagex_spec.dfy`): every client operation as a function over a connection
  state. The state is the cached token plus the trace. Each function returns a value or a halt:
  either `fail_json`, with the failure kept as a structured message, or an exception that nobody
  catches.
- `NuageXClient` (`nuagex_client.dfy`): the `NuageX` class. It has the mutable `token` cache and
  the trace. Each of its methods is proved to compute exactly its `NuageXSpec` function, and
  `wait_lab` is a counted loop.
- `NuageXFacts` (`nuagex_facts.dfy`): properties of the client. They cover the token cache, the
  2xx rule, the polling bound, and what each call adds to the trace.
- `NuageXLab` (`run_module.dfy`): `run_module`. It is an imperative method that updates the
  result map in place on a `NuageX` object, proved equal to the function `Reconcile`.
- `DriftTable` (`drift_table.dfy`): the drift decision table proved about `Reconcile`.
- `TestUtils` (`test_utils.dfy`): the `exit_json`/`fail_json` stand-ins, `fetch_data`,
  `set_module_args`, `is_casette_recording` and the two lab assertions.

A run ends in one of four ways:

- `Exited(result)`;
- `Failed(message)`;
- `Crashed(fault)`, a Python exception from the client;
- `AsJsonOfBool(flag)`. Here `create_lab_sync` returned the boolean of `wait_lab` instead of a
  lab, and `run_module` then calls `.as_json` on it. With `state=present`, `wait_lab` returns
  False once its 20 polls run out, so this case is reachable. The model keeps it as a distinct
  ending rather than assuming that creation succeeds.

## Model

| member | source | states |
|---|---|---|
| Json.Truthy | library/nuagex_lab.py:78 | Python truthiness: false exactly for None, False, 0, "", [] and {} |
| Labs.AsJsonFromJson | library/nuagex_lab.py:167-184 | `as_json(from_json(d))` has exactly the keys lab_id, lab_name, lab_address, lab_password, holding `d`'s `_id`, `name`, `externalIP`, `password`, or None when absent |
| Labs.RunningFromJson | library/nuagex_lab.py:167-188 | a lab built from `d` is running exactly when `d` has `status` equal to "started" |
| Labs.NuageLab.IsRunning | library/nuagex_lab.py:186-188 | definition; properties in `Labs.RunningFromJson` |
| Labs.NuageLab.AsJson | library/nuagex_lab.py:177-184 | definition; properties in `Labs.AsJsonFromJson` |
| Labs.FromJson | library/nuagex_lab.py:167-175 | definition; properties in `Labs.AsJsonFromJson` and `Labs.RunningFromJson` |
| NuageXSpec.Token | library/nuagex_lab.py:77-95 | definition of `token()` on the connection state; properties in `NuageXFacts.TokenFacts` and `NuageXFacts.TokenMemoised` |
| NuageXSpec.Api | library/nuagex_lab.py:134-152 | definition of `_api`/`_api_json`; properties in `NuageXFacts.ApiShape`, `ApiAdds`, `ApiTally` and `ApiResult` |
| NuageXSpec.LabByName | library/nuagex_lab.py:97-99 | definition; properties in `NuageXSpec.FirstLab` and `NuageXFacts.LabByNameFacts` |
| NuageXSpec.CreateLab | library/nuagex_lab.py:101-111 | definition; properties in `NuageXFacts.CreateLabFacts` |
| NuageXSpec.DeleteLab | library/nuagex_lab.py:127-128 | definition; properties in `NuageXFacts.DeleteLabFacts` |
| NuageXSpec.WaitLab | library/nuagex_lab.py:117-125 | definition, recursive on the retries left; properties in `NuageXFacts.WaitCounts`, `WaitResult` and `WaitSleeps` |
| NuageXSpec.CreateLabSync | library/nuagex_lab.py:113-115 | definition; properties in `DriftTable.CreateSyncFacts` |
| NuageXSpec.DeleteLabSync | library/nuagex_lab.py:130-132 | definition; properties in `DriftTable.DeleteSyncFacts` |
| NuageXLab.Prepare | library/nuagex_lab.py:214-230 | definition of the credential checks, the early `token()` and the first lookup; properties in `DriftTable.MissingCredentials` and `DriftTable.PrepareSendsNoChange` |
| NuageXLab.Act | library/nuagex_lab.py:232-251 | definition of the drift decision; properties in `DriftTable.ActWithoutActions` and `DriftTable.ActWithActions` |
| NuageXLab.Reconcile | library/nuagex_lab.py:191-251 | definition of a whole run; properties in `DriftTable.ChangedIsDrift`, `ChangesFollowPlan`, `NoActionRun`, `ReportedLab` and `LoginOnce` |
| TestUtils.AssertPresent | tests/utils.py:51-52 | definition: the value is truthy |
| TestUtils.AssertNoLabReturned | tests/utils.py:72-74 | definition; properties in `TestUtils.NoLabReturnedIff` and `TestUtils.AbsentRunReturnsNoLab` |
| TestUtils.AssertLabReturned | tests/utils.py:54-70 | definition; properties in `TestUtils.LabReturnedNeverHolds` |
| NuageXSpec.FirstLab | library/nuagex_lab.py:97-99 | a falsy lookup body gives None; a non-empty list whose element 0 is an object gives the lab built from it; everything else raises |
| NuageXFacts.TokenFacts | library/nuagex_lab.py:77-95 | a truthy cached token is returned with no request; otherwise exactly one login is sent; a login status other than 200 fails with the credentials message and leaves the cache as it was; a 200 reply with an object body caches and returns its `accessToken` |
| NuageXFacts.TokenMemoised | library/nuagex_lab.py:77-95 | once a call has cached a truthy token, the next call returns it and sends nothing |
| NuageXFacts.ApiShape | library/nuagex_lab.py:137-152 | `_api` appends at most the login and then the call itself, and keeps the token that `token()` left |
| NuageXFacts.ApiAdds | library/nuagex_lab.py:137-152 | every request `_api` adds is a login or its own call, and a truthy cached token survives |
| NuageXFacts.ApiTally | library/nuagex_lab.py:137-152 | `_api` sends no sleep, and adds one lookup or one create/delete exactly when it obtained a token |
| NuageXFacts.ApiResult | library/nuagex_lab.py:137-152 | a token failure propagates; otherwise the call is sent with the token as bearer, succeeds exactly when the status is in [200, 300) with the reply body, and fails with the status and message otherwise |
| NuageXFacts.LabByNameFacts | library/nuagex_lab.py:97-99 | `lab_by_name` sends no sleep and no change and at most one lookup; on success it sent exactly one, and its result is the verdict on that lookup's reply |
| NuageXFacts.CreateLabFacts | library/nuagex_lab.py:101-111 | `create_lab` sends no lookup and no sleep, at most one create of the name, and one when it succeeds; it then returns the lab built from the object the server answered with |
| NuageXFacts.DeleteLabFacts | library/nuagex_lab.py:127-128 | `delete_lab` sends no lookup and no sleep, at most one delete of the lab's id, and one when it succeeds |
| NuageXFacts.WaitCounts | library/nuagex_lab.py:117-125 | `wait_lab` sends at most `retries` lookups and no change; on False, exactly `retries` lookups and `retries` sleeps; on a lab or True, one lookup more than sleeps |
| NuageXFacts.WaitResult | library/nuagex_lab.py:117-125 | a lab is returned only for 'present', and it is running and the one the last lookup saw; True only for 'absent', when the last lookup found nothing |
| NuageXFacts.WaitSleeps | library/nuagex_lab.py:117-125 | every sleep of `wait_lab` lasts `interval_seconds` and follows a lookup of the lab whose answer did not end the wait |
| NuageXClient.NuageX.constructor | library/nuagex_lab.py:70-75 | a new client holds the credentials, no token and an empty trace |
| NuageXClient.NuageX.Token | library/nuagex_lab.py:77-95 | with a truthy cache, the cached token and an unchanged state; otherwise one login appended; in all cases the result and new state of the `token()` function |
| NuageXClient.NuageX.Api | library/nuagex_lab.py:137-152 | result and new state are those of `_api` |
| NuageXClient.NuageX.LabByName | library/nuagex_lab.py:97-99 | result and new state are those of `lab_by_name` |
| NuageXClient.NuageX.CreateLab | library/nuagex_lab.py:101-111 | result and new state are those of `create_lab` |
| NuageXClient.NuageX.DeleteLab | library/nuagex_lab.py:127-128 | result and new state are those of `delete_lab` |
| NuageXClient.NuageX.WaitLab | library/nuagex_lab.py:117-125 | the counted loop ends with the result and state of the recursive `wait_lab` |
| NuageXClient.NuageX.CreateLabSync | library/nuagex_lab.py:113-115 | result and new state are those of `create_lab_sync` |
| NuageXClient.NuageX.DeleteLabSync | library/nuagex_lab.py:130-132 | result and new state are those of `delete_lab_sync` |
| NuageXLab.RunModule | library/nuagex_lab.py:191-251 | the imperative run, which updates the result in place, ends as `Reconcile` does and sends the same requests |
| DriftTable.DriftIsUnsatisfied | library/nuagex_lab.py:233-251 | for 'present'/'absent', the module sees drift exactly when `wait_lab` would not stop on the lab it saw |
| DriftTable.DeleteSyncFacts | library/nuagex_lab.py:130-132 | `delete_lab_sync` keeps the token cache and sends at most the one delete of the lab's id, which it sent when it succeeded; it never answers a lab, and answers True only when its last lookup of the lab's name found nothing |
| DriftTable.CreateSyncFacts | library/nuagex_lab.py:113-115 | `create_lab_sync` sends at most one create; on success it sent it and never answers True; a lab it answers is running and was seen by its last lookup |
| DriftTable.CreateAndReportFacts | library/nuagex_lab.py:239-245 | a create that exits reports the fields of the running lab the last lookup saw, and sent one create; it ends in `.as_json` on False exactly when the wait timed out, and never in `.as_json` on True |
| DriftTable.RecreateFacts | library/nuagex_lab.py:235-240 | recreating sends a prefix of delete-then-create, all of it when it exits, and then reports the new running lab |
| DriftTable.RemoveFacts | library/nuagex_lab.py:246-249 | deleting sends at most the one delete, sends it on exit, and exits with the result unchanged |
| DriftTable.ActWithoutActions | library/nuagex_lab.py:233-251 | in check mode or without drift: no request, exit with `changed` equal to the drift, and lab fields only for a lab already running |
| DriftTable.ActWithActions | library/nuagex_lab.py:233-251 | outside check mode with drift: the creates/deletes sent are a prefix of the plan, all of it on exit; exits report the running lab ('present') or no lab fields ('absent') |
| DriftTable.PrepareSendsNoChange | library/nuagex_lab.py:224-230 | the early login and the first lookup send no create or delete, and with credentials they log in at least once |
| DriftTable.MissingCredentials | library/nuagex_lab.py:216-222 | a falsy username, then a falsy password, fails with its message before any request |
| DriftTable.ChangedIsDrift | library/nuagex_lab.py:201-251 | every exit has exactly the initial five keys and `changed` equal to the drift between the desired state and the lab first seen |
| DriftTable.ChangesFollowPlan | library/nuagex_lab.py:233-251 | the creates/deletes of a run are a prefix of the plan (recreate: delete then create; missing: create; unwanted: delete; check mode: none), all of it when it exits |
| DriftTable.NoActionRun | library/nuagex_lab.py:233-251 | in check mode or without drift, the run sends only the login and lookup and exits with the drift as `changed`, lab fields only for a running lab |
| DriftTable.ReportedLab | library/nuagex_lab.py:233-251 | outside check mode with drift, an exit after a create reports a running lab the last lookup saw; an exit after a delete reports no lab; `.as_json` on True never happens |
| DriftTable.LoginOnce | library/nuagex_lab.py:77-78 | once the first login caches a truthy token, the whole run logs in exactly once |
| TestUtils.ExitPayload | tests/utils.py:83-87 | the exit payload keeps every given key and value, and adds `changed=False` when it is missing |
| TestUtils.ExitJson | tests/utils.py:83-87 | always raises the exit signal carrying the rewritten payload |
| TestUtils.FailPayload | tests/utils.py:90-93 | the failure payload has `failed=True` whatever it was, and keeps every other key and value |
| TestUtils.FailJson | tests/utils.py:90-93 | always raises the failure signal carrying the rewritten payload |
| TestUtils.FetchData | tests/utils.py:96-98 | the payload's value for the key, or None when the key is absent |
| TestUtils.ModuleArgs.SetModuleArgs | tests/utils.py:77-80 | the argument slot holds the one-key object `{ANSIBLE_MODULE_ARGS: args}`, from which `args` is read back |
| TestUtils.IsCassetteRecording | tests/utils.py:31-32 | recording exactly when the cassette holds no requests |
| TestUtils.NoLabReturnedIff | tests/utils.py:72-74 | `assertNoLabReturned` passes exactly when `lab_name` and `lab_id` are each absent or falsy |
| TestUtils.ExitReportsDrift | library/nuagex_lab.py:251 | the `changed` that `exit_json` raises for a run is the drift the run saw |
| TestUtils.AbsentRunReturnsNoLab | tests/utils.py:72-74 | every exit of a `state=absent` run passes `assertNoLabReturned` |
| TestUtils.LabReturnedNeverHolds | tests/utils.py:54-70 | no exit of `run_module` passes `assertLabReturned`, because the module never reports `lab_ip` |

## Left out

- The HTTP transport (`fetch_url`), reading and decoding bodies, and `to_native`. The server oracle answers with an already decoded body. The JSON encoding of request bodies is also left out.
- URL templates, query-string formatting and the fixed body of the create request: the endpoint records only the lab name or id.
- Any exception inside `json.loads` on a malformed body: bodies are always decoded values here.
- `time.sleep` itself: it is a `Sleep(seconds)` entry in the trace. `interval_seconds` is a natural number, and only the default of 5 is used.
- The text of the `fail_json` messages: each failure is a structured message that carries the username, or the status and message of the HTTP error.
- `AnsibleModule` argument parsing, `choices`, the defaults for `state` and `nuagex_auth`, and the `os.environ` credential defaults. The parameters are plain inputs, and check mode is a boolean.
- The `DOCUMENTATION`, `EXAMPLES` and `RETURN` strings, and `NuageLab.__str__`.
- Numbers are integers; floating-point JSON numbers are not modelled.
- Exceptions on malformed replies are grouped into two kinds. A lookup body that is truthy but not a list is one kind, whatever Python would raise. A body or record that is not an object is the other.
- The VCR cassette configuration and its redaction of credentials (`_get_vcr_kwargs`), which belong to the `vcr` library.
- The `patch.multiple`/`patch.object` setup and cleanup of the test mixin, and `prevent_sleeping`.
- `TestUtils.ModuleArgs.SetModuleArgs`: stores the decoded object, not its JSON text as bytes.
- `tests/test_library_nuagex_lab.py` is not part of this model: it replays recorded cassettes and holds no logic of its own.

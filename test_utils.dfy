/**
 * The result-capture helpers of the module's tests: `exit_json` and
 * `fail_json` stand in for the framework's and raise their payload instead
 * of ending the process, `fetch_data` reads a key of a raised payload,
 * `set_module_args` stores the arguments the framework picks up, and two
 * assertion helpers judge a payload. Proved here: what the stand-ins do to
 * the payload, and what the assertions say about the payloads `run_module`
 * can exit with.
 */
module TestUtils {
  import opened Json
  import opened NuageXSpec
  import opened NuageXLab
  import opened DriftTable

  /** The two exceptions a test catches; each carries the payload as its one argument. */
  datatype Signal =
    | AnsibleExitJson(payload: map<string, Value>)
    | AnsibleFailJson(payload: map<string, Value>)

  /** The keyword arguments `exit_json` raises with: `changed` defaults to False, every given key is kept. */
  function ExitPayload(kwargs: map<string, Value>): (r: map<string, Value>)
    ensures r.Keys == kwargs.Keys + {"changed"}
    ensures forall k :: k in kwargs ==> r[k] == kwargs[k]
    ensures "changed" !in kwargs ==> r["changed"] == Bool(false)
  {
    if "changed" in kwargs then kwargs else kwargs["changed" := Bool(false)]
  }

  /** The stand-in for `exit_json`: it writes the default into the keyword arguments, then raises; it never returns a value. */
  method ExitJson(kwargs: map<string, Value>) returns (raised: Signal)
    ensures raised == AnsibleExitJson(ExitPayload(kwargs))
  {
    var args := kwargs;
    if "changed" !in args {
      args := args["changed" := Bool(false)];
    }
    raised := AnsibleExitJson(args);
  }

  /** The keyword arguments `fail_json` raises with: `failed` is True whatever it was, every other key is kept. */
  function FailPayload(kwargs: map<string, Value>): (r: map<string, Value>)
    ensures r.Keys == kwargs.Keys + {"failed"}
    ensures r["failed"] == Bool(true)
    ensures forall k :: k in kwargs && k != "failed" ==> r[k] == kwargs[k]
  {
    kwargs["failed" := Bool(true)]
  }

  /** The stand-in for `fail_json`: it overwrites `failed` in the keyword arguments, then raises. */
  method FailJson(kwargs: map<string, Value>) returns (raised: Signal)
    ensures raised == AnsibleFailJson(FailPayload(kwargs))
  {
    var args := kwargs;
    args := args["failed" := Bool(true)];
    raised := AnsibleFailJson(args);
  }

  /** `fetch_data`: the raised payload's value for `key`, or None when it has no such key. */
  function FetchData(raised: Signal, key: string): (v: Value)
    ensures key in raised.payload ==> v == raised.payload[key]
    ensures key !in raised.payload ==> v == Null
  {
    Get(raised.payload, key)
  }

  /** The interpreter-wide argument slot of the module framework. */
  class ModuleArgs {
    var ansibleArgs: Value

    constructor ()
      ensures ansibleArgs == Null
    {
      ansibleArgs := Null;
    }

    /** What the framework reads back from the slot: the object under `ANSIBLE_MODULE_ARGS`. */
    function Picked(): Option<Value>
      reads this
    {
      if ansibleArgs.Obj? && "ANSIBLE_MODULE_ARGS" in ansibleArgs.fields then Some(ansibleArgs.fields["ANSIBLE_MODULE_ARGS"])
      else None
    }

    /** `set_module_args`: the slot holds a one-key object wrapping `args`, which is what the framework then picks up. */
    method SetModuleArgs(args: Value)
      modifies this
      ensures ansibleArgs == Obj(map["ANSIBLE_MODULE_ARGS" := args])
      ensures Picked() == Some(args)
    {
      ansibleArgs := Obj(map["ANSIBLE_MODULE_ARGS" := args]);
    }
  }

  /** `is_casette_recording`: a cassette is being recorded exactly when it holds no requests yet. */
  function IsCassetteRecording<R>(requests: seq<R>): (recording: bool)
    ensures recording <==> |requests| == 0
  {
    !(|requests| > 0)
  }

  /** `assertPresent`: the value is truthy. */
  predicate AssertPresent(v: Value)
  {
    Truthy(v)
  }

  /** `assertNoLabReturned` passes: neither `lab_name` nor `lab_id` is truthy. */
  predicate AssertNoLabReturned(raised: Signal)
  {
    !Truthy(FetchData(raised, "lab_name")) && !Truthy(FetchData(raised, "lab_id"))
  }

  /** `assertNoLabReturned` passes exactly when each of the two keys is absent or holds a falsy value. */
  lemma NoLabReturnedIff(raised: Signal)
    ensures AssertNoLabReturned(raised) <==>
      forall k :: k in {"lab_name", "lab_id"} ==> k !in raised.payload || !Truthy(raised.payload[k])
  {
    if !AssertNoLabReturned(raised) {
      var k := if Truthy(FetchData(raised, "lab_name")) then "lab_name" else "lab_id";
      assert k in {"lab_name", "lab_id"};
    }
  }

  /** A dictionary whose entries under `keys` are all truthy; `.get` on anything else raises. */
  predicate PresentFields(v: Value, keys: set<string>)
  {
    v.Obj? && Truthy(v) && forall k :: k in keys ==> Truthy(Get(v.fields, k))
  }

  /** `assertLabReturned` passes: the named lab with an id, an IP, and web and AMQP endpoints with their credentials. */
  predicate AssertLabReturned(raised: Signal)
  {
    && FetchData(raised, "lab_name") == Str("integration-tests")
    && AssertPresent(FetchData(raised, "lab_id"))
    && AssertPresent(FetchData(raised, "lab_ip"))
    && PresentFields(FetchData(raised, "lab_web"), {"address", "org", "user", "password"})
    && PresentFields(FetchData(raised, "lab_amqp"), {"address", "user", "password"})
  }

  /** An exit of `run_module` raises the `changed` flag of the drift between the desired state and the lab the lookup saw. */
  lemma ExitReportsDrift(p: Params, server: Server)
    requires Prepare(p, server).ret.Ok? && Reconcile(p, server).0.Exited?
    ensures var raised := AnsibleExitJson(ExitPayload(Reconcile(p, server).0.result));
      FetchData(raised, "changed") == Bool(Drift(p.state, Prepare(p, server).ret.value))
  {
    ChangedIsDrift(p, server);
  }

  /** A run of `run_module` with `state=absent` that exits passes `assertNoLabReturned`. */
  lemma AbsentRunReturnsNoLab(p: Params, server: Server)
    requires p.state == "absent" && Reconcile(p, server).0.Exited?
    ensures AssertNoLabReturned(AnsibleExitJson(ExitPayload(Reconcile(p, server).0.result)))
  {
    var prep := Prepare(p, server);
    assert prep.ret.Ok?;
    var lab := prep.ret.value;
    if p.checkMode || !Drift(p.state, lab) {
      NoActionRun(p, server);
    } else {
      ReportedLab(p, server);
    }
  }

  /**
   * No exit of `run_module` passes `assertLabReturned`: the module reports `lab_address` and
   * `lab_password`, never `lab_ip`, `lab_web` or `lab_amqp`.
   */
  lemma LabReturnedNeverHolds(p: Params, server: Server)
    requires Reconcile(p, server).0.Exited?
    ensures !AssertLabReturned(AnsibleExitJson(ExitPayload(Reconcile(p, server).0.result)))
  {
    var prep := Prepare(p, server);
    assert prep.ret.Ok?;
    ChangedIsDrift(p, server);
    var raised := AnsibleExitJson(ExitPayload(Reconcile(p, server).0.result));
    assert "lab_ip" !in raised.payload;
  }
}

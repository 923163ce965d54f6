/**
 * `run_module` of library/nuagex_lab.py: compare the desired state of the
 * lab with what the server reports, create or delete to close the gap, and
 * report the result through `exit_json` (or end early through `fail_json`).
 */
module NuageXLab {
  import opened Json
  import opened Labs
  import opened NuageXSpec
  import opened NuageXClient

  /** The module's parameters once the framework has parsed them, and its check-mode flag. */
  datatype Params = Params(name: string, state: string, username: Value, password: Value, checkMode: bool)

  /**
   * How the module ends: `exit_json(**result)`, `fail_json(msg=...)`, an exception the client
   * raises and nobody catches, or the exception of `.as_json` on the boolean `wait_lab` returned
   * instead of a lab.
   */
  datatype Outcome =
    | Exited(result: map<string, Value>)
    | Failed(message: Message)
    | Crashed(fault: Fault)
    | AsJsonOfBool(flag: bool)

  /** The result before any drift is handled. */
  const INITIAL: map<string, Value> :=
    map["changed" := Bool(false), "lab_id" := Str(""), "lab_name" := Str(""), "lab_address" := Str(""), "lab_password" := Str("")]

  function Abort(h: Halt): Outcome
  {
    match h
    case Fail(m) => Failed(m)
    case Raise(f) => Crashed(f)
  }

  function SessionOf(p: Params, server: Server): Session
  {
    Session(p.username, p.password, server)
  }

  /** The part of `run_module` before the drift decision: credential checks, `token()`, and the lookup of the lab. */
  function Prepare(p: Params, server: Server): Run<Option<NuageLab>>
  {
    if !Truthy(p.username) then Run(Stop(Fail(MissingUsername)), Conn(Null, []))
    else if !Truthy(p.password) then Run(Stop(Fail(MissingPassword)), Conn(Null, []))
    else
      var s := SessionOf(p, server);
      var auth := Token(s, Conn(Null, []));
      if auth.ret.Stop? then Run(Stop(auth.ret.halt), auth.conn)
      else LabByName(s, auth.conn, Str(p.name))
  }

  /** `result.update(lab.as_json)` on what `create_lab_sync` returned: only a lab has `as_json`. */
  function Report(made: Run<Waited>, result: map<string, Value>): (Outcome, Conn)
  {
    match made.ret
    case Stop(h) => (Abort(h), made.conn)
    case Ok(Ready(lab)) => (Exited(result + lab.AsJson()), made.conn)
    case Ok(Gone) => (AsJsonOfBool(true), made.conn)
    case Ok(TimedOut) => (AsJsonOfBool(false), made.conn)
  }

  /** `lab = nux.create_lab_sync(name)` followed by `result.update(lab.as_json)`. */
  function CreateAndReport(s: Session, c: Conn, name: string, result: map<string, Value>): (Outcome, Conn)
  {
    Report(CreateLabSync(s, c, Str(name)), result)
  }

  /** An erroring lab: `delete_lab_sync`, then a create reported as above. */
  function Recreate(s: Session, c: Conn, lab: NuageLab, name: string, result: map<string, Value>): (Outcome, Conn)
  {
    var del := DeleteLabSync(s, c, lab);
    if del.ret.Stop? then (Abort(del.ret.halt), del.conn)
    else CreateAndReport(s, del.conn, name, result)
  }

  /** An unwanted lab: `delete_lab_sync`, then exit with `result`. */
  function Remove(s: Session, c: Conn, lab: NuageLab, result: map<string, Value>): (Outcome, Conn)
  {
    var del := DeleteLabSync(s, c, lab);
    if del.ret.Stop? then (Abort(del.ret.halt), del.conn)
    else (Exited(result), del.conn)
  }

  /** The drift decision of `run_module` and the actions it takes. */
  function Act(s: Session, c: Conn, p: Params, lab: Option<NuageLab>): (Outcome, Conn)
  {
    if p.state == "present" && lab.Some? && lab.value.IsRunning() then
      (Exited(INITIAL + lab.value.AsJson()), c)
    else if p.state == "present" && lab.Some? then
      var result := INITIAL["changed" := Bool(true)];
      if p.checkMode then (Exited(result), c)
      else Recreate(s, c, lab.value, p.name, result)
    else if p.state == "present" then
      var result := INITIAL["changed" := Bool(true)];
      if p.checkMode then (Exited(result), c)
      else CreateAndReport(s, c, p.name, result)
    else if p.state == "absent" && lab.Some? then
      var result := INITIAL["changed" := Bool(true)];
      if p.checkMode then (Exited(result), c)
      else Remove(s, c, lab.value, result)
    else
      (Exited(INITIAL), c)
  }

  /** A whole run: how it ends and every request it sent. */
  function Reconcile(p: Params, server: Server): (Outcome, seq<Request>)
  {
    var prep := Prepare(p, server);
    match prep.ret
    case Stop(h) => (Abort(h), prep.conn.trace)
    case Ok(lab) =>
      var done := Act(SessionOf(p, server), prep.conn, p, lab);
      (done.0, done.1.trace)
  }

  /** `run_module`, step by step on a `NuageX` object, with the result map updated in place. */
  method RunModule(p: Params, server: Server) returns (outcome: Outcome, trace: seq<Request>)
    ensures (outcome, trace) == Reconcile(p, server)
  {
    var result := INITIAL;
    if !Truthy(p.username) {
      return Failed(MissingUsername), [];
    }
    if !Truthy(p.password) {
      return Failed(MissingPassword), [];
    }
    var nux := new NuageX(p.username, p.password, server);
    var auth := nux.Token();
    if auth.Stop? {
      return Abort(auth.halt), nux.trace;
    }
    var lab := nux.LabByName(Str(p.name));
    if lab.Stop? {
      return Abort(lab.halt), nux.trace;
    }
    if p.state == "present" && lab.value.Some? && lab.value.value.IsRunning() {
      result := result + lab.value.value.AsJson();
    } else if p.state == "present" && lab.value.Some? {
      result := result["changed" := Bool(true)];
      if !p.checkMode {
        var gone := nux.DeleteLabSync(lab.value.value);
        if gone.Stop? {
          return Abort(gone.halt), nux.trace;
        }
        var made := nux.CreateLabSync(Str(p.name));
        if made.Stop? {
          return Abort(made.halt), nux.trace;
        }
        if !made.value.Ready? {
          return AsJsonOfBool(made.value.Gone?), nux.trace;
        }
        result := result + made.value.lab.AsJson();
      }
    } else if p.state == "present" {
      result := result["changed" := Bool(true)];
      if !p.checkMode {
        var made := nux.CreateLabSync(Str(p.name));
        if made.Stop? {
          return Abort(made.halt), nux.trace;
        }
        if !made.value.Ready? {
          return AsJsonOfBool(made.value.Gone?), nux.trace;
        }
        result := result + made.value.lab.AsJson();
      }
    } else if p.state == "absent" && lab.value.Some? {
      result := result["changed" := Bool(true)];
      if !p.checkMode {
        var gone := nux.DeleteLabSync(lab.value.value);
        if gone.Stop? {
          return Abort(gone.halt), nux.trace;
        }
      }
    }
    return Exited(result), nux.trace;
  }
}

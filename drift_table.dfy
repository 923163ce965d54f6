/**
 * The drift decision table of `run_module`, proved about Reconcile: what
 * the module reports as `changed`, which creates and deletes it sends, what
 * lab fields it returns, and what check mode leaves out.
 */
module DriftTable {
  import opened Json
  import opened Labs
  import opened NuageXSpec
  import opened NuageXFacts
  import opened NuageXLab

  /** Whether the observed lab differs from the desired state: the `changed` flag the module must report. */
  predicate Drift(state: string, lab: Option<NuageLab>)
  {
    || (state == "present" && (lab.None? || !lab.value.IsRunning()))
    || (state == "absent" && lab.Some?)
  }

  /** The creates and deletes that close the gap: recreate an erroring lab, create a missing one, delete an unwanted one; none in check mode. */
  function Plan(p: Params, lab: Option<NuageLab>): seq<Endpoint>
  {
    if p.checkMode || !Drift(p.state, lab) then []
    else if p.state == "present" then (if lab.Some? then [DeleteById(lab.value.id)] else []) + [PostLab(Str(p.name))]
    else [DeleteById(lab.value.id)]
  }

  /** The module reports a change exactly when the lab is not already where `wait_lab` would stop waiting. */
  lemma DriftIsUnsatisfied(state: string, lab: Option<NuageLab>)
    requires state == "present" || state == "absent"
    ensures Drift(state, lab) <==> !Satisfied(state, lab)
  {
  }

  /** `delete_lab_sync`: keeps the token cache, and sends one delete of the lab's id, which it did when it succeeded; it never answers a lab, and True only when its last lookup found nothing. */
  lemma DeleteSyncFacts(s: Session, c: Conn, lab: NuageLab)
    ensures var r := DeleteLabSync(s, c, lab);
      && Keeps(c, r.conn)
      && (Changes(r.conn.trace) == Changes(c.trace) || Changes(r.conn.trace) == Changes(c.trace) + [DeleteById(lab.id)])
      && (r.ret.Ok? ==> Changes(r.conn.trace) == Changes(c.trace) + [DeleteById(lab.id)] && !r.ret.value.Ready?)
      && (r.ret == Ok(Gone) ==> Observed(s.server, r.conn.trace, lab.name, None))
  {
    DeleteLabFacts(s, c, lab);
    var d := DeleteLab(s, c, lab);
    if d.ret.Ok? {
      WaitCounts(s, d.conn, lab.name, "absent", DEFAULT_RETRIES, DEFAULT_INTERVAL);
      WaitResult(s, d.conn, lab.name, "absent", DEFAULT_RETRIES, DEFAULT_INTERVAL);
      KeepsTransitive(c, d.conn, DeleteLabSync(s, c, lab).conn);
    }
  }

  /** `create_lab_sync`: one create; it never answers True, and a lab it answers is running and was seen by its last lookup. */
  lemma CreateSyncFacts(s: Session, c: Conn, name: Value)
    ensures var r := CreateLabSync(s, c, name);
      && Keeps(c, r.conn)
      && (Changes(r.conn.trace) == Changes(c.trace) || Changes(r.conn.trace) == Changes(c.trace) + [PostLab(name)])
      && (r.ret.Ok? ==> Changes(r.conn.trace) == Changes(c.trace) + [PostLab(name)] && !r.ret.value.Gone?)
      && (r.ret.Ok? && r.ret.value.Ready? ==>
            r.ret.value.lab.IsRunning() && Observed(s.server, r.conn.trace, name, Some(r.ret.value.lab)))
  {
    CreateLabFacts(s, c, name);
    var m := CreateLab(s, c, name);
    if m.ret.Ok? {
      WaitCounts(s, m.conn, name, "present", DEFAULT_RETRIES, DEFAULT_INTERVAL);
      WaitResult(s, m.conn, name, "present", DEFAULT_RETRIES, DEFAULT_INTERVAL);
      KeepsTransitive(c, m.conn, CreateLabSync(s, c, name).conn);
    }
  }

  /** `result` is `base` updated with the fields of a running lab that the last request of `t`, a lookup of `name`, saw. */
  predicate ReportsRunningLab(server: Server, t: seq<Request>, name: string, base: map<string, Value>, result: map<string, Value>)
  {
    var seen := Lookup(server(t));
    && seen.Ok? && seen.value.Some?
    && Observed(server, t, Str(name), seen.value)
    && seen.value.value.IsRunning()
    && result == base + seen.value.value.AsJson()
  }

  /** How `result.update(lab.as_json)` ends, given what `create_lab_sync` returned. */
  lemma ReportFacts(made: Run<Waited>, result: map<string, Value>)
    ensures var r := Report(made, result);
      && r.1 == made.conn
      && (r.0.Exited? <==> made.ret.Ok? && made.ret.value.Ready?)
      && (r.0.Exited? ==> r.0.result == result + made.ret.value.lab.AsJson())
      && (r.0 == AsJsonOfBool(false) <==> made.ret == Ok(TimedOut))
      && (r.0 == AsJsonOfBool(true) <==> made.ret == Ok(Gone))
  {
  }

  /**
   * The result of a create: the lab fields of a running lab the last lookup saw. When the wait
   * gives up, `wait_lab` answers False and `.as_json` on it raises: the run crashes, it does not
   * exit. `.as_json` on True cannot happen.
   */
  lemma CreateAndReportFacts(s: Session, c: Conn, name: string, result: map<string, Value>)
    ensures var r := CreateAndReport(s, c, name, result); var t := r.1.trace;
      && Keeps(c, r.1)
      && (Changes(t) == Changes(c.trace) || Changes(t) == Changes(c.trace) + [PostLab(Str(name))])
      && (r.0.Exited? ==> Changes(t) == Changes(c.trace) + [PostLab(Str(name))] && ReportsRunningLab(s.server, t, name, result, r.0.result))
      && (r.0 == AsJsonOfBool(false) <==> CreateLabSync(s, c, Str(name)).ret == Ok(TimedOut))
      && r.0 != AsJsonOfBool(true)
  {
    CreateSyncFacts(s, c, Str(name));
    ReportFacts(CreateLabSync(s, c, Str(name)), result);
    var made := CreateLabSync(s, c, Str(name));
    if made.ret.Ok? && made.ret.value.Ready? {
      assert Lookup(s.server(made.conn.trace)) == Ok(Some(made.ret.value.lab));
    }
  }

  /** In check mode, or when nothing drifted, the run exits after the lookup with the drift as `changed` and no lab fields except a running lab's own. */
  lemma ActWithoutActions(s: Session, c: Conn, p: Params, lab: Option<NuageLab>)
    requires p.checkMode || !Drift(p.state, lab)
    ensures Act(s, c, p, lab).1 == c
    ensures Act(s, c, p, lab).0 == Exited(
      if p.state == "present" && lab.Some? && lab.value.IsRunning() then INITIAL + lab.value.AsJson()
      else INITIAL["changed" := Bool(Drift(p.state, lab))])
  {
    if !(p.state == "present" && lab.Some? && lab.value.IsRunning()) && !Drift(p.state, lab) {
      assert INITIAL["changed" := Bool(false)] == INITIAL;
    }
  }

  /** Recreating an erroring lab: a delete, then a create; on exit the fields of the new running lab. */
  lemma RecreateFacts(s: Session, c: Conn, lab: NuageLab, name: string, result: map<string, Value>)
    ensures var r := Recreate(s, c, lab, name, result); var t := r.1.trace; var before := Changes(c.trace);
      && Keeps(c, r.1)
      && before <= Changes(t) <= before + [DeleteById(lab.id), PostLab(Str(name))]
      && (r.0.Exited? ==>
            && Changes(t) == before + [DeleteById(lab.id), PostLab(Str(name))]
            && ReportsRunningLab(s.server, t, name, result, r.0.result))
      && r.0 != AsJsonOfBool(true)
  {
    var before := Changes(c.trace);
    var del := DeleteLabSync(s, c, lab);
    DeleteSyncFacts(s, c, lab);
    if del.ret.Ok? {
      CreateAndReportFacts(s, del.conn, name, result);
      var r := CreateAndReport(s, del.conn, name, result);
      assert Recreate(s, c, lab, name, result) == r;
      KeepsTransitive(c, del.conn, r.1);
      assert before + [DeleteById(lab.id)] + [PostLab(Str(name))] == before + [DeleteById(lab.id), PostLab(Str(name))];
    }
  }

  /** Deleting an unwanted lab: one delete; on exit `result` unchanged. */
  lemma RemoveFacts(s: Session, c: Conn, lab: NuageLab, result: map<string, Value>)
    ensures var r := Remove(s, c, lab, result); var t := r.1.trace; var before := Changes(c.trace);
      && Keeps(c, r.1)
      && before <= Changes(t) <= before + [DeleteById(lab.id)]
      && (r.0.Exited? ==> Changes(t) == before + [DeleteById(lab.id)] && r.0.result == result)
  {
    DeleteSyncFacts(s, c, lab);
  }

  /** Outside check mode, the drift is closed by the planned requests: a prefix of them is sent, all of them when the run exits. */
  lemma ActWithActions(s: Session, c: Conn, p: Params, lab: Option<NuageLab>)
    requires !p.checkMode && Drift(p.state, lab)
    ensures var r := Act(s, c, p, lab); var t := r.1.trace;
      && Keeps(c, r.1)
      && Changes(c.trace) <= Changes(t) <= Changes(c.trace) + Plan(p, lab)
      && (r.0.Exited? ==> Changes(t) == Changes(c.trace) + Plan(p, lab))
      && (r.0.Exited? && p.state == "absent" ==> r.0.result == INITIAL["changed" := Bool(true)])
      && (r.0.Exited? && p.state == "present" ==>
            ReportsRunningLab(s.server, t, p.name, INITIAL["changed" := Bool(true)], r.0.result))
      && r.0 != AsJsonOfBool(true)
  {
    var result := INITIAL["changed" := Bool(true)];
    if p.state == "present" && lab.Some? {
      assert Act(s, c, p, lab) == Recreate(s, c, lab.value, p.name, result);
      assert Plan(p, lab) == [DeleteById(lab.value.id), PostLab(Str(p.name))];
      RecreateFacts(s, c, lab.value, p.name, result);
    } else if p.state == "present" {
      assert Act(s, c, p, lab) == CreateAndReport(s, c, p.name, result);
      assert Plan(p, lab) == [PostLab(Str(p.name))];
      CreateAndReportFacts(s, c, p.name, result);
    } else {
      assert Act(s, c, p, lab) == Remove(s, c, lab.value, result);
      assert Plan(p, lab) == [DeleteById(lab.value.id)];
      RemoveFacts(s, c, lab.value, result);
    }
  }

  /** The lookup that precedes the decision sends no create or delete. */
  lemma PrepareSendsNoChange(p: Params, server: Server)
    ensures Changes(Prepare(p, server).conn.trace) == []
    ensures Truthy(p.username) && Truthy(p.password) ==> Count(Prepare(p, server).conn.trace, IsLogin) >= 1
  {
    if Truthy(p.username) && Truthy(p.password) {
      var s := SessionOf(p, server);
      var auth := Token(s, Conn(Null, []));
      TokenFacts(s, Conn(Null, []));
      assert auth.conn.trace == [Login(p.username, p.password)];
      assert Changes(auth.conn.trace) == [] && Count(auth.conn.trace, IsLogin) == 1 by {
        CountSingle(auth.conn.trace, IsLogin);
      }
      if auth.ret.Ok? {
        LabByNameFacts(s, auth.conn, Str(p.name));
        var look := LabByName(s, auth.conn, Str(p.name));
        assert auth.conn.trace <= look.conn.trace;
        assert Count(look.conn.trace, IsLogin) >= 1 by {
          CountAppend(auth.conn.trace, look.conn.trace[|auth.conn.trace|..], IsLogin);
          assert auth.conn.trace + look.conn.trace[|auth.conn.trace|..] == look.conn.trace;
        }
      }
    }
  }

  /** A missing username or password fails the module before any request is sent. */
  lemma MissingCredentials(p: Params, server: Server)
    ensures !Truthy(p.username) ==> Reconcile(p, server) == (Failed(MissingUsername), [])
    ensures Truthy(p.username) && !Truthy(p.password) ==> Reconcile(p, server) == (Failed(MissingPassword), [])
  {
  }

  /** Whenever the module exits, `changed` is the drift between the desired state and the lab the first lookup saw, and the result has exactly the initial keys. */
  lemma ChangedIsDrift(p: Params, server: Server)
    requires Prepare(p, server).ret.Ok?
    ensures var lab := Prepare(p, server).ret.value; var o := Reconcile(p, server).0;
      o.Exited? ==> o.result.Keys == INITIAL.Keys && o.result["changed"] == Bool(Drift(p.state, lab))
  {
    var prep := Prepare(p, server);
    var s := SessionOf(p, server);
    if p.checkMode || !Drift(p.state, prep.ret.value) {
      ActWithoutActions(s, prep.conn, p, prep.ret.value);
    } else {
      ActWithActions(s, prep.conn, p, prep.ret.value);
    }
  }

  /** The creates and deletes a run sends are a prefix of the plan, and the whole plan when it exits; in check mode none. */
  lemma ChangesFollowPlan(p: Params, server: Server)
    requires Prepare(p, server).ret.Ok?
    ensures var lab := Prepare(p, server).ret.value; var r := Reconcile(p, server);
      && Changes(r.1) <= Plan(p, lab)
      && (r.0.Exited? ==> Changes(r.1) == Plan(p, lab))
  {
    var prep := Prepare(p, server);
    var s := SessionOf(p, server);
    PrepareSendsNoChange(p, server);
    if p.checkMode || !Drift(p.state, prep.ret.value) {
      ActWithoutActions(s, prep.conn, p, prep.ret.value);
    } else {
      ActWithActions(s, prep.conn, p, prep.ret.value);
    }
  }

  /**
   * Check mode, or no drift: exactly the requests of the lookup, an exit with the drift as `changed`,
   * and no lab fields beyond those of a lab already running.
   */
  lemma NoActionRun(p: Params, server: Server)
    requires Prepare(p, server).ret.Ok?
    requires p.checkMode || !Drift(p.state, Prepare(p, server).ret.value)
    ensures var prep := Prepare(p, server); var lab := prep.ret.value;
      Reconcile(p, server) == (Exited(
        if p.state == "present" && lab.Some? && lab.value.IsRunning() then INITIAL + lab.value.AsJson()
        else INITIAL["changed" := Bool(Drift(p.state, lab))]), prep.conn.trace)
  {
    var prep := Prepare(p, server);
    ActWithoutActions(SessionOf(p, server), prep.conn, p, prep.ret.value);
  }

  /**
   * Outside check mode, a run that creates a lab and exits reports a running lab, the one its
   * last lookup saw; a run that deletes and exits reports no lab fields.
   */
  lemma ReportedLab(p: Params, server: Server)
    requires Prepare(p, server).ret.Ok? && !p.checkMode && Drift(p.state, Prepare(p, server).ret.value)
    ensures var r := Reconcile(p, server); var t := r.1;
      && (r.0.Exited? && p.state == "absent" ==> r.0.result == INITIAL["changed" := Bool(true)])
      && (r.0.Exited? && p.state == "present" ==>
            ReportsRunningLab(server, t, p.name, INITIAL["changed" := Bool(true)], r.0.result))
      && r.0 != AsJsonOfBool(true)
  {
    var prep := Prepare(p, server);
    ActWithActions(SessionOf(p, server), prep.conn, p, prep.ret.value);
  }

  /** When the first login caches a truthy token, the whole run logs in exactly once. */
  lemma LoginOnce(p: Params, server: Server)
    requires Truthy(p.username) && Truthy(p.password)
    requires var auth := Token(SessionOf(p, server), Conn(Null, [])); auth.ret.Ok? && Truthy(auth.ret.value)
    ensures Count(Reconcile(p, server).1, IsLogin) == 1
  {
    var s := SessionOf(p, server);
    var c0 := Conn(Null, []);
    var auth := Token(s, c0);
    TokenFacts(s, c0);
    assert Count(auth.conn.trace, IsLogin) == 1 by {
      CountSingle(auth.conn.trace, IsLogin);
    }
    LabByNameFacts(s, auth.conn, Str(p.name));
    var prep := Prepare(p, server);
    assert Keeps(auth.conn, prep.conn);
    if prep.ret.Ok? {
      var lab := prep.ret.value;
      if p.checkMode || !Drift(p.state, lab) {
        ActWithoutActions(s, prep.conn, p, lab);
      } else {
        ActWithActions(s, prep.conn, p, lab);
      }
      KeepsTransitive(auth.conn, prep.conn, Act(s, prep.conn, p, lab).1);
    }
  }
}

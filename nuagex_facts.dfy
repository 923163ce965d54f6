/**
 * What the client functions of NuageXSpec promise, read off the request
 * trace: which requests each call adds, that a truthy cached token is
 * reused, and how the polling loop of `wait_lab` ends.
 */
module NuageXFacts {
  import opened Json
  import opened Labs
  import opened NuageXSpec

  predicate IsLogin(r: Request) { r.Login? }
  predicate IsSleep(r: Request) { r.Sleep? }
  predicate IsLookup(r: Request) { r.Http? && r.endpoint.ListLabs? }

  /** How many requests of `t` satisfy `f`. */
  function Count(t: seq<Request>, f: Request -> bool): nat
  {
    if t == [] then 0 else Count(t[..|t| - 1], f) + (if f(t[|t| - 1]) then 1 else 0)
  }

  /** The create and delete calls of a request, if it is one. */
  function ChangeOf(r: Request): seq<Endpoint>
  {
    if r.Http? && !r.endpoint.ListLabs? then [r.endpoint] else []
  }

  /** The create and delete calls of `t`, in order: what the run changed on the server. */
  function Changes(t: seq<Request>): seq<Endpoint>
  {
    if t == [] then [] else Changes(t[..|t| - 1]) + ChangeOf(t[|t| - 1])
  }

  lemma {:induction false} CountAppend(a: seq<Request>, b: seq<Request>, f: Request -> bool)
    ensures Count(a + b, f) == Count(a, f) + Count(b, f)
  {
    if b == [] {
      assert a + b == a;
    } else {
      CountAppend(a, b[..|b| - 1], f);
      assert (a + b)[..|a + b| - 1] == a + b[..|b| - 1];
    }
  }

  lemma {:induction false} ChangesAppend(a: seq<Request>, b: seq<Request>)
    ensures Changes(a + b) == Changes(a) + Changes(b)
  {
    if b == [] {
      assert a + b == a;
    } else {
      ChangesAppend(a, b[..|b| - 1]);
      assert (a + b)[..|a + b| - 1] == a + b[..|b| - 1];
    }
  }

  /** The login request that `token()` sends when its cache is falsy. */
  function LoginPart(s: Session, c: Conn): seq<Request>
  {
    if Truthy(c.token) then [] else [Login(s.username, s.password)]
  }

  /** `c'` extends the trace of `c`, and a truthy cached token survives with no new login. */
  ghost predicate Keeps(c: Conn, c': Conn)
  {
    && c.trace <= c'.trace
    && (Truthy(c.token) ==> c'.token == c.token && Count(c'.trace, IsLogin) == Count(c.trace, IsLogin))
  }

  lemma KeepsTransitive(c0: Conn, c1: Conn, c2: Conn)
    requires Keeps(c0, c1) && Keeps(c1, c2)
    ensures Keeps(c0, c2)
  {
  }

  /** What `lab_by_name` makes of a reply to its lookup. */
  function Lookup(reply: Reply): Ret<Option<NuageLab>>
  {
    if Accepted(reply.status) then FirstLab(reply.body) else Stop(Fail(HttpError(reply.status, reply.msg)))
  }

  /** The last request of `h` is a lookup of `name`, answered with a valid list whose verdict is `lab`. */
  predicate Observed(server: Server, h: seq<Request>, name: Value, lab: Option<NuageLab>)
  {
    && |h| > 0 && h[|h| - 1].Http? && h[|h| - 1].endpoint == ListLabs(name)
    && Lookup(server(h)) == Ok(lab)
  }

  /** The last request of `h` is a lookup of `name` whose answer does not end the wait. */
  predicate Missed(server: Server, h: seq<Request>, name: Value, desired: string)
  {
    && |h| > 0 && h[|h| - 1].Http? && h[|h| - 1].endpoint == ListLabs(name)
    && Lookup(server(h)).Ok? && !Satisfied(desired, Lookup(server(h)).value)
  }

  /** `token()` logs in only while the cache is falsy, keeps a truthy token without a request, and fails on a login status other than 200. */
  lemma TokenFacts(s: Session, c: Conn)
    ensures Truthy(c.token) ==> Token(s, c) == Run(Ok(c.token), c)
    ensures Token(s, c).conn.trace == c.trace + LoginPart(s, c)
    ensures !Truthy(c.token) && s.server(Token(s, c).conn.trace).status != 200 ==>
              Token(s, c).ret == Stop(Fail(InvalidCredentials(s.username)))
    ensures Token(s, c).ret.Ok? ==> Token(s, c).conn.token == Token(s, c).ret.value
    ensures Token(s, c).ret.Stop? ==> Token(s, c).conn.token == c.token
    ensures var t := c.trace + [Login(s.username, s.password)]; var reply := s.server(t);
      !Truthy(c.token) && reply.status == 200 && reply.body.Obj? ==>
        var token := Get(reply.body.fields, "accessToken");
        Token(s, c) == Run(Ok(token), Conn(token, t))
  {
  }

  /** A second `token()` after one that cached a truthy token sends nothing and returns the same token. */
  lemma TokenMemoised(s: Session, c: Conn)
    requires Token(s, c).ret.Ok? && Truthy(Token(s, c).ret.value)
    ensures Token(s, Token(s, c).conn) == Run(Token(s, c).ret, Token(s, c).conn)
  {
  }

  /** The API call that `_api` sends once it holds a token. */
  function SentPart(s: Session, c: Conn, e: Endpoint): seq<Request>
  {
    var auth := Token(s, c);
    if auth.ret.Ok? then [Http(e, auth.ret.value)] else []
  }

  lemma ApiShape(s: Session, c: Conn, e: Endpoint)
    ensures Api(s, c, e).conn.trace == c.trace + (LoginPart(s, c) + SentPart(s, c, e))
    ensures Api(s, c, e).conn.token == Token(s, c).conn.token
    ensures Truthy(c.token) ==> Token(s, c).conn.token == c.token && LoginPart(s, c) == []
  {
    TokenFacts(s, c);
  }

  /** Counting over a trace of at most one request. */
  lemma CountSingle(x: seq<Request>, f: Request -> bool)
    requires |x| <= 1
    ensures Count(x, f) == if x == [] || !f(x[0]) then 0 else 1
    ensures Changes(x) == if x == [] then [] else ChangeOf(x[0])
  {
    if x != [] {
      assert x[..0] == [];
    }
  }

  lemma ApiCounts(s: Session, c: Conn, e: Endpoint, f: Request -> bool)
    ensures Count(Api(s, c, e).conn.trace, f) == Count(c.trace, f) + Count(LoginPart(s, c), f) + Count(SentPart(s, c, e), f)
    ensures Changes(Api(s, c, e).conn.trace) == Changes(c.trace) + Changes(LoginPart(s, c)) + Changes(SentPart(s, c, e))
  {
    ApiShape(s, c, e);
    CountAppend(c.trace, LoginPart(s, c) + SentPart(s, c, e), f);
    CountAppend(LoginPart(s, c), SentPart(s, c, e), f);
    ChangesAppend(c.trace, LoginPart(s, c) + SentPart(s, c, e));
    ChangesAppend(LoginPart(s, c), SentPart(s, c, e));
  }

  /** `_api` adds at most one login and then only the call itself, and keeps a truthy cached token. */
  lemma ApiAdds(s: Session, c: Conn, e: Endpoint)
    ensures Keeps(c, Api(s, c, e).conn)
    ensures var t := Api(s, c, e).conn.trace;
      forall k | |c.trace| <= k < |t| :: t[k].Login? || (t[k].Http? && t[k].endpoint == e)
  {
    ApiShape(s, c, e);
    ApiCounts(s, c, e, IsLogin);
    CountSingle(SentPart(s, c, e), IsLogin);
  }

  /** `_api` sends no sleep; it adds one lookup or one change exactly when it obtained a token. */
  lemma ApiTally(s: Session, c: Conn, e: Endpoint)
    ensures var sent := Token(s, c).ret.Ok?; var t := Api(s, c, e).conn.trace;
      && Count(t, IsSleep) == Count(c.trace, IsSleep)
      && Count(t, IsLookup) == Count(c.trace, IsLookup) + (if sent && e.ListLabs? then 1 else 0)
      && Changes(t) == Changes(c.trace) + (if sent && !e.ListLabs? then [e] else [])
  {
    var sent := Token(s, c).ret.Ok?;
    var lp, sp := LoginPart(s, c), SentPart(s, c, e);
    assert Count(lp, IsSleep) == 0 && Count(lp, IsLookup) == 0 && Changes(lp) == [] by {
      CountSingle(lp, IsSleep);
      CountSingle(lp, IsLookup);
    }
    assert Count(sp, IsSleep) == 0 by {
      CountSingle(sp, IsSleep);
    }
    assert Count(sp, IsLookup) == (if sent && e.ListLabs? then 1 else 0) by {
      CountSingle(sp, IsLookup);
    }
    assert Changes(sp) == (if sent && !e.ListLabs? then [e] else []) by {
      CountSingle(sp, IsLookup);
    }
    ApiCounts(s, c, e, IsSleep);
    ApiCounts(s, c, e, IsLookup);
  }

  /** `_api` succeeds exactly when it sent the call and the reply's status is 2xx; it then returns the reply's body. */
  lemma ApiResult(s: Session, c: Conn, e: Endpoint)
    ensures var auth := Token(s, c); var r := Api(s, c, e); var t := r.conn.trace;
      && (auth.ret.Stop? ==> r.ret == Stop(auth.ret.halt))
      && (auth.ret.Ok? ==>
            && |t| > 0 && t[|t| - 1] == Http(e, auth.ret.value)
            && (r.ret.Ok? <==> Accepted(s.server(t).status))
            && (r.ret.Ok? ==> r.ret.value == s.server(t).body)
            && (r.ret.Stop? ==> r.ret.halt == Fail(HttpError(s.server(t).status, s.server(t).msg))))
  {
  }

  /** `lab_by_name`: one lookup when the token was obtained, no sleep and no change; its result is the verdict on the last reply. */
  lemma LabByNameFacts(s: Session, c: Conn, name: Value)
    ensures var r := LabByName(s, c, name);
      && Keeps(c, r.conn)
      && (forall k | |c.trace| <= k < |r.conn.trace| :: !r.conn.trace[k].Sleep?)
      && Count(r.conn.trace, IsSleep) == Count(c.trace, IsSleep)
      && Count(r.conn.trace, IsLookup) <= Count(c.trace, IsLookup) + 1
      && Changes(r.conn.trace) == Changes(c.trace)
      && (r.ret.Ok? ==> Count(r.conn.trace, IsLookup) == Count(c.trace, IsLookup) + 1
                        && Observed(s.server, r.conn.trace, name, r.ret.value))
  {
    ApiAdds(s, c, ListLabs(name));
    ApiTally(s, c, ListLabs(name));
    ApiResult(s, c, ListLabs(name));
  }

  /** `create_lab` / `delete_lab`: no lookup, no sleep; the one change is sent unless the token failed, and it was sent when the call succeeded; `create_lab` returns the lab built from the reply's record. */
  lemma CreateLabFacts(s: Session, c: Conn, name: Value)
    ensures var r := CreateLab(s, c, name);
      && Keeps(c, r.conn)
      && Count(r.conn.trace, IsSleep) == Count(c.trace, IsSleep)
      && Count(r.conn.trace, IsLookup) == Count(c.trace, IsLookup)
      && (Changes(r.conn.trace) == Changes(c.trace) || Changes(r.conn.trace) == Changes(c.trace) + [PostLab(name)])
      && (r.ret.Ok? ==> Changes(r.conn.trace) == Changes(c.trace) + [PostLab(name)])
      && (r.ret.Ok? ==> s.server(r.conn.trace).body.Obj? && r.ret.value == FromJson(s.server(r.conn.trace).body.fields))
  {
    ApiAdds(s, c, PostLab(name));
    ApiTally(s, c, PostLab(name));
    ApiResult(s, c, PostLab(name));
  }

  lemma DeleteLabFacts(s: Session, c: Conn, lab: NuageLab)
    ensures var r := DeleteLab(s, c, lab);
      && Keeps(c, r.conn)
      && Count(r.conn.trace, IsSleep) == Count(c.trace, IsSleep)
      && Count(r.conn.trace, IsLookup) == Count(c.trace, IsLookup)
      && (Changes(r.conn.trace) == Changes(c.trace) || Changes(r.conn.trace) == Changes(c.trace) + [DeleteById(lab.id)])
      && (r.ret.Ok? ==> Changes(r.conn.trace) == Changes(c.trace) + [DeleteById(lab.id)])
  {
    ApiAdds(s, c, DeleteById(lab.id));
    ApiTally(s, c, DeleteById(lab.id));
    ApiResult(s, c, DeleteById(lab.id));
  }

  function Max0(n: int): nat { if n > 0 then n else 0 }

  /** The state `wait_lab` polls again from after an unsuccessful lookup: the lookup's state plus one sleep. */
  function AfterSleep(c: Conn, interval: nat): Conn
  {
    Conn(c.token, c.trace + [Sleep(interval)])
  }

  /** One round of the polling loop: when the lookup does not end the wait, the rest is the loop from after the sleep. */
  lemma WaitUnfold(s: Session, c: Conn, name: Value, desired: string, retries: int, interval: nat)
    requires retries > 0
    ensures var look := LabByName(s, c, name);
      && (look.ret.Stop? ==> WaitLab(s, c, name, desired, retries, interval) == Run(Stop(look.ret.halt), look.conn))
      && (look.ret.Ok? && Satisfied(desired, look.ret.value) ==>
            WaitLab(s, c, name, desired, retries, interval).conn == look.conn
            && WaitLab(s, c, name, desired, retries, interval).ret
               == Ok(if look.ret.value.Some? then Ready(look.ret.value.value) else Gone))
      && (look.ret.Ok? && !Satisfied(desired, look.ret.value) ==>
            WaitLab(s, c, name, desired, retries, interval)
            == WaitLab(s, AfterSleep(look.conn, interval), name, desired, retries - 1, interval))
  {
  }

  /** The sleep adds one sleep to the trace and nothing else. */
  lemma AfterSleepFacts(c: Conn, interval: nat)
    ensures Keeps(c, AfterSleep(c, interval))
    ensures Count(AfterSleep(c, interval).trace, IsSleep) == Count(c.trace, IsSleep) + 1
    ensures Count(AfterSleep(c, interval).trace, IsLookup) == Count(c.trace, IsLookup)
    ensures Changes(AfterSleep(c, interval).trace) == Changes(c.trace)
  {
    var t := c.trace + [Sleep(interval)];
    assert t[..|t| - 1] == c.trace;
  }

  /**
   * `wait_lab` counts: at most `retries` lookups and no create or delete; False after exactly
   * `retries` lookups and `retries` sleeps; a lab or True after one more lookup than sleeps.
   */
  lemma {:induction false} WaitCounts(s: Session, c: Conn, name: Value, desired: string, retries: int, interval: nat)
    decreases retries
    ensures var r := WaitLab(s, c, name, desired, retries, interval); var t := r.conn.trace;
      && Keeps(c, r.conn)
      && Changes(t) == Changes(c.trace)
      && Count(t, IsLookup) <= Count(c.trace, IsLookup) + Max0(retries)
      && (r.ret == Ok(TimedOut) ==>
            && Count(t, IsLookup) == Count(c.trace, IsLookup) + Max0(retries)
            && Count(t, IsSleep) == Count(c.trace, IsSleep) + Max0(retries))
      && (r.ret.Ok? && !r.ret.value.TimedOut? ==>
            Count(t, IsLookup) - Count(c.trace, IsLookup) == Count(t, IsSleep) - Count(c.trace, IsSleep) + 1)
  {
    if retries > 0 {
      var look := LabByName(s, c, name);
      LabByNameFacts(s, c, name);
      WaitUnfold(s, c, name, desired, retries, interval);
      if look.ret.Ok? && !Satisfied(desired, look.ret.value) {
        var c2 := AfterSleep(look.conn, interval);
        AfterSleepFacts(look.conn, interval);
        WaitCounts(s, c2, name, desired, retries - 1, interval);
        KeepsTransitive(c, look.conn, c2);
        KeepsTransitive(c, c2, WaitLab(s, c2, name, desired, retries - 1, interval).conn);
      }
    }
  }

  /** `wait_lab` returns a lab only when asked for 'present', and then a running lab that the last lookup saw; True only when asked for 'absent', when the last lookup found nothing. */
  lemma {:induction false} WaitResult(s: Session, c: Conn, name: Value, desired: string, retries: int, interval: nat)
    decreases retries
    ensures var r := WaitLab(s, c, name, desired, retries, interval);
      && (r.ret.Ok? && r.ret.value.Ready? ==>
            desired == "present" && r.ret.value.lab.IsRunning() && Observed(s.server, r.conn.trace, name, Some(r.ret.value.lab)))
      && (r.ret == Ok(Gone) ==> desired == "absent" && Observed(s.server, r.conn.trace, name, None))
  {
    if retries > 0 {
      var look := LabByName(s, c, name);
      LabByNameFacts(s, c, name);
      WaitUnfold(s, c, name, desired, retries, interval);
      if look.ret.Ok? && !Satisfied(desired, look.ret.value) {
        WaitResult(s, AfterSleep(look.conn, interval), name, desired, retries - 1, interval);
      }
    }
  }

  /** A trace with no sleep after `|c0|`, ending in a missed lookup, then a sleep, then a tail whose sleeps all follow missed lookups. */
  lemma SleepsAfterMiss(server: Server, c0: seq<Request>, t1: seq<Request>, t: seq<Request>, name: Value, desired: string, interval: nat)
    requires |c0| <= |t1|
    requires forall k | |c0| <= k < |t1| :: !t1[k].Sleep?
    requires Missed(server, t1, name, desired)
    requires t1 + [Sleep(interval)] <= t
    requires forall k | |t1| + 1 <= k < |t| :: t[k].Sleep? ==> t[k] == Sleep(interval) && Missed(server, t[..k], name, desired)
    ensures forall k | |c0| <= k < |t| :: t[k].Sleep? ==> t[k] == Sleep(interval) && Missed(server, t[..k], name, desired)
  {
    forall k | |c0| <= k < |t|
      ensures t[k].Sleep? ==> t[k] == Sleep(interval) && Missed(server, t[..k], name, desired)
    {
      if k < |t1| {
        assert t[k] == (t1 + [Sleep(interval)])[k] == t1[k];
      } else if k == |t1| {
        assert t[k] == (t1 + [Sleep(interval)])[k];
        assert t[..k] == t1;
      }
    }
  }

  /** Every sleep of `wait_lab` follows a lookup of the lab that did not end the wait. */
  lemma {:induction false} WaitSleeps(s: Session, c: Conn, name: Value, desired: string, retries: int, interval: nat)
    decreases retries
    ensures var t := WaitLab(s, c, name, desired, retries, interval).conn.trace;
      forall k | |c.trace| <= k < |t| ::
        t[k].Sleep? ==> t[k] == Sleep(interval) && Missed(s.server, t[..k], name, desired)
  {
    if retries > 0 {
      var look := LabByName(s, c, name);
      LabByNameFacts(s, c, name);
      WaitUnfold(s, c, name, desired, retries, interval);
      if look.ret.Ok? && !Satisfied(desired, look.ret.value) {
        var c2 := AfterSleep(look.conn, interval);
        WaitSleeps(s, c2, name, desired, retries - 1, interval);
        WaitCounts(s, c2, name, desired, retries - 1, interval);
        var t := WaitLab(s, c2, name, desired, retries - 1, interval).conn.trace;
        assert Missed(s.server, look.conn.trace, name, desired);
        SleepsAfterMiss(s.server, c.trace, look.conn.trace, t, name, desired, interval);
      }
    }
  }
}

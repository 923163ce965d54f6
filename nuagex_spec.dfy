/**
 * The `NuageX` API client of library/nuagex_lab.py as functions over the
 * connection state: the cached bearer token and the requests sent so far.
 *
 * The HTTP server is an oracle: a total function from the request history,
 * ending with the request being answered, to the reply. Any deterministic
 * server, including one whose labs change state over time (sleeps are in
 * the history), is such a function.
 */
module NuageXSpec {
  import opened Json
  import opened Labs

  /** The three API calls: GET /labs?name=, POST /labs, DELETE /labs/{id}. */
  datatype Endpoint = ListLabs(name: Value) | PostLab(name: Value) | DeleteById(id: Value)

  /** What the client does to the outside world, in order. */
  datatype Request =
    | Login(username: Value, password: Value)    // POST /auth/login
    | Http(endpoint: Endpoint, bearer: Value)    // an API call carrying the token
    | Sleep(seconds: nat)                        // time.sleep between polls

  /** Status code, status message and decoded body of a response. */
  datatype Reply = Reply(status: int, msg: string, body: Value)

  type Server = seq<Request> -> Reply

  /** The `msg` of each `fail_json` call. */
  datatype Message =
    | MissingUsername
    | MissingPassword
    | InvalidCredentials(username: Value)
    | HttpError(status: int, msg: string)

  /** Python exceptions the code does not catch. */
  datatype Fault =
    | BodyNotObject        // `.get` on a decoded body that is not a dict
    | LabsNotList          // `labs[0]` on a truthy lookup body that is not a list

  /** How a call ends early: `fail_json` or an uncaught exception. Neither returns to the caller. */
  datatype Halt = Fail(message: Message) | Raise(fault: Fault)

  datatype Ret<+T> = Ok(value: T) | Stop(halt: Halt)

  /** `_token` and the requests sent so far. */
  datatype Conn = Conn(token: Value, trace: seq<Request>)

  datatype Run<+T> = Run(ret: Ret<T>, conn: Conn)

  /** The fixed part of a `NuageX` object. */
  datatype Session = Session(username: Value, password: Value, server: Server)

  /** What `wait_lab` returns: the lab, True, or False. */
  datatype Waited = Ready(lab: NuageLab) | Gone | TimedOut

  const DEFAULT_RETRIES: int := 20
  const DEFAULT_INTERVAL: nat := 5

  /** The status rule of `_api`. */
  predicate Accepted(status: int)
  {
    200 <= status < 300
  }

  /** `token()`: log in only while the cached token is falsy. */
  function Token(s: Session, c: Conn): Run<Value>
  {
    if Truthy(c.token) then Run(Ok(c.token), c)
    else
      var trace := c.trace + [Login(s.username, s.password)];
      var reply := s.server(trace);
      if reply.status != 200 then Run(Stop(Fail(InvalidCredentials(s.username))), Conn(c.token, trace))
      else match reply.body
        case Obj(fields) =>
          var t := Get(fields, "accessToken");
          Run(Ok(t), Conn(t, trace))
        case _ => Run(Stop(Raise(BodyNotObject)), Conn(c.token, trace))
  }

  /** `_api` / `_api_json`: fetch the token, send the call, demand a 2xx status. */
  function Api(s: Session, c: Conn, e: Endpoint): Run<Value>
  {
    var auth := Token(s, c);
    match auth.ret
    case Stop(h) => Run(Stop(h), auth.conn)
    case Ok(bearer) =>
      var trace := auth.conn.trace + [Http(e, bearer)];
      var reply := s.server(trace);
      var c' := Conn(auth.conn.token, trace);
      if Accepted(reply.status) then Run(Ok(reply.body), c')
      else Run(Stop(Fail(HttpError(reply.status, reply.msg))), c')
  }

  /** The lab that a lookup body names: None when the body is falsy, else element 0 of the list. */
  function FirstLab(labs: Value): (r: Ret<Option<NuageLab>>)
    ensures r == Ok(None) <==> !Truthy(labs)
    ensures r.Ok? && r.value.Some? <==> labs.Arr? && labs.items != [] && labs.items[0].Obj?
    ensures r.Ok? && r.value.Some? ==> r.value.value == FromJson(labs.items[0].fields)
  {
    if !Truthy(labs) then Ok(None)
    else match labs
      case Arr(items) =>
        (match items[0]
         case Obj(fields) => Ok(Some(FromJson(fields)))
         case _ => Stop(Raise(BodyNotObject)))
      case _ => Stop(Raise(LabsNotList))
  }

  /** `lab_by_name`. */
  function LabByName(s: Session, c: Conn, name: Value): Run<Option<NuageLab>>
  {
    var r := Api(s, c, ListLabs(name));
    match r.ret
    case Stop(h) => Run(Stop(h), r.conn)
    case Ok(labs) => Run(FirstLab(labs), r.conn)
  }

  /** `create_lab`: post the lab and read the record the server answers with. */
  function CreateLab(s: Session, c: Conn, name: Value): Run<NuageLab>
  {
    var r := Api(s, c, PostLab(name));
    match r.ret
    case Stop(h) => Run(Stop(h), r.conn)
    case Ok(Obj(fields)) => Run(Ok(FromJson(fields)), r.conn)
    case Ok(_) => Run(Stop(Raise(BodyNotObject)), r.conn)
  }

  /** `delete_lab`: the response body is read but not used. */
  function DeleteLab(s: Session, c: Conn, lab: NuageLab): Run<()>
  {
    var r := Api(s, c, DeleteById(lab.id));
    match r.ret
    case Stop(h) => Run(Stop(h), r.conn)
    case Ok(_) => Run(Ok(()), r.conn)
  }

  /** The exit test of the polling loop of `wait_lab`. */
  predicate Satisfied(desired: string, lab: Option<NuageLab>)
  {
    || (desired == "present" && lab.Some? && lab.value.IsRunning())
    || (desired == "absent" && lab.None?)
  }

  /** `wait_lab` with `retries` polls left: look the lab up, stop when it is as desired, else sleep and poll again. */
  function WaitLab(s: Session, c: Conn, name: Value, desired: string, retries: int, interval: nat): Run<Waited>
    decreases retries
  {
    if retries <= 0 then Run(Ok(TimedOut), c)
    else
      var look := LabByName(s, c, name);
      match look.ret
      case Stop(h) => Run(Stop(h), look.conn)
      case Ok(lab) =>
        if desired == "present" && lab.Some? && lab.value.IsRunning() then Run(Ok(Ready(lab.value)), look.conn)
        else if desired == "absent" && lab.None? then Run(Ok(Gone), look.conn)
        else WaitLab(s, Conn(look.conn.token, look.conn.trace + [Sleep(interval)]), name, desired, retries - 1, interval)
  }

  /** `create_lab_sync`: create, then wait (with the default bounds) for the lab to run. */
  function CreateLabSync(s: Session, c: Conn, name: Value): Run<Waited>
  {
    var r := CreateLab(s, c, name);
    match r.ret
    case Stop(h) => Run(Stop(h), r.conn)
    case Ok(_) => WaitLab(s, r.conn, name, "present", DEFAULT_RETRIES, DEFAULT_INTERVAL)
  }

  /** `delete_lab_sync`: delete, then wait for the lab's name to disappear. */
  function DeleteLabSync(s: Session, c: Conn, lab: NuageLab): Run<Waited>
  {
    var r := DeleteLab(s, c, lab);
    match r.ret
    case Stop(h) => Run(Stop(h), r.conn)
    case Ok(_) => WaitLab(s, r.conn, lab.name, "absent", DEFAULT_RETRIES, DEFAULT_INTERVAL)
  }
}

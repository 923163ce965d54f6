/**
 * The `NuageX` class of library/nuagex_lab.py: an object that caches its
 * bearer token in a field and talks to the server step by step. Every
 * method is proved to do exactly what the matching function of NuageXSpec
 * describes, so the facts proved about those functions hold of the object.
 */
module NuageXClient {
  import opened Json
  import opened Labs
  import opened NuageXSpec

  class NuageX {
    const username: Value
    const password: Value
    const server: Server
    /** `_token`: None until a login succeeds. */
    var token: Value
    /** Every request sent so far; the server answers the latest one. */
    var trace: seq<Request>

    function Cfg(): Session
    {
      Session(username, password, server)
    }

    function State(): Conn
      reads this
    {
      Conn(token, trace)
    }

    constructor (username: Value, password: Value, server: Server)
      ensures Cfg() == Session(username, password, server)
      ensures State() == Conn(Null, [])
    {
      this.username := username;
      this.password := password;
      this.server := server;
      token := Null;
      trace := [];
    }

    method Token() returns (r: Ret<Value>)
      modifies this
      ensures Truthy(old(token)) ==> r == Ok(old(token)) && token == old(token) && trace == old(trace)
      ensures !Truthy(old(token)) ==> trace == old(trace) + [Login(username, password)]
      ensures Run(r, State()) == NuageXSpec.Token(Cfg(), old(State()))
    {
      if !Truthy(token) {
        trace := trace + [Login(username, password)];
        var reply := server(trace);
        if reply.status != 200 {
          return Stop(Fail(InvalidCredentials(username)));
        }
        if !reply.body.Obj? {
          return Stop(Raise(BodyNotObject));
        }
        token := Get(reply.body.fields, "accessToken");
      }
      return Ok(token);
    }

    method Api(e: Endpoint) returns (r: Ret<Value>)
      modifies this
      ensures Run(r, State()) == NuageXSpec.Api(Cfg(), old(State()), e)
    {
      var bearer := Token();
      if bearer.Stop? {
        return Stop(bearer.halt);
      }
      trace := trace + [Http(e, bearer.value)];
      var reply := server(trace);
      if !Accepted(reply.status) {
        return Stop(Fail(HttpError(reply.status, reply.msg)));
      }
      return Ok(reply.body);
    }

    method LabByName(name: Value) returns (r: Ret<Option<NuageLab>>)
      modifies this
      ensures Run(r, State()) == NuageXSpec.LabByName(Cfg(), old(State()), name)
    {
      var labs := Api(ListLabs(name));
      if labs.Stop? {
        return Stop(labs.halt);
      }
      r := FirstLab(labs.value);
    }

    method CreateLab(name: Value) returns (r: Ret<NuageLab>)
      modifies this
      ensures Run(r, State()) == NuageXSpec.CreateLab(Cfg(), old(State()), name)
    {
      var data := Api(PostLab(name));
      if data.Stop? {
        return Stop(data.halt);
      }
      if !data.value.Obj? {
        return Stop(Raise(BodyNotObject));
      }
      return Ok(FromJson(data.value.fields));
    }

    method DeleteLab(lab: NuageLab) returns (r: Ret<()>)
      modifies this
      ensures Run(r, State()) == NuageXSpec.DeleteLab(Cfg(), old(State()), lab)
    {
      var body := Api(DeleteById(lab.id));
      if body.Stop? {
        return Stop(body.halt);
      }
      return Ok(());
    }

    method WaitLab(name: Value, desired: string, retries: int, interval: nat) returns (r: Ret<Waited>)
      modifies this
      ensures Run(r, State()) == NuageXSpec.WaitLab(Cfg(), old(State()), name, desired, retries, interval)
    {
      var i := 0;
      while i < retries
        invariant NuageXSpec.WaitLab(Cfg(), old(State()), name, desired, retries, interval)
               == NuageXSpec.WaitLab(Cfg(), State(), name, desired, retries - i, interval)
        decreases retries - i
      {
        var lab := LabByName(name);
        if lab.Stop? {
          return Stop(lab.halt);
        }
        if desired == "present" && lab.value.Some? && lab.value.value.IsRunning() {
          return Ok(Ready(lab.value.value));
        } else if desired == "absent" && lab.value.None? {
          return Ok(Gone);
        }
        trace := trace + [Sleep(interval)];
        i := i + 1;
      }
      return Ok(TimedOut);
    }

    method CreateLabSync(name: Value) returns (r: Ret<Waited>)
      modifies this
      ensures Run(r, State()) == NuageXSpec.CreateLabSync(Cfg(), old(State()), name)
    {
      var made := CreateLab(name);
      if made.Stop? {
        return Stop(made.halt);
      }
      r := WaitLab(name, "present", DEFAULT_RETRIES, DEFAULT_INTERVAL);
    }

    method DeleteLabSync(lab: NuageLab) returns (r: Ret<Waited>)
      modifies this
      ensures Run(r, State()) == NuageXSpec.DeleteLabSync(Cfg(), old(State()), lab)
    {
      var gone := DeleteLab(lab);
      if gone.Stop? {
        return Stop(gone.halt);
      }
      r := WaitLab(lab.name, "absent", DEFAULT_RETRIES, DEFAULT_INTERVAL);
    }
  }
}

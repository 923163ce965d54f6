/** The `NuageLab` record of library/nuagex_lab.py: a lab as the NuageX API reports it. */
module Labs {
  import opened Json

  /** Every field holds whatever the server sent under its key, None when the key was absent. */
  datatype NuageLab = NuageLab(name: Value, id: Value, status: Value, address: Value, password: Value)
  {
    /** The `is_runnung` property. */
    predicate IsRunning()
    {
      status == Str("started")
    }

    /** The `as_json` property: the lab fields of the module's result. */
    function AsJson(): map<string, Value>
    {
      map["lab_id" := id, "lab_name" := name, "lab_address" := address, "lab_password" := password]
    }
  }

  /** The four result keys that `as_json` fills. */
  const LAB_KEYS: set<string> := {"lab_id", "lab_name", "lab_address", "lab_password"}

  /** `NuageLab.from_json`: read each field with `dict.get`. */
  function FromJson(data: map<string, Value>): NuageLab
  {
    NuageLab(Get(data, "name"), Get(data, "_id"), Get(data, "status"), Get(data, "externalIP"), Get(data, "password"))
  }

  /** `out[dst]` is `data[src]`, or None when `data` has no `src`. */
  predicate CopiedFrom(out: map<string, Value>, dst: string, data: map<string, Value>, src: string)
  {
    dst in out && (src in data ==> out[dst] == data[src]) && (src !in data ==> out[dst] == Null)
  }

  /** Reading a record and reporting it renames `_id`, `name`, `externalIP` and `password`, and nothing else. */
  lemma AsJsonFromJson(data: map<string, Value>)
    ensures FromJson(data).AsJson().Keys == LAB_KEYS
    ensures CopiedFrom(FromJson(data).AsJson(), "lab_id", data, "_id")
    ensures CopiedFrom(FromJson(data).AsJson(), "lab_name", data, "name")
    ensures CopiedFrom(FromJson(data).AsJson(), "lab_address", data, "externalIP")
    ensures CopiedFrom(FromJson(data).AsJson(), "lab_password", data, "password")
  {
  }

  /** A record is running exactly when it carries the status string 'started'; one without a status is not. */
  lemma RunningFromJson(data: map<string, Value>)
    ensures FromJson(data).IsRunning() <==> "status" in data && data["status"] == Str("started")
  {
  }
}

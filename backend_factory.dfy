/**
 * BackendFactory: the registry of plotting backends by name, with create,
 * register_backend and list_backends. The registry is ordered by first
 * registration, as a Python dict is.
 */
module BackendFactory {
  import opened Wrappers
  import opened PyValues

  /** A backend class: the two built in, or one registered later. */
  datatype BackendClass = MatplotlibBackend | PlotlyBackend | CustomBackend(id: string)

  /** An instance of a backend class built with the given keyword arguments. */
  datatype Backend = Backend(cls: BackendClass, kwargs: map<string, Value>)

  /** `", ".join(names)`. */
  function JoinComma(names: seq<string>): string
  {
    if names == [] then "" else if |names| == 1 then names[0] else names[0] + ", " + JoinComma(names[1..])
  }

  /** The error message of create for an unknown name. */
  function NotSupported(name: string, names: seq<string>): string
  {
    "Backend '" + name + "' not supported. Available: " + JoinComma(names)
  }

  /** create over a given registry: the class's instance, or the error listing what is available. */
  function CreateFrom(classes: map<string, BackendClass>, names: seq<string>, name: string,
                      kwargs: map<string, Value>): (r: Result<Backend>)
    ensures r.Err? <==> name !in classes
    ensures r.Ok? ==> r.value.cls == classes[name] && r.value.kwargs == kwargs
    ensures r.Err? ==> r.error == NotSupported(name, names)
  {
    if name !in classes then Err(NotSupported(name, names)) else Ok(Backend(classes[name], kwargs))
  }

  ghost predicate Distinct(s: seq<string>)
  {
    forall i, j :: 0 <= i < j < |s| ==> s[i] != s[j]
  }

  class Registry {
    /** The registered names in registration order. */
    var names: seq<string>
    /** The class registered under each name. */
    var classes: map<string, BackendClass>

    ghost predicate Valid()
      reads this
    {
      Distinct(names) && (forall n :: n in classes <==> n in names)
    }

    /** The class-level table: matplotlib, then plotly. */
    constructor ()
      ensures Valid()
      ensures names == ["matplotlib", "plotly"]
      ensures classes == map["matplotlib" := MatplotlibBackend, "plotly" := PlotlyBackend]
    {
      names := ["matplotlib", "plotly"];
      classes := map["matplotlib" := MatplotlibBackend, "plotly" := PlotlyBackend];
    }

    /** create: an instance of the registered class, or ValueError for an unknown name. */
    method Create(name: string, kwargs: map<string, Value>) returns (r: Result<Backend>)
      ensures r == CreateFrom(classes, names, name, kwargs)
    {
      if name !in classes {
        return Err(NotSupported(name, names));
      }
      var cls := classes[name];
      r := Ok(Backend(cls, kwargs));
    }

    /** register_backend: sets the entry; a new name goes last, an existing one keeps its place. */
    method RegisterBackend(name: string, cls: BackendClass)
      requires Valid()
      modifies this
      ensures Valid()
      ensures classes == old(classes)[name := cls]
      ensures names == if name in old(names) then old(names) else old(names) + [name]
    {
      if name !in classes {
        names := names + [name];
      }
      classes := classes[name := cls];
    }

    /** list_backends: the registered names. */
    method ListBackends() returns (r: seq<string>)
      requires Valid()
      ensures r == names
      ensures forall n :: n in r <==> n in classes
      ensures Distinct(r)
    {
      r := names;
    }
  }

  /** After registering a class under a name, create builds that class. */
  lemma RegisterThenCreate(classes: map<string, BackendClass>, names: seq<string>, name: string,
                           cls: BackendClass, kwargs: map<string, Value>)
    ensures CreateFrom(classes[name := cls], names, name, kwargs) == Ok(Backend(cls, kwargs))
  {
  }

  /** Registering a name leaves what every other name creates unchanged. */
  lemma RegisterKeepsOthers(classes: map<string, BackendClass>, names: seq<string>, name: string,
                            cls: BackendClass, other: string, kwargs: map<string, Value>)
    requires other != name && other in classes
    ensures CreateFrom(classes[name := cls], names, other, kwargs) == CreateFrom(classes, names, other, kwargs)
  {
  }

  /** The built-in registry rejects other names, listing both backends in order. */
  lemma UnknownBackendMessage(kwargs: map<string, Value>)
    ensures CreateFrom(map["matplotlib" := MatplotlibBackend, "plotly" := PlotlyBackend], ["matplotlib", "plotly"], "bokeh", kwargs)
      == Err(NotSupported("bokeh", ["matplotlib", "plotly"]))
    ensures JoinComma(["matplotlib", "plotly"]) == "matplotlib, plotly"
  {
    assert ["matplotlib", "plotly"][1..] == ["plotly"];
  }
}

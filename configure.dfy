/**
 * The configure mixins embedded in every Morpheus resource and data source
 * (configure/resource.go, configure/datasource.go): they pick the client
 * factory out of the provider data and build clients from it.
 */
module Configure {
  import opened Wrappers
  import opened Framework
  import CF = ClientFactory
  import Morpheus

  /** A value stored in the provider-data map. */
  datatype Entry = FactoryEntry(factory: CF.ClientFactory) | OtherEntry

  /** `req.ProviderData`: nil, a `map[string]any`, or something else. */
  datatype ProviderData = NoData | MapData(entries: map<string, Entry>) | OtherData

  /** What Configure does with the provider data. */
  datatype Resolution = Skip | Store(factory: CF.ClientFactory) | Reject(diag: Diagnostic)

  const MissingBlockDetail := "\nMorpheus resource present, but possible missing morpheus provider block.\n\n"
    + "provider \"hpe\" {\n  morpheus { <- missing or duplicate?\n    url = \"https://example.com\"\n  }\n}"

  /**
   * Nil provider data (the provider has not configured yet) is skipped; a
   * map holding a client factory under the sub-provider's name yields it;
   * anything else is one error.
   */
  function Resolve(data: ProviderData): (r: Resolution)
    ensures r.Skip? <==> data.NoData?
    ensures r.Store? <==>
      data.MapData? && Morpheus.SubProviderName in data.entries && data.entries[Morpheus.SubProviderName].FactoryEntry?
    ensures r.Store? ==> r.factory == data.entries[Morpheus.SubProviderName].factory
    ensures r.Reject? ==> r.diag == ErrorDiag(Morpheus.SubProviderName + " client creation failed", MissingBlockDetail)
  {
    match data
    case NoData => Skip
    case MapData(entries) =>
      if Morpheus.SubProviderName in entries && entries[Morpheus.SubProviderName].FactoryEntry? then
        Store(entries[Morpheus.SubProviderName].factory)
      else
        Reject(ErrorDiag(Morpheus.SubProviderName + " client creation failed", MissingBlockDetail))
    case OtherData => Reject(ErrorDiag(Morpheus.SubProviderName + " client creation failed", MissingBlockDetail))
  }

  /** The diagnostics a resolution reports. */
  function DiagnosticsOf(r: Resolution): seq<Diagnostic>
  {
    if r.Reject? then [r.diag] else []
  }

  /**
   * `ResourceWithMorpheusConfigure`. `factory` is None while the embedded
   * factory is still Go's zero value, whose client closure is nil.
   */
  class ResourceWithMorpheusConfigure {
    var factory: Option<CF.ClientFactory>

    constructor ()
      ensures factory == None
    {
      factory := None;
    }

    function BlockName(): (name: string)
      ensures name == Morpheus.SubProviderName
    {
      Morpheus.SubProviderName
    }

    /** `Configure`: stores the factory, or reports the missing block, or does nothing. */
    method Configure(data: ProviderData) returns (diags: seq<Diagnostic>)
      modifies this
      ensures diags == DiagnosticsOf(Resolve(data))
      ensures Resolve(data).Store? ==> factory == Some(Resolve(data).factory)
      ensures !Resolve(data).Store? ==> factory == old(factory)
    {
      var r := Resolve(data);
      diags := DiagnosticsOf(r);
      if r.Store? {
        factory := Some(r.factory);
      }
    }

    /** `NewClient`: forwards to the stored factory (a nil closure call before any store). */
    method NewClient(trace: bool) returns (c: CF.APIClient, err: Option<string>)
      requires factory.Some?
      ensures err == None && CF.BuiltFrom(c, factory.value, trace)
    {
      c, err := factory.value.NewClient(trace);
    }
  }

  /** `DataSourceWithMorpheusConfigure`: the same mixin for data sources. */
  class DataSourceWithMorpheusConfigure {
    var factory: Option<CF.ClientFactory>

    constructor ()
      ensures factory == None
    {
      factory := None;
    }

    function BlockName(): (name: string)
      ensures name == Morpheus.SubProviderName
    {
      Morpheus.SubProviderName
    }

    method Configure(data: ProviderData) returns (diags: seq<Diagnostic>)
      modifies this
      ensures diags == DiagnosticsOf(Resolve(data))
      ensures Resolve(data).Store? ==> factory == Some(Resolve(data).factory)
      ensures !Resolve(data).Store? ==> factory == old(factory)
    {
      var r := Resolve(data);
      diags := DiagnosticsOf(r);
      if r.Store? {
        factory := Some(r.factory);
      }
    }

    method NewClient(trace: bool) returns (c: CF.APIClient, err: Option<string>)
      requires factory.Some?
      ensures err == None && CF.BuiltFrom(c, factory.value, trace)
    {
      c, err := factory.value.NewClient(trace);
    }
  }
}

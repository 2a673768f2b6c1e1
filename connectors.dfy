/**
 * External payment providers: the connector interface, the mock connector
 * that ships with the repository, and the provider registry of the
 * integrations service.
 */
module Connectors {
  import opened Types

  /** What the integrations service hands a connector to validate. */
  datatype ConnectorParams = ConnectorParams(tenant: Id, wallet: Id, amount: int, currency: Currency, externalReference: string)

  /**
   * The implementations of the connector interface: the mock connector that
   * ships with the repository, and any other connector a caller registers,
   * given by its provider name and its two validations (a failure stands for
   * the error the connector throws).
   */
  datatype Connector =
    | MockConnector
    | Custom(name: string, checkIn: ConnectorParams -> Result<()>, checkOut: ConnectorParams -> Result<()>)
  {
    /** The name the connector is registered under. */
    function Provider(): (provider: string)
      ensures MockConnector? ==> provider == "mock"
      ensures Custom? ==> provider == name
    {
      match this
      case MockConnector => "mock"
      case Custom(name, _, _) => name
    }

    /**
     * `validateCashIn`: the mock rejects an empty external reference and
     * accepts everything else; another connector decides for itself.
     */
    function ValidateCashIn(p: ConnectorParams): (r: Result<()>)
      ensures MockConnector? ==> (r.Success? <==> p.externalReference != "")
      ensures MockConnector? && r.Failure? ==> r.error == ExternalReferenceRequired
      ensures Custom? ==> r == checkIn(p)
    {
      match this
      case MockConnector => Require(p.externalReference != "", ExternalReferenceRequired)
      case Custom(_, checkIn, _) => checkIn(p)
    }

    /** `validateCashOut`: the same rule for money leaving. */
    function ValidateCashOut(p: ConnectorParams): (r: Result<()>)
      ensures MockConnector? ==> (r.Success? <==> p.externalReference != "")
      ensures MockConnector? && r.Failure? ==> r.error == ExternalReferenceRequired
      ensures Custom? ==> r == checkOut(p)
    {
      match this
      case MockConnector => Require(p.externalReference != "", ExternalReferenceRequired)
      case Custom(_, _, checkOut) => checkOut(p)
    }
  }

  /** `getConnector`: the registered connector, or "Unknown provider: <name>". */
  function GetConnector(connectors: map<string, Connector>, provider: string): (r: Result<Connector>)
    ensures r.Success? <==> provider in connectors
    ensures r.Success? ==> r.value == connectors[provider]
    ensures r.Failure? ==> r.error == UnknownProvider(provider)
  {
    if provider in connectors then Success(connectors[provider]) else Failure(UnknownProvider(provider))
  }

  /** The in-memory `connectors` map of the integrations service. */
  class Registry {
    var connectors: map<string, Connector>

    /** A fresh service starts with no connector. */
    constructor ()
      ensures connectors == map[]
    {
      connectors := map[];
    }

    /** `onModuleInit`: registers the mock connector. */
    method OnModuleInit()
      modifies this
      ensures connectors == old(connectors)["mock" := MockConnector]
    {
      Register(MockConnector);
    }

    /** `register`: stores the connector under its provider name, replacing any previous one. */
    method Register(c: Connector)
      modifies this
      ensures connectors == old(connectors)[c.Provider() := c]
    {
      connectors := connectors[c.Provider() := c];
    }

    /** Looking up a provider reads the map and changes nothing. */
    method Lookup(provider: string) returns (r: Result<Connector>)
      ensures r == GetConnector(connectors, provider)
      ensures r.Success? <==> provider in connectors
    {
      r := GetConnector(connectors, provider);
    }
  }

  /**
   * After initialisation the mock provider resolves to the mock connector and
   * every other provider name is unknown.
   */
  lemma {:induction false} InitialRegistry(provider: string)
    ensures GetConnector(map[]["mock" := MockConnector], provider)
         == if provider == "mock" then Success(MockConnector) else Failure(UnknownProvider(provider))
  {
  }

  /** Registering makes the connector resolvable under its name and leaves every other name as it was. */
  lemma {:induction false} RegisterThenGet(connectors: map<string, Connector>, c: Connector, provider: string)
    ensures GetConnector(connectors[c.Provider() := c], provider)
         == if provider == c.Provider() then Success(c) else GetConnector(connectors, provider)
  {
  }
}

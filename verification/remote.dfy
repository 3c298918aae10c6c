/** The remote side as the managers see it: the server's address, the gateway
    answering each remote call, the trace of calls a manager issues, and the
    outcome a manager reports. */
module Remote {
  import opened Values
  import opened Encoders

  /** The REST endpoint. `segment` is the URL segment a store type prints as and
      `typeNameXml` is its resource-collection name with the XML format suffix;
      both belong to the store-type enumeration, which is not part of this
      model, so they are parameters rather than literals. */
  datatype Server = Server(
    baseUrl: string,
    segment: StoreType -> string,
    typeNameXml: StoreType -> string)

  /** The answers the outside world gives: whether the store manager created a
      store, and the response of an XML POST or PUT, where `None` is the null
      response that signals failure. */
  datatype Gateway = Gateway(
    createStore: (string, ShapefileStoreEncoder) -> bool,
    postXml: (string, ResourceEncoder) -> Option<string>,
    putXml: (string, LayerEncoder) -> Option<string>)

  /** One remote call, recorded with everything it sends. */
  datatype Call =
    | CreateStore(workspace: string, store: ShapefileStoreEncoder)
    | PostXml(address: string, resource: ResourceEncoder)
    | PutXml(address: string, layer: LayerEncoder)

  /** Why an argument was refused. */
  datatype Reason =
    | NullArgument
    | EmptyArgument
    | UnnamedEncoder
    | ReprojectWithoutCrs
    | NoneWithoutNativeCrs
    | ForceWithoutSrs

  /** The exceptions a manager call can end with. */
  datatype Failure = IllegalArgument(reason: Reason) | NullPointer

  /** A returned boolean or a thrown exception. */
  datatype Result = Ok(value: bool) | Err(failure: Failure)

  /** What one manager call did: its outcome and the remote calls it issued, in order. */
  datatype Run = Run(result: Result, calls: seq<Call>)

  /** A call that threw before reaching the server. */
  function Rejected(reason: Reason): Run
  {
    Run(Err(IllegalArgument(reason)), [])
  }
}

/** The resource manager: creates feature types and coverages in an existing
    store, and configures layers. Each operation is one remote round trip at
    most, and never retries. */
module ResourceManager {
  import opened Values
  import opened Encoders
  import opened Remote
  import opened Urls
  import opened Contracts

  /** Creates a resource of the given store type in a store of a workspace. The
      address is built before the encoder's name is checked, but nothing is
      sent until both checks pass. */
  function CreateResource(server: Server, gw: Gateway, workspace: Option<string>,
                          dsType: Option<StoreType>, storeName: Option<string>,
                          re: Option<ResourceEncoder>): (run: Run)
    ensures CreatesResource(server, gw, workspace, dsType, storeName, re, run)
  {
    if workspace.None? || dsType.None? || storeName.None? || re.None? then Rejected(NullArgument)
    else
      var target := ResourceUrl(server, workspace.value, dsType.value, storeName.value);
      if re.value.name.None? then Rejected(UnnamedEncoder)
      else
        var response := gw.postXml(target, re.value);
        Run(Ok(response != None), [PostXml(target, re.value)])
  }

  /** Creates a feature type: a resource in a datastore. */
  function CreateFeatureType(server: Server, gw: Gateway, workspace: Option<string>,
                             storeName: Option<string>, fte: Option<ResourceEncoder>): (run: Run)
    ensures CreatesResource(server, gw, workspace, Some(DATASTORES), storeName, fte, run)
  {
    CreateResource(server, gw, workspace, Some(DATASTORES), storeName, fte)
  }

  /** Creates a coverage: a resource in a coverage store. */
  function CreateCoverage(server: Server, gw: Gateway, workspace: Option<string>,
                          storeName: Option<string>, ce: Option<ResourceEncoder>): (run: Run)
    ensures CreatesResource(server, gw, workspace, Some(COVERAGESTORES), storeName, ce, run)
  {
    CreateResource(server, gw, workspace, Some(COVERAGESTORES), storeName, ce)
  }

  /** Feature types and coverages are created alike: the same refusals, and
      otherwise the same single POST of the same encoder, which differs only in
      the store-type part of its address. On a server where the two store
      types print alike, the two operations do exactly the same thing. */
  lemma CoverageDiffersOnlyInStoreType(server: Server, gw: Gateway, workspace: Option<string>,
                                       storeName: Option<string>, re: Option<ResourceEncoder>)
    ensures var coverage := CreateCoverage(server, gw, workspace, storeName, re);
            var featureType := CreateFeatureType(server, gw, workspace, storeName, re);
            && (coverage.result.Err? <==> featureType.result.Err?)
            && (coverage.result.Err? ==> coverage == featureType)
            && (coverage.result.Ok? ==>
                  && coverage.calls == [PostXml(ResourceUrl(server, workspace.value, COVERAGESTORES, storeName.value), re.value)]
                  && featureType.calls == [PostXml(ResourceUrl(server, workspace.value, DATASTORES, storeName.value), re.value)])
    ensures server.segment(DATASTORES) == server.segment(COVERAGESTORES)
            && server.typeNameXml(DATASTORES) == server.typeNameXml(COVERAGESTORES)
            ==> CreateCoverage(server, gw, workspace, storeName, re)
                == CreateFeatureType(server, gw, workspace, storeName, re)
  {
  }

  /** Configures layer attributes such as the default style of an existing
      resource. */
  function ConfigureLayer(server: Server, gw: Gateway, workspace: Option<string>,
                          resourceName: Option<string>, layer: Option<LayerEncoder>): (run: Run)
    ensures ConfiguresLayer(server, gw, workspace, resourceName, layer, run)
  {
    if workspace.None? || resourceName.None? || layer.None? then Rejected(NullArgument)
    else if |workspace.value| == 0 || |resourceName.value| == 0 || layer.value.isEmpty then
      Rejected(EmptyArgument)
    else
      var target := LayerUrl(server.baseUrl, workspace.value, resourceName.value);
      var response := gw.putXml(target, layer.value);
      Run(Ok(response != None), [PutXml(target, layer.value)])
  }
}

/** What a caller may observe of one resource-creation call and of one
    layer-configuration call, stated once and promised by every manager that
    offers the operation. */
module Contracts {
  import opened Values
  import opened Encoders
  import opened Remote
  import opened Urls

  /** Creating a resource: a null argument or an unnamed encoder throws
      IllegalArgumentException before any remote call; otherwise exactly one
      POST of the encoder goes to the resource address, and the call reports
      success exactly when the response is non-null. Empty names are not
      refused. */
  ghost predicate CreatesResource(server: Server, gw: Gateway, workspace: Option<string>,
                                  dsType: Option<StoreType>, storeName: Option<string>,
                                  re: Option<ResourceEncoder>, run: Run)
  {
    var nullArgument := workspace.None? || dsType.None? || storeName.None? || re.None?;
    var unnamed := !nullArgument && re.value.name.None?;
    && (run.result.Err? <==> nullArgument || unnamed)
    && (nullArgument ==> run.result == Err(IllegalArgument(NullArgument)))
    && (unnamed ==> run.result == Err(IllegalArgument(UnnamedEncoder)))
    && (run.result.Err? ==> run.calls == [])
    && (run.result.Ok? ==>
          var target := ResourceUrl(server, workspace.value, dsType.value, storeName.value);
          && run.calls == [PostXml(target, re.value)]
          && (run.result.value <==> gw.postXml(target, re.value).Some?))
  }

  /** Configuring a layer: a null argument, an empty workspace or resource
      name, or an empty layer encoder throws IllegalArgumentException before any
      remote call; otherwise exactly one PUT of the encoder goes to the layer
      address, and the call reports success exactly when the response is
      non-null. */
  ghost predicate ConfiguresLayer(server: Server, gw: Gateway, workspace: Option<string>,
                                  resourceName: Option<string>, layer: Option<LayerEncoder>, run: Run)
  {
    var nullArgument := workspace.None? || resourceName.None? || layer.None?;
    var emptyArgument :=
      !nullArgument && (|workspace.value| == 0 || |resourceName.value| == 0 || layer.value.isEmpty);
    && (run.result.Err? <==> nullArgument || emptyArgument)
    && (nullArgument ==> run.result == Err(IllegalArgument(NullArgument)))
    && (emptyArgument ==> run.result == Err(IllegalArgument(EmptyArgument)))
    && (run.result.Err? ==> run.calls == [])
    && (run.result.Ok? ==>
          var target := LayerUrl(server.baseUrl, workspace.value, resourceName.value);
          && run.calls == [PutXml(target, layer.value)]
          && (run.result.value <==> gw.putXml(target, layer.value).Some?))
  }

  /** The resource-creation contract leaves no freedom: two runs meeting it agree. */
  lemma CreatesResourceDeterminesRun(server: Server, gw: Gateway, workspace: Option<string>,
                                     dsType: Option<StoreType>, storeName: Option<string>,
                                     re: Option<ResourceEncoder>, run1: Run, run2: Run)
    requires CreatesResource(server, gw, workspace, dsType, storeName, re, run1)
    requires CreatesResource(server, gw, workspace, dsType, storeName, re, run2)
    ensures run1 == run2
  {
  }

  /** The layer-configuration contract leaves no freedom: two runs meeting it agree. */
  lemma ConfiguresLayerDeterminesRun(server: Server, gw: Gateway, workspace: Option<string>,
                                     resourceName: Option<string>, layer: Option<LayerEncoder>,
                                     run1: Run, run2: Run)
    requires ConfiguresLayer(server, gw, workspace, resourceName, layer, run1)
    requires ConfiguresLayer(server, gw, workspace, resourceName, layer, run2)
    ensures run1 == run2
  {
  }
}

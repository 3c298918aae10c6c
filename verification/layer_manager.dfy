/** The standalone layer manager. Its one operation repeats the resource
    manager's layer configuration statement for statement. */
module LayerManager {
  import opened Values
  import opened Encoders
  import opened Remote
  import opened Urls
  import opened Contracts
  import ResourceManager

  /** Configures layer attributes such as the default style of an existing
      resource. */
  function ConfigureLayer(server: Server, gw: Gateway, workspace: Option<string>,
                          resourceName: Option<string>, layer: Option<LayerEncoder>): (run: Run)
    ensures ConfiguresLayer(server, gw, workspace, resourceName, layer, run)
  {
    if workspace.None? || resourceName.None? || layer.None? then Rejected(NullArgument)
    else if |workspace.value| == 0 || |resourceName.value| == 0 || layer.value.isEmpty then
      Rejected(EmptyArgument)
    else
      var target := LayerUrl(server.baseUrl, workspace.value, resourceName.value);
      var response := gw.putXml(target, layer.value);
      Run(Ok(response != None), [PutXml(target, layer.value)])
  }

  /** The two copies agree on every input and every gateway answer: same
      outcome, same remote calls. */
  lemma CopiesAgree(server: Server, gw: Gateway, workspace: Option<string>,
                    resourceName: Option<string>, layer: Option<LayerEncoder>)
    ensures ConfigureLayer(server, gw, workspace, resourceName, layer)
            == ResourceManager.ConfigureLayer(server, gw, workspace, resourceName, layer)
  {
    ConfiguresLayerDeterminesRun(server, gw, workspace, resourceName, layer,
      ConfigureLayer(server, gw, workspace, resourceName, layer),
      ResourceManager.ConfigureLayer(server, gw, workspace, resourceName, layer));
  }
}

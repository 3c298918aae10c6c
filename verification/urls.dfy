/** The two REST addresses the managers build, and what a server reading them
    back recovers. Both builders splice their arguments in verbatim: nothing is
    escaped, and an empty workspace or store name is kept as an empty segment. */
module Urls {
  import opened Values
  import opened Encoders
  import opened Remote
  import opened Paths

  const WorkspacesPath := "/rest/workspaces/"
  const LayersPath := "/rest/layers/"

  /** The four path segments after the workspaces prefix. */
  datatype ResourceAddress = ResourceAddress(workspace: string, segment: string, storeName: string, typeName: string)

  /** The two halves of a qualified layer name. */
  datatype LayerAddress = LayerAddress(workspace: string, resourceName: string)

  /** The rest of `s` after `prefix`, when `s` starts with it. */
  function StripPrefix(prefix: string, s: string): (r: Option<string>)
    ensures r.Some? <==> |prefix| <= |s| && s[..|prefix|] == prefix
    ensures r.Some? ==> s == prefix + r.value
  {
    if |prefix| <= |s| && s[..|prefix|] == prefix then
      assert s == s[..|prefix|] + s[|prefix|..];
      Some(s[|prefix|..])
    else None
  }

  /** Reads a resource-creation address: the base and workspaces prefix, then
      exactly four '/'-separated segments. */
  function ParseResourceUrl(baseUrl: string, address: string): (r: Option<ResourceAddress>)
    ensures r.Some? ==>
      address == baseUrl + WorkspacesPath + r.value.workspace + "/" + r.value.segment + "/"
                 + r.value.storeName + "/" + r.value.typeName
  {
    match StripPrefix(baseUrl + WorkspacesPath, address)
    case None => None
    case Some(path) =>
      var parts := Split(path, '/');
      if |parts| != 4 then None
      else
        FourPieces(path, '/');
        Some(ResourceAddress(parts[0], parts[1], parts[2], parts[3]))
  }

  /** A string that splits into four pieces is those pieces joined. */
  lemma FourPieces(s: string, sep: char)
    requires |Split(s, sep)| == 4
    ensures var parts := Split(s, sep);
            s == parts[0] + [sep] + parts[1] + [sep] + parts[2] + [sep] + parts[3]
  {
    var parts := Split(s, sep);
    JoinSplit(s, sep);
    assert parts == [parts[0], parts[1], parts[2], parts[3]];
    JoinFour(parts[0], parts[1], parts[2], parts[3], sep);
  }

  /** Reads a layer-configuration address: the base and layers prefix, then
      exactly two ':'-separated halves. */
  function ParseLayerUrl(baseUrl: string, address: string): (r: Option<LayerAddress>)
    ensures r.Some? ==> address == baseUrl + LayersPath + (r.value.workspace + ":" + r.value.resourceName)
  {
    match StripPrefix(baseUrl + LayersPath, address)
    case None => None
    case Some(name) =>
      var parts := Split(name, ':');
      if |parts| != 2 then None
      else
        JoinSplit(name, ':');
        assert parts[1..] == [parts[1]];
        Some(LayerAddress(parts[0], parts[1]))
  }

  /** Stripping a prefix from a string built with it gives the rest. */
  lemma StripPrefixOfConcat(prefix: string, rest: string)
    ensures StripPrefix(prefix, prefix + rest) == Some(rest)
  {
    assert (prefix + rest)[..|prefix|] == prefix;
    assert (prefix + rest)[|prefix|..] == rest;
  }

  /** Four '/'-free names under the workspaces prefix are read back as themselves. */
  lemma ResourcePathParsesBack(baseUrl: string, workspace: string, segment: string, storeName: string,
                               typeName: string)
    requires '/' !in workspace && '/' !in segment && '/' !in storeName && '/' !in typeName
    ensures ParseResourceUrl(baseUrl, baseUrl + WorkspacesPath
                                      + (workspace + "/" + segment + "/" + storeName + "/" + typeName))
            == Some(ResourceAddress(workspace, segment, storeName, typeName))
  {
    var path := workspace + "/" + segment + "/" + storeName + "/" + typeName;
    JoinFour(workspace, segment, storeName, typeName, '/');
    SplitJoin([workspace, segment, storeName, typeName], '/');
    StripPrefixOfConcat(baseUrl + WorkspacesPath, path);
  }

  /** Two ':'-free names under the layers prefix are read back as themselves. */
  lemma LayerNameParsesBack(baseUrl: string, workspace: string, resourceName: string)
    requires ':' !in workspace && ':' !in resourceName
    ensures ParseLayerUrl(baseUrl, baseUrl + LayersPath + (workspace + ":" + resourceName))
            == Some(LayerAddress(workspace, resourceName))
  {
    assert workspace + ":" + resourceName == Join([workspace, resourceName], ':');
    SplitJoin([workspace, resourceName], ':');
    StripPrefixOfConcat(baseUrl + LayersPath, workspace + ":" + resourceName);
  }

  /** Where a feature type or coverage is created:
      base/rest/workspaces/ws/segment/store/typeName. The address always lies
      under the workspaces collection, and it names its workspace, store type
      and store unambiguously as long as none of the spliced names contains
      '/'. Empty names are no exception: they come back as empty segments.
      Whatever the names, what follows the prefix is exactly the four names
      joined by '/'. */
  function ResourceUrl(server: Server, workspace: string, dsType: StoreType, storeName: string): (r: string)
    ensures StripPrefix(server.baseUrl + WorkspacesPath, r)
            == Some(Join([workspace, server.segment(dsType), storeName, server.typeNameXml(dsType)], '/'))
    ensures '/' !in workspace && '/' !in storeName && '/' !in server.segment(dsType)
            && '/' !in server.typeNameXml(dsType)
            ==> ParseResourceUrl(server.baseUrl, r)
                == Some(ResourceAddress(workspace, server.segment(dsType), storeName, server.typeNameXml(dsType)))
  {
    var address := server.baseUrl + WorkspacesPath + workspace + "/" + server.segment(dsType) + "/" + storeName
                   + "/" + server.typeNameXml(dsType);
    var path := workspace + "/" + server.segment(dsType) + "/" + storeName + "/" + server.typeNameXml(dsType);
    assert address == server.baseUrl + WorkspacesPath + path;
    JoinFour(workspace, server.segment(dsType), storeName, server.typeNameXml(dsType), '/');
    StripPrefixOfConcat(server.baseUrl + WorkspacesPath, path);
    if '/' !in workspace && '/' !in storeName && '/' !in server.segment(dsType)
       && '/' !in server.typeNameXml(dsType) then
      ResourcePathParsesBack(server.baseUrl, workspace, server.segment(dsType), storeName,
                             server.typeNameXml(dsType));
      address
    else address
  }

  /** The key a layer is addressed by: workspace:resource. */
  function QualifiedLayerName(workspace: string, resourceName: string): string
  {
    workspace + ":" + resourceName
  }

  /** Where a layer is configured: base/rest/layers/ws:resource. The address
      always lies under the layers collection, and it names its workspace and
      resource unambiguously as long as neither contains ':'. */
  function LayerUrl(baseUrl: string, workspace: string, resourceName: string): (r: string)
    ensures StripPrefix(baseUrl + LayersPath, r) == Some(QualifiedLayerName(workspace, resourceName))
    ensures ':' !in workspace && ':' !in resourceName
            ==> ParseLayerUrl(baseUrl, r) == Some(LayerAddress(workspace, resourceName))
  {
    var address := baseUrl + LayersPath + QualifiedLayerName(workspace, resourceName);
    StripPrefixOfConcat(baseUrl + LayersPath, QualifiedLayerName(workspace, resourceName));
    if ':' !in workspace && ':' !in resourceName then
      LayerNameParsesBack(baseUrl, workspace, resourceName);
      address
    else address
  }

  /** Distinct ':'-free workspace/resource pairs never share a layer address. */
  lemma LayerUrlInjective(baseUrl: string, ws1: string, rn1: string, ws2: string, rn2: string)
    requires ':' !in ws1 && ':' !in rn1 && ':' !in ws2 && ':' !in rn2
    requires LayerUrl(baseUrl, ws1, rn1) == LayerUrl(baseUrl, ws2, rn2)
    ensures ws1 == ws2 && rn1 == rn2
  {
  }

  /** Without that restriction the qualified name is ambiguous: moving a
      ':'-separated piece from the workspace to the resource name gives the same
      address. */
  lemma LayerUrlAmbiguousWithColon(baseUrl: string, ws: string, piece: string, rn: string)
    ensures LayerUrl(baseUrl, ws + ":" + piece, rn) == LayerUrl(baseUrl, ws, piece + ":" + rn)
  {
  }
}

/** End-to-end publications on a server whose store types print as the
    GeoServer REST API spells them. */
module Scenarios {
  import opened Values
  import opened Encoders
  import opened Remote
  import opened Urls
  import ResourceManager
  import LayerManager
  import opened ShapeFileManager

  /** The server's spelling of the datastore type. */
  predicate GeoServerNaming(server: Server)
  {
    && server.segment(DATASTORES) == "datastores"
    && server.typeNameXml(DATASTORES) == "featuretypes.xml"
  }

  /** A gateway where the store manager reports `storeCreated` and every POST
      and PUT gets a response. */
  function Answering(storeCreated: bool): Gateway
  {
    Gateway((ws, store) => storeCreated, (target, re) => Some("created"), (target, l) => Some("configured"))
  }

  function Rivers(policy: ProjectionPolicy, srs: Option<string>, nativeCRS: Option<string>): ResourceEncoder
  {
    ResourceEncoder(Some("rivers"), srs, nativeCRS, Some(policy), "")
  }

  const StyledLayer := LayerEncoder(false, "<layer><defaultStyle>rivers</defaultStyle></layer>")

  function FaoRivers(fte: ResourceEncoder, shapefile: Location): Publication
  {
    Publication(Some("fao"), Some("gis"), Some("rivers"), Some(FILE), Some(shapefile), Some(fte), Some(StyledLayer))
  }

  /** A resource address with literal names, spelled out. */
  lemma ResourceUrlLiteral(server: Server, ws: string, store: string)
    requires GeoServerNaming(server)
    ensures ResourceUrl(server, ws, DATASTORES, store)
            == server.baseUrl + ("/rest/workspaces/" + ws + "/datastores/" + store + "/featuretypes.xml")
  {
    assert "/" + "datastores" + "/" == "/datastores/";
    assert "/" + "featuretypes.xml" == "/featuretypes.xml";
  }

  /** The address the fao/gis publication POSTs its feature type to. */
  lemma FeatureTypeAddressOf(server: Server)
    requires GeoServerNaming(server)
    ensures ResourceUrl(server, "fao", DATASTORES, "gis")
            == server.baseUrl + "/rest/workspaces/fao/datastores/gis/featuretypes.xml"
  {
    ResourceUrlLiteral(server, "fao", "gis");
    assert "/rest/workspaces/" + "fao" == "/rest/workspaces/fao";
    assert "/rest/workspaces/fao" + "/datastores/" == "/rest/workspaces/fao/datastores/";
    assert "/rest/workspaces/fao/datastores/" + "gis" == "/rest/workspaces/fao/datastores/gis";
    assert "/rest/workspaces/fao/datastores/gis" + "/featuretypes.xml"
           == "/rest/workspaces/fao/datastores/gis/featuretypes.xml";
  }

  /** The rivers layer of workspace fao is PUT to base/rest/layers/fao:rivers. */
  lemma LayerAddressOfRivers(server: Server)
    ensures LayerManager.ConfigureLayer(server, Answering(true), Some("fao"), Some("rivers"), Some(StyledLayer))
            == Run(Ok(true), [PutXml(server.baseUrl + "/rest/layers/fao:rivers", StyledLayer)])
  {
    assert QualifiedLayerName("fao", "rivers") == "fao:rivers";
    assert LayersPath + "fao:rivers" == "/rest/layers/fao:rivers";
    assert LayerUrl(server.baseUrl, "fao", "rivers") == server.baseUrl + "/rest/layers/fao:rivers";
  }

  /** A feature type named rivers in store "store" of workspace "ws" is POSTed
      to exactly base/rest/workspaces/ws/datastores/store/featuretypes.xml. */
  lemma FeatureTypeAddress(server: Server, gw: Gateway)
    requires GeoServerNaming(server)
    ensures var fte := Rivers(FORCE_DECLARED, Some("EPSG:4326"), None);
            ResourceManager.CreateFeatureType(server, gw, Some("ws"), Some("store"), Some(fte)).calls
            == [PostXml(server.baseUrl + "/rest/workspaces/ws/datastores/store/featuretypes.xml", fte)]
  {
    ResourceUrlLiteral(server, "ws", "store");
    assert "/rest/workspaces/" + "ws" == "/rest/workspaces/ws";
    assert "/rest/workspaces/ws" + "/datastores/" == "/rest/workspaces/ws/datastores/";
    assert "/rest/workspaces/ws/datastores/" + "store" == "/rest/workspaces/ws/datastores/store";
    assert "/rest/workspaces/ws/datastores/store" + "/featuretypes.xml"
           == "/rest/workspaces/ws/datastores/store/featuretypes.xml";
  }

  /** Forced declared SRS with every call answered: store, feature type and
      layer calls in that order, and the publication succeeds. */
  lemma ForcedSrsPublishes(server: Server, shapefile: Location)
    requires GeoServerNaming(server)
    ensures var fte := Rivers(FORCE_DECLARED, Some("EPSG:4326"), None);
            PublishShp(server, Answering(true), FaoRivers(fte, shapefile)) ==
            Run(Ok(true),
                [CreateStore("fao", ShapefileStoreEncoder(Some("application/zip"), shapefile)),
                 PostXml(server.baseUrl + "/rest/workspaces/fao/datastores/gis/featuretypes.xml", fte),
                 PutXml(server.baseUrl + "/rest/layers/fao:rivers", StyledLayer)])
  {
    var fte := Rivers(FORCE_DECLARED, Some("EPSG:4326"), None);
    var req := FaoRivers(fte, shapefile);
    var gw := Answering(true);
    FeatureTypeAddressOf(server);
    LayerOutcomeIsResult(server, gw, req);
    LayerAddressOfRivers(server);
  }

  /** Reprojection without a native CRS: an illegal argument and no remote call. */
  lemma ReprojectWithoutNativeCrsIsRefused(server: Server, gw: Gateway, shapefile: Location)
    ensures PublishShp(server, gw, FaoRivers(Rivers(REPROJECT_TO_DECLARED, Some("EPSG:4326"), None), shapefile))
            == Run(Err(IllegalArgument(ReprojectWithoutCrs)), [])
  {
  }

  /** The store already exists, so its creation fails; the publication still
      succeeds. */
  lemma ExistingStoreIsTolerated(server: Server, shapefile: Location)
    ensures var req := FaoRivers(Rivers(FORCE_DECLARED, Some("EPSG:4326"), None), shapefile);
            PublishShp(server, Answering(false), req).result == Ok(true)
  {
  }

  /** Policy NONE with only a native CRS: the native CRS is sent as the SRS. */
  lemma NativeCrsBecomesSrs(server: Server, shapefile: Location)
    requires GeoServerNaming(server)
    ensures var req := FaoRivers(Rivers(NONE, None, Some("EPSG:32633")), shapefile);
            PublishShp(server, Answering(true), req).calls[1]
            == PostXml(server.baseUrl + "/rest/workspaces/fao/datastores/gis/featuretypes.xml",
                       Rivers(NONE, Some("EPSG:32633"), Some("EPSG:32633")))
  {
    var req := FaoRivers(Rivers(NONE, None, Some("EPSG:32633")), shapefile);
    FeatureTypeAddressOf(server);
    FeatureTypeCreationAlwaysReached(server, Answering(true), req);
  }
}

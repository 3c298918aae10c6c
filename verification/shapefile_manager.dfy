/** The shapefile publisher: one gated pipeline that checks its arguments and
    the projection policy, creates the shapefile store (tolerating failure),
    creates the feature type (stopping on failure) and configures the layer. */
module ShapeFileManager {
  import opened Values
  import opened Encoders
  import opened Remote
  import opened Urls
  import ResourceManager
  import LayerManager

  const TextPlain := "text/plain"
  const ApplicationZip := "application/zip"

  /** The arguments of one publication, in the publisher's parameter order.
      The store parameters the publisher accepts but never reads are left out. */
  datatype Publication = Publication(
    workspace: Option<string>,
    storeName: Option<string>,
    datasetName: Option<string>,
    upload: Option<UploadMethod>,
    shapefile: Option<Location>,
    featureType: Option<ResourceEncoder>,
    layer: Option<LayerEncoder>)

  /** The MIME type of the store payload for each upload method. Case variants
      of a method are equivalent, and a method the switch does not list gets no
      MIME type, without an error. */
  function MimeType(upload: UploadMethod): (mime: Option<string>)
    ensures mime == Some(TextPlain) <==> upload == EXTERNAL || upload == external
    ensures mime == Some(ApplicationZip) <==> upload in {URL, FILE, file, url}
    ensures mime == None <==> upload.Unlisted?
  {
    match upload
    case EXTERNAL | external => Some(TextPlain)
    case URL | FILE | file | url => Some(ApplicationZip)
    case Unlisted(_) => None
  }

  /** The upper-case spelling of a listed upload method. */
  function UpperCase(upload: UploadMethod): UploadMethod
  {
    match upload
    case file => FILE
    case url => URL
    case external => EXTERNAL
    case _ => upload
  }

  /** The projection-policy admission table: which CRS facts each policy needs. */
  function Admits(policy: ProjectionPolicy, srs: Option<string>, nativeCRS: Option<string>): (admitted: bool)
    // read by column: every policy but NONE needs an SRS, every policy but
    // FORCE_DECLARED needs a native CRS
    ensures admitted <==> (policy != NONE ==> Present(srs)) && (policy != FORCE_DECLARED ==> Present(nativeCRS))
  {
    match policy
    case REPROJECT_TO_DECLARED => Present(srs) && Present(nativeCRS)
    case NONE => Present(nativeCRS)
    case FORCE_DECLARED => Present(srs)
  }

  /** Every check the publisher makes before its first remote call passes. */
  predicate Preflight(req: Publication)
  {
    && req.featureType.Some?
    && req.featureType.value.projectionPolicy.Some?
    && req.workspace.Some? && req.storeName.Some? && req.shapefile.Some? && req.datasetName.Some?
    && Admits(req.featureType.value.projectionPolicy.value, req.featureType.value.srs,
              req.featureType.value.nativeCRS)
    && req.upload.Some?
  }

  /** The feature type as sent: an absent SRS is replaced by the native CRS.
      Nothing but the SRS ever changes, and a present SRS is kept. */
  function WithDeclaredSrs(fte: ResourceEncoder): (sent: ResourceEncoder)
    ensures sent.(srs := fte.srs) == fte
    ensures Present(fte.srs) ==> sent == fte
    ensures !Present(fte.srs) ==> sent.srs == fte.nativeCRS
  {
    if Present(fte.srs) then fte else fte.(srs := fte.nativeCRS)
  }

  /** The store-manager call of a publication that passed its checks. */
  function StoreCall(req: Publication): Call
    requires req.workspace.Some? && req.upload.Some? && req.shapefile.Some?
  {
    CreateStore(req.workspace.value, ShapefileStoreEncoder(MimeType(req.upload.value), req.shapefile.value))
  }

  /** The calls are a prefix of store creation, feature-type POST, layer PUT. */
  predicate InPipelineOrder(calls: seq<Call>)
  {
    && |calls| <= 3
    && (|calls| > 0 ==> calls[0].CreateStore?)
    && (|calls| > 1 ==> calls[1].PostXml?)
    && (|calls| > 2 ==> calls[2].PutXml?)
  }

  /** Publishes a shapefile end to end. A null encoder, a null projection
      policy or a null upload method is dereferenced and fails with a null
      pointer; the other argument and policy checks throw
      IllegalArgumentException. The store manager's answer is ignored. */
  function PublishShp(server: Server, gw: Gateway, req: Publication): (run: Run)
    ensures run.calls == [] <==> !Preflight(req)
    ensures !Preflight(req) ==> run.result.Err?
    ensures Preflight(req) ==> run.calls[0] == StoreCall(req)
    ensures InPipelineOrder(run.calls)
  {
    match req.featureType
    case None => Run(Err(NullPointer), [])
    case Some(fte) =>
      if fte.projectionPolicy.None? then Run(Err(NullPointer), [])
      else if req.workspace.None? || req.storeName.None? || req.shapefile.None? || req.datasetName.None? then
        Rejected(NullArgument)
      else
        var policy := fte.projectionPolicy.value;
        var srsNull := !Present(fte.srs);
        var nativeSrsNull := !Present(fte.nativeCRS);
        if policy == REPROJECT_TO_DECLARED && (nativeSrsNull || srsNull) then Rejected(ReprojectWithoutCrs)
        else if policy == NONE && nativeSrsNull then Rejected(NoneWithoutNativeCrs)
        else if policy == FORCE_DECLARED && srsNull then Rejected(ForceWithoutSrs)
        else if req.upload.None? then Run(Err(NullPointer), [])
        else
          var sent := WithDeclaredSrs(fte);
          var resource := ResourceManager.CreateFeatureType(server, gw, req.workspace, req.storeName, Some(sent));
          var staged := [StoreCall(req)] + resource.calls;
          if resource.result != Ok(true) then Run(resource.result, staged)
          else
            var layer := LayerManager.ConfigureLayer(server, gw, req.workspace, req.datasetName, req.layer);
            Run(layer.result, staged + layer.calls)
  }

  /** Case variants of an upload method get the same MIME type. */
  lemma MimeTypeIgnoresCase(upload: UploadMethod)
    ensures MimeType(upload) == MimeType(UpperCase(upload))
  {
  }

  /** A null encoder or a null projection policy fails before any remote call. */
  lemma NullEncoderOrPolicyFailsEarly(server: Server, gw: Gateway, req: Publication)
    requires req.featureType.None? || req.featureType.value.projectionPolicy.None?
    ensures PublishShp(server, gw, req).result.Err?
    ensures PublishShp(server, gw, req).calls == []
  {
  }

  /** A null workspace, store name, shapefile or dataset name is refused as an
      illegal argument before any remote call. */
  lemma NullArgumentsRejected(server: Server, gw: Gateway, req: Publication)
    requires req.featureType.Some? && req.featureType.value.projectionPolicy.Some?
    requires req.workspace.None? || req.storeName.None? || req.shapefile.None? || req.datasetName.None?
    ensures PublishShp(server, gw, req) == Rejected(NullArgument)
  {
  }

  /** The policy gate refuses, before any remote call, exactly the policies the
      admission table does not admit, each with its own reason. */
  lemma PolicyGate(server: Server, gw: Gateway, req: Publication)
    requires req.featureType.Some? && req.featureType.value.projectionPolicy.Some?
    requires req.workspace.Some? && req.storeName.Some? && req.shapefile.Some? && req.datasetName.Some?
    ensures var fte := req.featureType.value;
            fte.projectionPolicy.value == REPROJECT_TO_DECLARED && !(Present(fte.srs) && Present(fte.nativeCRS))
            ==> PublishShp(server, gw, req) == Rejected(ReprojectWithoutCrs)
    ensures var fte := req.featureType.value;
            fte.projectionPolicy.value == NONE && !Present(fte.nativeCRS)
            ==> PublishShp(server, gw, req) == Rejected(NoneWithoutNativeCrs)
    ensures var fte := req.featureType.value;
            fte.projectionPolicy.value == FORCE_DECLARED && !Present(fte.srs)
            ==> PublishShp(server, gw, req) == Rejected(ForceWithoutSrs)
    ensures var fte := req.featureType.value;
            Admits(fte.projectionPolicy.value, fte.srs, fte.nativeCRS) && req.upload.Some?
            ==> PublishShp(server, gw, req).calls != []
  {
  }

  /** After admission the SRS sent is always present: either it was declared,
      or the policy needed a native CRS and that CRS is sent in its place. */
  lemma AdmittedSrsIsPresent(fte: ResourceEncoder)
    requires fte.projectionPolicy.Some?
    requires Admits(fte.projectionPolicy.value, fte.srs, fte.nativeCRS)
    ensures Present(WithDeclaredSrs(fte).srs)
  {
  }

  /** Every feature type POSTed is the caller's encoder with the SRS backfilled
      from the native CRS when absent and otherwise unchanged, and its SRS is
      present. */
  lemma PostedFeatureTypeHasSrs(server: Server, gw: Gateway, req: Publication)
    ensures var calls := PublishShp(server, gw, req).calls;
            forall i :: 0 <= i < |calls| && calls[i].PostXml? ==>
              && req.featureType.Some?
              && calls[i].resource == WithDeclaredSrs(req.featureType.value)
              && Present(calls[i].resource.srs)
  {
    var calls := PublishShp(server, gw, req).calls;
    if Preflight(req) {
      AdmittedSrsIsPresent(req.featureType.value);
    }
  }

  /** The store manager's answer changes nothing: a failed store creation,
      say because the store already exists, never stops the pipeline. */
  lemma StoreAnswerIgnored(server: Server, gw: Gateway, answer: (string, ShapefileStoreEncoder) -> bool,
                           req: Publication)
    ensures PublishShp(server, gw.(createStore := answer), req) == PublishShp(server, gw, req)
  {
  }

  /** Whatever the gateway answers, in particular when the store already
      exists, a publication that passed its checks and names its feature type
      reaches feature-type creation. Republishing the same shapefile therefore
      gets as far as the first time. */
  lemma FeatureTypeCreationAlwaysReached(server: Server, gw: Gateway, req: Publication)
    requires Preflight(req) && req.featureType.value.name.Some?
    ensures var calls := PublishShp(server, gw, req).calls;
            |calls| >= 2 && calls[1] == PostXml(ResourceUrl(server, req.workspace.value, DATASTORES, req.storeName.value),
                                                WithDeclaredSrs(req.featureType.value))
  {
  }

  /** The store call does not depend on the store name: the store manager is
      handed only the MIME type and the shapefile location. */
  lemma StoreCallIgnoresStoreName(server: Server, gw: Gateway, req: Publication, other: string)
    requires Preflight(req)
    ensures PublishShp(server, gw, req.(storeName := Some(other))).calls[0]
            == PublishShp(server, gw, req).calls[0]
  {
  }

  /** An unnamed feature-type encoder is refused by the resource manager,
      after the store call has gone out. */
  lemma UnnamedFeatureTypeRejectedAfterStore(server: Server, gw: Gateway, req: Publication)
    requires Preflight(req) && req.featureType.value.name.None?
    ensures PublishShp(server, gw, req) == Run(Err(IllegalArgument(UnnamedEncoder)), [StoreCall(req)])
  {
  }

  /** A failed feature-type creation ends the publication with false, and no
      layer call is made. */
  lemma FailedFeatureTypeStopsPipeline(server: Server, gw: Gateway, req: Publication)
    requires Preflight(req) && req.featureType.value.name.Some?
    requires gw.postXml(ResourceUrl(server, req.workspace.value, DATASTORES, req.storeName.value),
                        WithDeclaredSrs(req.featureType.value)) == None
    ensures PublishShp(server, gw, req) ==
            Run(Ok(false), [StoreCall(req),
                            PostXml(ResourceUrl(server, req.workspace.value, DATASTORES, req.storeName.value),
                                    WithDeclaredSrs(req.featureType.value))])
  {
  }

  /** After a successful feature-type creation the publication's outcome is
      the layer manager's, with the dataset name as the resource name. */
  lemma LayerOutcomeIsResult(server: Server, gw: Gateway, req: Publication)
    requires Preflight(req) && req.featureType.value.name.Some?
    requires gw.postXml(ResourceUrl(server, req.workspace.value, DATASTORES, req.storeName.value),
                        WithDeclaredSrs(req.featureType.value)) != None
    ensures var layer := LayerManager.ConfigureLayer(server, gw, req.workspace, req.datasetName, req.layer);
            PublishShp(server, gw, req) ==
            Run(layer.result, [StoreCall(req),
                               PostXml(ResourceUrl(server, req.workspace.value, DATASTORES, req.storeName.value),
                                       WithDeclaredSrs(req.featureType.value))] + layer.calls)
  {
  }

  /** An empty workspace, an empty dataset name or a null or empty layer
      encoder passes the publisher's own checks, which test only for null, and
      even reaches the feature-type POST, whose address then has an empty
      workspace segment. The layer manager refuses it only afterwards: with the
      null-argument reason for a null layer encoder, and with the
      empty-argument reason otherwise. */
  lemma LateLayerRejection(server: Server, gw: Gateway, req: Publication)
    requires Preflight(req) && req.featureType.value.name.Some?
    requires gw.postXml(ResourceUrl(server, req.workspace.value, DATASTORES, req.storeName.value),
                        WithDeclaredSrs(req.featureType.value)) != None
    requires || |req.workspace.value| == 0 || |req.datasetName.value| == 0
             || req.layer.None? || req.layer.value.isEmpty
    ensures PublishShp(server, gw, req) ==
            Run(Err(IllegalArgument(if req.layer.None? then NullArgument else EmptyArgument)),
                [StoreCall(req),
                 PostXml(ResourceUrl(server, req.workspace.value, DATASTORES, req.storeName.value),
                         WithDeclaredSrs(req.featureType.value))])
  {
  }
}

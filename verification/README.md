# GeoServer REST publish orchestration, modelled in Dafny

This project models the publish orchestration of the geoserver-manager Java
client: the resource manager, which creates feature types and coverages in a
store and configures layers; the standalone layer manager; and the shapefile
publisher. The publisher checks its arguments and the projection policy,
creates a shapefile datastore, creates the feature type and configures the
layer.

Each manager operation is a pure function. It takes the operation's arguments
and a `Gateway`, which is an oracle of what the outside world answers:

- whether the store manager created the store;
- the response to an XML POST;
- the response to an XML PUT.

A null response means failure. Each operation returns a `Run`: the outcome
(`Ok(b)` or a thrown `IllegalArgument(reason)` / `NullPointer`) together with
the trace of remote calls issued, in order. Java's null is `Values.Option.None`.
Request bodies are recorded as the encoder values themselves.

Modules:

- `Values`: nullable references, and the "present" test (non-null and non-empty).
- `Encoders`: the descriptors and enumerations. Encoders are opaque apart from
  the accessors the managers call.
- `Remote`: the server, the gateway, calls, failures and runs.
- `Paths`, `Urls`: the two REST addresses, and how a server reads them back.
  `Paths` joins and splits on a separator. `Urls` builds the addresses and parses
  them back.
- `Contracts`: what a caller may observe of resource creation and of layer
  configuration. Every manager offering the operation promises this.
- `ResourceManager`, `LayerManager`, `ShapeFileManager`: the three manager classes.
- `Scenarios`: end-to-end publications with concrete names.

Behaviour of the code worth knowing, as the model states it:

- Resource creation refuses only null names. The Javadoc of `createResource`,
  `createFeatureType` and `createCoverage` says "if arguments are null or empty"
  (GeoServerRESTResourceManager.java:55, :95, :109), but an empty workspace or
  store name is spliced into the address as an empty segment (`Urls.ResourceUrl`).
- The shapefile publisher checks its own arguments for null only. An empty
  workspace, an empty dataset name, or a null or empty layer encoder passes
  those checks. The store call and the feature-type POST go out, and only then
  does the layer manager throw (`LateLayerRejection`). An unnamed feature-type
  encoder is refused after the store call, before any POST
  (`UnnamedFeatureTypeRejectedAfterStore`).
- An upload method the switch does not list gets no MIME type, and the
  publication carries on (`MimeType`).
- The projection policy is converted with `Enum.valueOf` before the null checks.
  A null policy therefore ends in a null-pointer failure, not an
  illegal-argument one. The later null test of the policy can never fire.
  A null feature-type encoder likewise fails at its first use. A null upload
  method fails when the switch reads it. All three happen before any remote call.
- The store descriptor is built from the MIME type and the shapefile location
  only. The store name never reaches the store manager
  (`StoreCallIgnoresStoreName`).

## Model

| member | source | states |
|---|---|---|
| ResourceManager.CreateResource | src/main/java/it/geosolutions/geoserver/rest/manager/GeoServerRESTResourceManager.java:57-86 | A null workspace, store type, store name or encoder, or an unnamed encoder, is refused as an illegal argument with no remote call; otherwise exactly one POST of the encoder goes to the resource address, empty names spliced in verbatim, and the result is true iff the response is non-null |
| ResourceManager.CreateFeatureType | src/main/java/it/geosolutions/geoserver/rest/manager/GeoServerRESTResourceManager.java:97-100 | The resource-creation contract with the datastore type |
| ResourceManager.CreateCoverage | src/main/java/it/geosolutions/geoserver/rest/manager/GeoServerRESTResourceManager.java:111-114 | The resource-creation contract with the coverage-store type |
| ResourceManager.CoverageDiffersOnlyInStoreType | src/main/java/it/geosolutions/geoserver/rest/manager/GeoServerRESTResourceManager.java:97-114 | Creating a coverage and creating a feature type refuse the same inputs with the same failure, and otherwise send the same single POST of the same encoder to addresses that differ only in the store type; where both store types print alike the two runs are identical |
| ResourceManager.ConfigureLayer | src/main/java/it/geosolutions/geoserver/rest/manager/GeoServerRESTResourceManager.java:127-154 | Null arguments, an empty workspace or resource name, or an empty layer encoder are refused with no remote call, each with its reason; otherwise exactly one PUT of the encoder goes to base/rest/layers/ws:name, and the result is true iff the response is non-null |
| LayerManager.ConfigureLayer | src/main/java/it/geosolutions/geoserver/rest/manager/GeoServerRESTLayerManager.java:43-70 | The same layer-configuration contract: null and empty guards before any call, one PUT to the layer address, true iff the response is non-null |
| LayerManager.CopiesAgree | src/main/java/it/geosolutions/geoserver/rest/manager/GeoServerRESTLayerManager.java:43-70 | For all inputs and gateway answers, the layer manager's copy and the resource manager's copy give the same outcome and the same calls |
| Urls.ResourceUrl | src/main/java/it/geosolutions/geoserver/rest/manager/GeoServerRESTResourceManager.java:62-64 | Builds base/rest/workspaces/ws/segment/store/typeName with the names spliced in verbatim: for every input, what follows the workspaces prefix is exactly workspace, store-type segment, store name and type name joined by '/'; when no name contains '/' the address reads back as exactly those four names, empty names included |
| Urls.LayerUrl | src/main/java/it/geosolutions/geoserver/rest/manager/GeoServerRESTLayerManager.java:54-56 | Builds base/rest/layers/ws:resource; what follows the layers prefix is the qualified name ws:resource, and when neither name contains ':' the address reads back as exactly that workspace and resource name |
| Urls.LayerUrlInjective | src/main/java/it/geosolutions/geoserver/rest/manager/GeoServerRESTLayerManager.java:54-56 | Distinct ':'-free workspace and resource pairs never share a layer address |
| Urls.LayerUrlAmbiguousWithColon | src/main/java/it/geosolutions/geoserver/rest/manager/GeoServerRESTLayerManager.java:54-56 | A ':' in the workspace makes the qualified name ambiguous: two different pairs share one address |
| ShapeFileManager.MimeType | src/main/java/it/geosolutions/geoserver/rest/manager/GeoServerRESTShapeFileManager.java:114-128 | EXTERNAL or external gives text/plain; URL, FILE, file or url gives application/zip; any other method gives no MIME type, without error |
| ShapeFileManager.MimeTypeIgnoresCase | src/main/java/it/geosolutions/geoserver/rest/manager/GeoServerRESTShapeFileManager.java:114-128 | Lower- and upper-case spellings of an upload method get the same MIME type |
| ShapeFileManager.PublishShp | src/main/java/it/geosolutions/geoserver/rest/manager/GeoServerRESTShapeFileManager.java:70-150 | No remote call is issued iff a pre-flight check fails, and then the publication fails; otherwise the first call is the store creation with the derived MIME type; calls always come in the order store, feature type, layer |
| ShapeFileManager.NullEncoderOrPolicyFailsEarly | src/main/java/it/geosolutions/geoserver/rest/manager/GeoServerRESTShapeFileManager.java:76-84 | A null feature-type encoder or projection policy fails before any remote call |
| ShapeFileManager.NullArgumentsRejected | src/main/java/it/geosolutions/geoserver/rest/manager/GeoServerRESTShapeFileManager.java:81-85 | A null workspace, store name, shapefile or dataset name is refused as an illegal argument with no remote call |
| ShapeFileManager.PolicyGate | src/main/java/it/geosolutions/geoserver/rest/manager/GeoServerRESTShapeFileManager.java:90-111 | Reprojection without both SRS and native CRS, NONE without a native CRS and FORCE_DECLARED without an SRS are refused, each with its own reason and no remote call; an admitted policy goes on to the store call |
| ShapeFileManager.Admits | src/main/java/it/geosolutions/geoserver/rest/manager/GeoServerRESTShapeFileManager.java:90-111 | The admission table: a policy is admitted iff an SRS is present unless the policy is NONE, and a native CRS is present unless the policy is FORCE_DECLARED |
| ShapeFileManager.WithDeclaredSrs | src/main/java/it/geosolutions/geoserver/rest/manager/GeoServerRESTShapeFileManager.java:139-141 | The feature type as sent: a present SRS is kept and the encoder is unchanged; an absent SRS becomes the native CRS; nothing but the SRS ever changes |
| ShapeFileManager.AdmittedSrsIsPresent | src/main/java/it/geosolutions/geoserver/rest/manager/GeoServerRESTShapeFileManager.java:90-141 | Under any admitted policy the SRS after backfill is present |
| ShapeFileManager.PostedFeatureTypeHasSrs | src/main/java/it/geosolutions/geoserver/rest/manager/GeoServerRESTShapeFileManager.java:139-143 | The feature type POSTed is the caller's encoder with an absent SRS replaced by the native CRS and otherwise unchanged, and its SRS is present |
| ShapeFileManager.StoreAnswerIgnored | src/main/java/it/geosolutions/geoserver/rest/manager/GeoServerRESTShapeFileManager.java:131-136 | The store manager's answer changes neither the outcome nor the calls: a failed store creation is tolerated |
| ShapeFileManager.FeatureTypeCreationAlwaysReached | src/main/java/it/geosolutions/geoserver/rest/manager/GeoServerRESTShapeFileManager.java:131-143 | A publication that passes its checks and names its feature type always POSTs the feature type, second, whatever the gateway answers, so republishing reaches resource creation again |
| ShapeFileManager.StoreCallIgnoresStoreName | src/main/java/it/geosolutions/geoserver/rest/manager/GeoServerRESTShapeFileManager.java:131-133 | The store call does not depend on the store name |
| ShapeFileManager.UnnamedFeatureTypeRejectedAfterStore | src/main/java/it/geosolutions/geoserver/rest/manager/GeoServerRESTShapeFileManager.java:131-143 | An unnamed feature-type encoder is refused after the store call and before any POST |
| ShapeFileManager.FailedFeatureTypeStopsPipeline | src/main/java/it/geosolutions/geoserver/rest/manager/GeoServerRESTShapeFileManager.java:143-147 | A null response to the feature-type POST ends the publication with false after exactly the store call and the POST: no layer call |
| ShapeFileManager.LayerOutcomeIsResult | src/main/java/it/geosolutions/geoserver/rest/manager/GeoServerRESTShapeFileManager.java:143-149 | After a successful feature-type POST, the outcome is the layer manager's, with the dataset name as the resource name, and its calls follow the store call and the POST |
| ShapeFileManager.LateLayerRejection | src/main/java/it/geosolutions/geoserver/rest/manager/GeoServerRESTShapeFileManager.java:143-149 | An empty workspace, an empty dataset name, or a null or empty layer encoder passes the publisher's null-only checks; after the store call and the feature-type POST succeed, the publication fails with the null-argument reason for a null layer encoder and the empty-argument reason otherwise |
| Scenarios.FeatureTypeAddress | src/main/java/it/geosolutions/geoserver/rest/manager/GeoServerRESTResourceManager.java:97-100 | A feature type in store "store" of workspace "ws" is POSTed to exactly base/rest/workspaces/ws/datastores/store/featuretypes.xml |
| Scenarios.ForcedSrsPublishes | src/main/java/it/geosolutions/geoserver/rest/manager/GeoServerRESTShapeFileManager.java:70-150 | fao/gis/rivers with a forced EPSG:4326 and every call answered: store, feature type and layer calls with their exact addresses, and the result is true |
| Scenarios.ReprojectWithoutNativeCrsIsRefused | src/main/java/it/geosolutions/geoserver/rest/manager/GeoServerRESTShapeFileManager.java:94-98 | Reprojection without a native CRS is an illegal argument with no remote call |
| Scenarios.ExistingStoreIsTolerated | src/main/java/it/geosolutions/geoserver/rest/manager/GeoServerRESTShapeFileManager.java:133-136 | A failed store creation with every other call answered still publishes successfully |
| Scenarios.NativeCrsBecomesSrs | src/main/java/it/geosolutions/geoserver/rest/manager/GeoServerRESTShapeFileManager.java:139-143 | Under NONE with only a native CRS, the feature type is POSTed with the native CRS as its SRS |

## Left out

- HTTP transport and credentials: the POST and PUT helpers, the user name and the password. POST and PUT are gateway answers recorded in the call trace.
- The store manager's `create`: it is not part of this model. Its answer is a gateway boolean.
- Encoder internals: XML serialisation, `getName`, `isEmpty`, `getSRS`, `getNativeCRS`, and the shapefile datastore encoder. They are opaque fields.
- The store-type URL segment and `getTypeNameWithFormat`: the store-type enumeration is not part of this model. Both are functions supplied with the `Server`.
- The upload-method enumeration: it is not part of this model. Constants the switch does not list are represented by `Unlisted`.
- Parsing the projection policy from its text with `Enum.valueOf`: the encoder's accessor is not part of this model. The policy is a nullable enumeration value, so an unknown policy name is not represented.
- Converting the shapefile URI to a URL, and its `MalformedURLException`: a platform call. The location is an already valid value.
- The store parameters argument of the publisher: it is never read.
- The publisher's `setSRS` mutates the caller's encoder, and that change is still visible after return. The model records the backfilled encoder in the POST but does not return it.
- Logging, constructors and the shared manager base class: no effect on outcomes or calls.
- ShapeFileManager.NullEncoderOrPolicyFailsEarly: states only that these inputs fail before any remote call, not which exception Java raises.

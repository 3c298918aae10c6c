/** The descriptors the managers send to the server and the enumerations they
    branch on. The XML encoders themselves are opaque: a request body is the
    encoder value, and only the accessors the managers call are fields. */
module Encoders {
  import opened Values

  /** How a resource's declared CRS relates to the native CRS of its data. */
  datatype ProjectionPolicy = FORCE_DECLARED | REPROJECT_TO_DECLARED | NONE

  /** The two kinds of store a resource can live in. */
  datatype StoreType = DATASTORES | COVERAGESTORES

  /** How a shapefile reaches the server. The six constants are the ones the
      publisher's switch lists; `Unlisted` stands for any other constant. */
  datatype UploadMethod = FILE | file | URL | url | EXTERNAL | external | Unlisted(constant: string)

  /** The shapefile location, already converted to a valid URL. */
  datatype Location = Location(uri: string)

  /** A feature-type or coverage descriptor: its name, declared SRS, native CRS
      and projection policy, plus the rest of its XML content, kept opaque. */
  datatype ResourceEncoder = ResourceEncoder(
    name: Option<string>,
    srs: Option<string>,
    nativeCRS: Option<string>,
    projectionPolicy: Option<ProjectionPolicy>,
    otherSettings: string)

  /** A layer descriptor: whether it has no settings at all, and its settings,
      kept opaque. */
  datatype LayerEncoder = LayerEncoder(isEmpty: bool, settings: string)

  /** The shapefile datastore descriptor, built from a MIME type (possibly null)
      and the shapefile location. */
  datatype ShapefileStoreEncoder = ShapefileStoreEncoder(mimeType: Option<string>, location: Location)
}

/** The GCP and association records of gcps-utils (a file that is not part
    of this model), reduced to the fields the tagging workflow reads. */
module Gcps {

  /** A ground control point with its known world coordinates. */
  datatype Gcp = Gcp(name: string, easting: real, northing: real, elevation: real)

  /** `ImageGcp`: GCP `gcpName` lies at pixel (`imX`, `imY`) of image
      `imgName`; `geoX`/`geoY`/`geoZ` repeat the GCP's coordinates. */
  datatype ImageGcp = ImageGcp(gcpName: string, geoX: real, geoY: real, geoZ: real,
                               imX: real, imY: real, imgName: string)

  /** The project's map projection; only its presence matters here. */
  datatype Projection = Projection(name: string)
}

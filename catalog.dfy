/**
 * The fixed catalog of the three service containers Tethys Platform depends on:
 * a PostGIS database, a GeoServer map server and a 52 North WPS processing service.
 * Each command-line input selects one image, one container name and one host port.
 */
module Catalog {
  import opened Util

  const PostgisImage: string := "ciwater/postgis:2.1.2"
  const GeoserverImage: string := "ciwater/geoserver:2.8.2-clustered"
  const N52WpsImage: string := "ciwater/n52wps:3.3.1"

  const RequiredDockerImages: seq<string> := [PostgisImage, GeoserverImage, N52WpsImage]

  const PostgisContainer: string := "tethys_postgis"
  const GeoserverContainer: string := "tethys_geoserver"
  const N52WpsContainer: string := "tethys_wps"

  const PostgisInput: string := "postgis"
  const GeoserverInput: string := "geoserver"
  const N52WpsInput: string := "wps"

  const AllDockerInputs: seq<string> := [PostgisInput, GeoserverInput, N52WpsInput]

  const DefaultPostgisPort: string := "5435"
  const DefaultGeoserverPort: string := "8181"
  const DefaultN52WpsPort: string := "8282"

  const RequiredDockerContainers: seq<string> := [PostgisContainer, GeoserverContainer, N52WpsContainer]

  /** One catalog row; `title` is the name the command output uses for the service. */
  datatype Service = Service(
    input: string,
    image: string,
    container: string,
    title: string,
    containerPort: int,
    hostPort: string)

  const Postgis: Service := Service(PostgisInput, PostgisImage, PostgisContainer, "PostGIS", 5432, DefaultPostgisPort)
  const Geoserver: Service := Service(GeoserverInput, GeoserverImage, GeoserverContainer, "GeoServer", 8080, DefaultGeoserverPort)
  const N52Wps: Service := Service(N52WpsInput, N52WpsImage, N52WpsContainer, "52 North WPS", 8080, DefaultN52WpsPort)

  /** The catalog row an input selects; any other input (including the empty one) selects nothing. */
  function ServiceFor(input: string): (r: Option<Service>)
    ensures r.Some? <==> input in AllDockerInputs
    ensures r.Some? ==> r.value.input == input && r.value in {Postgis, Geoserver, N52Wps}
  {
    if input == PostgisInput then Some(Postgis)
    else if input == GeoserverInput then Some(Geoserver)
    else if input == N52WpsInput then Some(N52Wps)
    else None
  }

  /** The image an input requests, as in the first loop of `get_images_to_install`. */
  function ImageFor(input: string): (r: Option<string>)
    ensures r.Some? <==> input in AllDockerInputs
    ensures r.Some? ==> r.value in RequiredDockerImages
  {
    match ServiceFor(input)
    case Some(s) => Some(s.image)
    case None => None
  }

  /** The container name an input requests, as in the first loop of `get_containers_to_create`. */
  function ContainerFor(input: string): (r: Option<string>)
    ensures r.Some? <==> input in AllDockerInputs
    ensures r.Some? ==> r.value in RequiredDockerContainers
  {
    match ServiceFor(input)
    case Some(s) => Some(s.container)
    case None => None
  }

  /** Distinct inputs select distinct images and distinct containers. */
  lemma CatalogInjective(a: string, b: string)
    ensures ImageFor(a).Some? && ImageFor(a) == ImageFor(b) ==> a == b
    ensures ContainerFor(a).Some? && ContainerFor(a) == ContainerFor(b) ==> a == b
  {
  }
}

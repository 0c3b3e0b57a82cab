/**
 * The records of the bundled feed (`News`, `NewsContent`), as decoded from
 * its JSON. The JSON keys `genz_version`, `key_points` and `detailed_points`
 * become the fields `genzVersion`, `keyPoints` and `detailedPoints`.
 */
module NewsModel {
  datatype NewsContent = NewsContent(
    paragraph: string,
    genzVersion: string,
    keyPoints: seq<string>,
    detailedPoints: seq<string>)

  datatype News = News(
    title: string,
    link: string,
    image: string,
    provider: string,
    news: NewsContent)
}

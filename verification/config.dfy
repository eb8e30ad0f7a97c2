/** Process-wide constants: the upstream API location and the RDF namespaces
    used to mint and describe observations (src/config.ts). */
module Config {
  const ApiBaseUrl := "https://api.energy-charts.info/"
  const ResourceBase := "https://energy-charts.info/"

  const BaseObservationUrl := "https://energy-charts.info/observation/"
  const SosaNamespace := "http://www.w3.org/ns/sosa/"
  const RdfNamespace := "http://www.w3.org/1999/02/22-rdf-syntax-ns#"
  const XsdNamespace := "http://www.w3.org/2001/XMLSchema#"
  const QudtNamespace := "http://qudt.org/1.1/schema/qudt#"
  const QudtUnitNamespace := "http://qudt.org/1.1/vocab/unit#"
  const DctNamespace := "http://purl.org/dc/terms/"
  const CcNamespace := "http://creativecommons.org/ns#"
}

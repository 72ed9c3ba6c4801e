/** The bundled country list used when the directory service cannot be
    reached (src/data/countryList.ts). */
module CountryList {
  import opened Types

  /** A fallback entry: a dial root and no suffixes. */
  function Entry(name: string, cca2: string, root: string, flag: string): Country {
    Country(name, cca2, Some(Idd(Some(root), None)), flag)
  }

  const COUNTRY_LIST: seq<Country> := [
    Entry("United States / Canada", "US", "+1", "/countryImages/canada.webp"),
    Entry("United Kingdom", "GB", "+44", "/countryImages/uk.png"),
    Entry("India", "IN", "+91", "/countryImages/india.webp"),
    Entry("Australia", "AU", "+61", "/countryImages/australia.jpg"),
    Entry("Germany", "DE", "+49", "/countryImages/Germany.png"),
    Entry("France", "FR", "+33", "/countryImages/France.svg"),
    Entry("Japan", "JP", "+81", "/countryImages/japan.webp"),
    Entry("Brazil", "BR", "+55", "/countryImages/Brazil.webp"),
    Entry("Mexico", "MX", "+52", "/countryImages/Mexico.webp"),
    Entry("China", "CN", "+86", "/countryImages/China.webp")
  ]
}

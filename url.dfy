/**
 * The part of Go's net/url the crawler relies on. A parsed URL is reduced to
 * its scheme, host and path; parsing (RFC 3986) and re-rendering
 * (`URL.String()`) are supplied from outside as a `Library`.
 */
module Url {
  import opened Wrappers

  datatype URL = URL(scheme: string, host: string, path: string) {

    /** url.URL.IsAbs: the URL has a scheme (an absolute URI in the sense of section 4.3 of RFC 3986). */
    predicate IsAbs() {
      scheme != ""
    }
  }

  /** `url.Parse` (None where Go returns an error) and `URL.String`. */
  datatype Library = Library(parse: string -> Option<URL>, render: URL -> string)
}

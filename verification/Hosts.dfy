/** The library calls on host names that stay uninterpreted. */
module Hosts {

  /** `isPublicIP` and `normalizeResolvedHost`, as arbitrary pure functions. */
  datatype Env = Env(isPublicIP: string -> bool, normalizeHost: string -> string) {
    /** An empty host normalises to the empty host. */
    ghost predicate Sane() {
      normalizeHost("") == ""
    }

    /** Shown or uploaded unless it is a public address without a usable name. */
    predicate Exportable(displayName: string, domain: string) {
      !(normalizeHost(displayName) == "" && isPublicIP(domain))
    }

    /** The stricter filter of the local summary. */
    predicate Includable(displayName: string, domain: string) {
      || (normalizeHost(displayName) != "" && !isPublicIP(displayName))
      || (!isPublicIP(domain) && normalizeHost(domain) != "")
    }
  }
}

/** The token signing algorithms, under the names that JSON Web Algorithms gives them. */
module SigningAlgorithms {

  datatype SigningAlgorithm = EdDsa | Rs256 {
    function AsStr(): string {
      if EdDsa? then "EdDSA" else "RS256"
    }
  }
}

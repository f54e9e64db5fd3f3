/** The failures the reference-construction pass can report. */
module Errors {

  /** Which algorithm the signature provider refused. */
  datatype AlgorithmKind = TransformAlgorithm | DigestAlgorithm

  datatype Error =
      /** UnsupportedAlgorithmException: a configuration error that carries
          the URI of the refused algorithm. */
    | UnsupportedAlgorithm(kind: AlgorithmKind, uri: string)
      /** IllegalStateException: SignedInfo could not produce its reference
          at index |m|, the map's size (item throws). The model proves this
          never happens. */
    | IllegalState
}

/**
 * Shared value types: optional values, the error conditions the fitting code
 * raises, and the log-probability of the samplers, which is either a real number
 * or minus infinity.
 */
module Common {

  datatype Option<T> = None | Some(value: T)

  /** The conditions under which the fitting code raises instead of returning. */
  datatype Error =
    | UnknownFitMode           // fit_mode outside the accepted list
    | ListLengthMismatch       // a per-source list does not have one entry per source
    | InitialLength            // an initial-guess list with the wrong number of entries
    | CohLossListLength        // a per-baseline coherence-loss mask without six entries
    | ResolutionNeedsWindow    // no default channel window for this spectral resolution
    | IncompleteWindow         // only one of flagtill / flagfrom given
    | UnknownDataYear          // a phase-map data year other than 2019 or 2020
    | MissingPhaseMap          // the phase-map file does not exist
    | ChannelCountMismatch     // phase map and data disagree on the number of channels
    | BadTelescope             // dontfit outside 1..4
    | BadBaseline              // dontfitbl outside 1..6
    | TelescopeAndBaseline     // dontfit and dontfitbl both given
    | InsertOutOfRange         // numpy.insert at a position beyond the vector

  datatype Result<T> = Ok(value: T) | Err(error: Error)

  /** A log-probability: minus infinity outside the prior box, a real number inside. */
  datatype LogProb = NegInf | Finite(v: real)
}

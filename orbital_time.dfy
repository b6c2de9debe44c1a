/** Wall-clock readings of Orbital Sovereigns. The clock itself is not part
    of the model: every reading is passed in by the caller. */
module OrbitalTime {
  /** An `OffsetDateTime` reading. */
  type Instant(==, !new)
}

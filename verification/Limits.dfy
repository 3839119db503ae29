/** Bounds shared by everything that reads from a peer (src/federation/limits.rs). */
module Limits {

  const MAX_ENVELOPE_BYTES: nat := 1024 * 1024
}

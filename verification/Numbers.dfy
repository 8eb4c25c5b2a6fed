/** Limits of the numbers that several parts exchange. */
module Numbers {
  /** The largest integer up to which a JavaScript number is exact. */
  const MAX_SAFE_INTEGER := 0x1F_FFFF_FFFF_FFFF
}

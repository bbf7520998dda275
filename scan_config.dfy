/**
 * The globals of VolumeRendering/main.cpp shared by the slice geometry and the
 * volume loader: the dimensions of the scan the program loads, and the range
 * of the C `int` used for its loop counters and buffer sizes.
 */
module ScanConfig {

  /** Largest value of the C `int` counters and buffer sizes. */
  const IntMax: int := 0x7FFF_FFFF

  /** The fixed dimensions of the scan (m_uImageWidth, m_uImageHeight, m_uImageCount). */
  const ImageWidth: nat := 256
  const ImageHeight: nat := 256
  const ImageCount: nat := 109
}

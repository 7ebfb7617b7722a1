/**
 * The font measurements both renderers read. mathtex/fontmetric.py, which
 * holds the measured font data, is not part of this model: the metrics are
 * a value passed in, with a width per glyph and the line height and baseline
 * of the font at size 1 (in em).
 */
module FontMetric {

  datatype FontMetrics = FontMetrics(glyphWidth: char -> real, height: real, baseline: real)

  /** No glyph has a negative width. */
  predicate ValidMetrics(fm: FontMetrics)
  {
    forall c :: fm.glyphWidth(c) >= 0.0
  }
}

/** The per-call configuration shared by every renderer. */
module RenderSettings {

  /**
   * Line spacing and the darkness threshold drive every renderer; the seed
   * and the iteration count belong to the random-walk renderer, which is not
   * part of this model; the maximum line length caps traced flow lines.
   */
  datatype LineRenderSettings = LineRenderSettings(
    lineSpacing: real,
    darknessThreshold: real,
    seed: int,
    maxLineLength: real,
    iterations: int)

  /** The defaults of a freshly constructed settings object. */
  const Defaults: LineRenderSettings := LineRenderSettings(4.0, 0.5, 42, 50.0, 1000)
}

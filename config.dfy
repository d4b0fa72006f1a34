/** The configuration object of src/config.js: canvas bounds, font and
    background defaults, output settings and the sample font list. */
module Config {

  // canvas
  const CanvasHeight: int := 100
  const MinWidth: int := 200
  const MaxWidth: int := 800
  const Padding: int := 20

  // font
  const FontSize: int := 64
  const FontColor: string := "#000000"
  const FontWeight: int := 400

  // background
  const BackgroundColor: string := "transparent"

  // output
  const OutputFormat: string := "png"
  const OutputQuality: int := 100
  const OutputDirectory: string := "images"

  /** The 25 most popular families, used by the `--sample` run. */
  const SampleFonts: seq<string> := [
    "Roboto", "Open Sans", "Lato", "Montserrat", "Poppins",
    "Oswald", "Raleway", "Ubuntu", "Playfair Display", "Merriweather",
    "Nunito", "PT Sans", "Rubik", "Work Sans", "Quicksand",
    "Inter", "Fira Sans", "Barlow", "Mulish", "Karla",
    "Libre Baskerville", "Josefin Sans", "Arimo", "Cabin", "Dancing Script"
  ]

  /** The width bounds are ordered, the height is positive and the padding on
      both sides fits below the minimum width. */
  lemma CanvasBoundsConsistent()
    ensures 0 < MinWidth <= MaxWidth
    ensures CanvasHeight > 0 && Padding >= 0
    ensures 2 * Padding < MinWidth
  {
  }

  /** The default text is drawn at a positive size and the default background
      is the transparent sentinel. */
  lemma FontDefaultsSensible()
    ensures FontSize > 0
    ensures BackgroundColor == "transparent"
  {
  }

  /** The sample list has 25 entries, all non-empty and pairwise distinct. */
  lemma SampleFontsWellFormed()
    ensures |SampleFonts| == 25
    ensures forall i :: 0 <= i < |SampleFonts| ==> |SampleFonts[i]| > 0
    ensures forall i, j :: 0 <= i < j < |SampleFonts| ==> SampleFonts[i] != SampleFonts[j]
  {
  }
}

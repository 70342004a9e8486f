/** The fixed values of utils/Constants.kt that the modelled code reads. */
module Constants {
  const DEFAULT_OCR_LANG: string := "en"
  const DEFAULT_TRANSLATION_LANG: string := "en"
  /** Seconds allowed for the screen extraction unless the settings say otherwise. */
  const TIMEOUT_EXTRACT_SCREEN: int := 5
  /** The smallest width and height, in pixels, of a selection box. */
  const MIN_SCREEN_CROP_SIZE: int := 32
  /** The phrase of the recognition engine's error for an image that is too small. */
  const ERROR_INPUT_IMAGE_IS_TOO_SMALL: string := "InputImage width and height should be at least"
}

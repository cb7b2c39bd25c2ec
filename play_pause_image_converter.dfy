/**
 * The converter that picks the image of the play/pause button from the
 * "MoviePlaying" flag: a pause glyph while the movie plays, a play glyph otherwise.
 */
module PlayPauseImageConverter {
  import opened Wrappers
  import opened Binding

  const PauseImage: string := "ms-appx:///Assets/pause.png"
  const PlayImage: string := "ms-appx:///Assets/play.png"

  /** true becomes the pause image path, false the play image path; any other value is returned as is. */
  function Convert(value: Value, targetType: TargetType, parameter: Value, language: string): (r: Value)
    ensures value == BooleanValue(true) ==> r == StringValue(PauseImage)
    ensures value == BooleanValue(false) ==> r == StringValue(PlayImage)
    ensures !value.BooleanValue? ==> r == value
  {
    match value
    case BooleanValue(playing) => StringValue(if playing then PauseImage else PlayImage)
    case _ => value
  }

  /** Converting back is not supported: it always throws. */
  function ConvertBack(value: Value, targetType: TargetType, parameter: Value, language: string): (r: Result<Value, ConverterError>)
    ensures r.Failure? && r.error == NotImplemented
  {
    Failure(NotImplemented)
  }

  /** Which playing state an image path shows, if it is one of the two button images. */
  function ShownState(image: string): (r: Option<bool>)
    ensures r.Some? <==> image == PauseImage || image == PlayImage
  {
    if image == PauseImage then Some(true)
    else if image == PlayImage then Some(false)
    else None
  }

  /** The button's image always tells the playing state back: the conversion loses nothing. */
  lemma ImageShowsPlayingState(playing: bool, t: TargetType, p: Value, l: string)
    ensures Convert(BooleanValue(playing), t, p, l).StringValue?
    ensures ShownState(Convert(BooleanValue(playing), t, p, l).s) == Some(playing)
  {
  }

  /** Distinct flags give distinct images. */
  lemma DistinctStatesDistinctImages(a: bool, b: bool, t: TargetType, p: Value, l: string)
    requires a != b
    ensures Convert(BooleanValue(a), t, p, l) != Convert(BooleanValue(b), t, p, l)
  {
    ImageShowsPlayingState(a, t, p, l);
    ImageShowsPlayingState(b, t, p, l);
  }
}

/**
 * The interface between the voice registry and the speech engine (piper).
 * The engine itself is not modelled: a voice is the value the engine builds
 * from a model path and a config path, and synthesis is an arbitrary function
 * supplied by the caller of the model.
 */
module Engine {

  /** A possibly absent value; `None` also stands for a null C pointer. */
  datatype Option<+T> = None | Some(value: T)

  /** A signed 16-bit audio sample (`int16_t`). */
  newtype Int16 = x: int | -0x8000 <= x < 0x8000

  /**
   * A loaded voice: the model and config it was loaded from and the selected
   * speaker (`None` is the model's default speaker).
   */
  datatype Voice = Voice(modelPath: string, configPath: string, speaker: Option<int>)

  /**
   * What `piper::textToAudio` does for a voice and a text: the samples it
   * produces, or `None` when it throws.
   */
  type TextToAudio = (Voice, string) -> Option<seq<Int16>>
}

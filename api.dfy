/**
 * The exported API: the globals `voices` and `nextId` as the fields of one
 * registry object, and each exported function as a method that runs as one
 * atomic step. The methods that touch the globals are proved against their
 * steps in `ApiSpec`; `FreeAudioData` touches only the ghost ownership set.
 */
module Api {
  import opened Engine
  import opened ApiSpec

  class VoiceRegistry {
    var voices: map<int, Voice>
    var nextId: int

    /**
     * The audio buffers whose ownership has passed to the caller and that have
     * not been freed yet. The source keeps no such list; it is the C++ heap's
     * view, kept here to state what `freeAudioData` may be given.
     */
    ghost var Owned: set<array<Int16>>

    /** The globals as a value. */
    function Snapshot(): State
      reads this
    {
      State(voices, nextId)
    }

    ghost predicate Valid()
      reads this
    {
      Inv(Snapshot())
    }

    /** The globals at process start: no voices, and ids start at 1. */
    constructor ()
      ensures Valid()
      ensures Snapshot() == Initial && Owned == {}
    {
      voices := map[];
      nextId := 1;
      Owned := {};
    }

    /**
     * `loadVoice`: consumes the next id whether or not loading succeeds and,
     * on success, stores the new voice under it and returns it; on failure
     * returns the sentinel and leaves the map as it was.
     */
    method LoadVoice(modelPath: Option<string>, configPath: Option<string>, engineOk: bool) returns (id: int)
      requires Valid()
      modifies this`voices, this`nextId
      ensures Valid()
      ensures Reply(Snapshot(), id) == LoadStep(old(Snapshot()), modelPath, configPath, engineOk)
      ensures nextId == old(nextId) + 1
      ensures id == Failure ==> voices == old(voices)
      ensures id != Failure ==> id == old(nextId) && 1 <= id && id !in old(voices)
      ensures id != Failure ==> voices == old(voices)[id := LoadVoiceInternal(modelPath, configPath, engineOk).value]
    {
      var newId := nextId;
      nextId := nextId + 1;
      var voice := LoadVoiceInternal(modelPath, configPath, engineOk);
      if voice.Some? {
        voices := voices[newId := voice.value];
        id := newId;
      } else {
        id := Failure;
      }
    }

    /**
     * `updateVoice`: refuses an id that is not loaded; otherwise replaces the
     * voice under `id` when loading succeeds and keeps the old one when it
     * fails. Never inserts a key and never touches the counter.
     */
    method UpdateVoice(id: int, modelPath: Option<string>, configPath: Option<string>, engineOk: bool) returns (r: int)
      requires Valid()
      modifies this`voices
      ensures Valid()
      ensures Reply(Snapshot(), r) == UpdateStep(old(Snapshot()), id, modelPath, configPath, engineOk)
      ensures voices.Keys == old(voices.Keys)
      ensures r == Failure ==> voices == old(voices)
      ensures r != Failure ==> r == id && voices == old(voices)[id := LoadVoiceInternal(modelPath, configPath, engineOk).value]
    {
      if id !in voices {
        return Failure;
      }
      var voice := LoadVoiceInternal(modelPath, configPath, engineOk);
      if voice.Some? {
        voices := voices[id := voice.value];
        r := id;
      } else {
        r := Failure;
      }
    }

    /**
     * `synthesize`: on a null text, an unknown id or an engine failure returns
     * the sentinel and leaves the caller's buffer pointer as it was (`slot` is
     * its value before the call, which may be garbage the caller must not
     * free); otherwise allocates a buffer of exactly the number of samples,
     * copies the samples into it, hands it to the caller and returns its
     * length. The map and the counter are never changed.
     */
    method Synthesize(id: int, text: Option<string>, tts: TextToAudio, slot: array?<Int16>)
      returns (length: int, buffer: array?<Int16>)
      requires Valid()
      modifies this`Owned
      ensures Valid()
      ensures length == ReturnedLength(SynthesizeResult(voices, id, text, tts))
      ensures length == Failure ==> buffer == slot && Owned == old(Owned)
      ensures length != Failure ==> buffer != null && fresh(buffer) && buffer.Length == length
      ensures length != Failure ==> buffer[..] == SynthesizeResult(voices, id, text, tts).value
      ensures length != Failure ==> Owned == old(Owned) + {buffer}
    {
      if text.None? {
        return Failure, slot;
      }
      if id !in voices {
        return Failure, slot;
      }
      var audio := tts(voices[id], text.value);
      if audio.None? {
        return Failure, slot;
      }
      var samples := audio.value;
      var size := |samples|;
      var data := new Int16[size];
      // the copy `memcpy` makes, one sample at a time
      var i := 0;
      while i < size
        invariant 0 <= i <= size
        invariant data[..i] == samples[..i]
        invariant Owned == old(Owned)
      {
        data[i] := samples[i];
        i := i + 1;
      }
      buffer := data;
      Owned := Owned + {data};
      length := size;
    }

    /**
     * `freeAudioData`: a null pointer is ignored; a buffer returned by
     * `synthesize` and not yet freed is released. Anything else is undefined
     * behaviour in the source, so callers must not do it.
     */
    method FreeAudioData(buffer: array?<Int16>)
      requires buffer == null || buffer in Owned
      modifies this`Owned
      ensures buffer == null ==> Owned == old(Owned)
      ensures buffer != null ==> Owned == old(Owned) - {buffer}
    {
      if buffer != null {
        Owned := Owned - {buffer};
      }
    }

    /** `release`: drops every voice; ids already handed out stay used. */
    method Release()
      requires Valid()
      modifies this`voices
      ensures Valid()
      ensures Snapshot() == ReleaseStep(old(Snapshot()))
      ensures voices == map[] && nextId == old(nextId)
    {
      voices := map[];
    }
  }

  /**
   * A caller's view: two loads get distinct ids, both voices can be
   * synthesised from, and after `release` neither can.
   */
  method TwoVoicesScenario(tts: TextToAudio)
    requires forall v, t :: tts(v, t).Some?
  {
    var registry := new VoiceRegistry();
    var a := registry.LoadVoice(Some("a.onnx"), Some("a.onnx.json"), true);
    var b := registry.LoadVoice(Some("b.onnx"), Some("b.onnx.json"), true);
    assert a == 1 && b == 2;
    var n, buffer := registry.Synthesize(a, Some("hello"), tts, null);
    assert n != Failure && buffer != null;
    registry.FreeAudioData(buffer);
    var freed := buffer;
    n, buffer := registry.Synthesize(b, Some(""), tts, null);
    assert n != Failure && buffer != null;
    registry.Release();
    n, buffer := registry.Synthesize(a, Some("hello"), tts, freed);
    // the pointer still holds the freed buffer, which must not be freed again
    assert n == Failure && buffer == freed && freed !in registry.Owned;
    var c := registry.UpdateVoice(b, Some("c.onnx"), Some("c.onnx.json"), true);
    assert c == Failure;
    c := registry.LoadVoice(Some("c.onnx"), Some("c.onnx.json"), true);
    assert c == 3;
  }
}

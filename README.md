# Voice registry of the piper shared-library API

This project models the registry behind the C API of `src/cpp/api.cpp`. The
registry is a process-wide map `voices` from integer ids to loaded voices, plus
the counter `nextId` that hands out those ids. The exported functions work on
it as follows:

- `loadVoice` always takes the next id. It stores the voice under that id only
  if loading succeeds.
- `updateVoice` replaces the voice of an id that is already loaded. It never
  inserts a new one.
- `synthesize` looks up a voice and copies the engine's samples into a fresh
  buffer of exactly that length. It returns the length.
- `freeAudioData` frees such a buffer.
- `release` clears the map.

Every failure is reported as `-1`.

Files:

- `engine.dfy` (module `Engine`) holds what the registry exchanges with the
  speech engine: `Option` for values that may be null, `Int16` samples, `Voice`,
  and `TextToAudio`. The engine's loader is a flag `engineOk`: true means
  `piper::loadVoice` returned, false means it threw. `piper::textToAudio` is a
  function passed in by the caller of the model, and it returns `None` when
  synthesis throws.
- `api_spec.dfy` (module `ApiSpec`) is the registry as a state machine over
  values. `State` holds the two globals. There is one step function per
  exported operation. `Run` executes a sequence of calls. The lemmas state what
  holds over any such sequence: ids increase strictly, a successful load's id
  is fresh, only loads add keys, and a voice dropped by `release` can never
  be synthesised from again, whatever calls follow.
- `api.dfy` (module `Api`) is the imperative model. The class `VoiceRegistry`
  has the fields `voices` and `nextId`, and one method per exported function.
  Each method's frame is exactly the globals the function writes. The methods
  for `loadVoice`, `updateVoice`, `synthesize` and `release` are proved against
  their steps in `ApiSpec` and keep the invariant `Inv`: every key lies in
  `[1, nextId)`. A ghost set `Owned` records the buffers that have been handed
  to the caller and not yet freed. This set states the contract of
  `freeAudioData`, which has no step of its own and touches only `Owned`.
  `synthesize` copies the samples with a loop, which stands for the `memcpy`.
  Its caller's buffer pointer is an input `slot`: on failure the source leaves
  `*buffer` unwritten, so the model hands back `slot` unchanged.

`loadVoice` and `updateVoice` run under `voiceMutex` for their whole body, and
`synthesize` holds it from the lookup to the copy. Its null-text check and
`freeAudioData` run outside the lock, but touch no shared state. `release`
takes no lock at all. Each method is modelled as one atomic step, so a sequence
of calls models concurrent callers only as long as no `release` overlaps
another call.

## Model

| member | source | states |
|---|---|---|
| `ApiSpec.LoadVoiceInternal` | src/cpp/api.cpp:74-90 | Loading succeeds exactly when both paths are non-null and the engine does not throw. A null path fails whatever the engine would do. A loaded voice is built from the two paths with the default speaker. |
| `ApiSpec.LoadStep` | src/cpp/api.cpp:92-102 | `nextId` grows by exactly one on every call, whether the load succeeds or fails. On success the result is the old `nextId`, which now maps to the new voice. On failure the result is `-1` and the map is unchanged. No other key is added or changed. `Inv` is preserved, and a returned id is at least 1 and was not a key before. |
| `ApiSpec.UpdateStep` | src/cpp/api.cpp:104-118 | The key set and `nextId` never change. An absent id, or a failed load, returns `-1` and leaves the state unchanged. A successful load on a present id replaces only that entry and returns the same id. `Inv` is preserved. |
| `ApiSpec.SynthesizeResult` | src/cpp/api.cpp:120-143 | Samples come back exactly when the text is non-null, the id is loaded and the engine succeeds. They are exactly what the engine produced for the voice stored under that id. |
| `ApiSpec.ReturnedLength` | src/cpp/api.cpp:145-153 | The returned value is `-1` exactly when there are no samples. Otherwise it is the sample count, so an empty result gives 0. |
| `ApiSpec.ReleaseStep` | src/cpp/api.cpp:65-72 | The map becomes empty and `nextId` is kept. After that, every synthesize request fails. |
| `ApiSpec.Step` | src/cpp/api.cpp:65-155 | One exported call. `nextId` grows by one for a load and is otherwise unchanged. A synthesize call leaves the state unchanged. `Inv` is preserved. |
| `ApiSpec.Run` | src/cpp/api.cpp:92-102 | Over any sequence of calls there is one result per call. The final `nextId` is the initial one plus the number of `loadVoice` calls. `Inv` holds at the end if it held at the start. |
| `ApiSpec.LoadedIdWithinRun` | src/cpp/api.cpp:95-99 | An id returned by a successful load lies between the counter before the calls and the counter after them. |
| `ApiSpec.LoadedIdsIncrease` | src/cpp/api.cpp:95-99 | In any sequence of calls, ids from successful loads strictly increase, so no id is handed out twice. |
| `ApiSpec.LoadedIdIsFresh` | src/cpp/api.cpp:28-30 | Start from a state satisfying `Inv`, such as the initial globals with `nextId = 1`. Then a successful load's id is positive and was never a key at the start. |
| `ApiSpec.DeadIdStaysDead` | src/cpp/api.cpp:92-135 | An id below the counter that is not loaded stays unloaded over any later calls, so every synthesize request for it fails. Loads hand out only ids at or above the counter, and updates never insert. |
| `ApiSpec.SynthesizeAfterReleaseFails` | src/cpp/api.cpp:65-72 | After `release`, a voice loaded before it can never be synthesised from again, whatever calls follow. Its id is not reused, because `nextId` is not reset. |
| `ApiSpec.KeysComeFromLoads` | src/cpp/api.cpp:104-118 | Only `loadVoice` adds keys. Every final key was a key at the start or was returned by a successful load during the calls. `updateVoice` never inserts. |
| `Api.VoiceRegistry.constructor` | src/cpp/api.cpp:28-30 | The globals at process start: an empty map and `nextId = 1`, which satisfy `Inv`. No buffers are owned by the caller. |
| `Api.VoiceRegistry.LoadVoice` | src/cpp/api.cpp:92-102 | The new state and the result are those of `LoadStep`. Only `voices` and `nextId` are written. `nextId` grows by one. A failure leaves the map as it was. A success returns the old `nextId`, which was not a key, and adds only that entry. |
| `Api.VoiceRegistry.UpdateVoice` | src/cpp/api.cpp:104-118 | The new state and the result are those of `UpdateStep`. Only `voices` is written, and its key set is unchanged. A failure leaves the map as it was. A success returns `id` and replaces only its entry. |
| `Api.VoiceRegistry.Synthesize` | src/cpp/api.cpp:120-155 | The map and `nextId` are never written. On `-1` the caller's buffer pointer is handed back as it was, and no ownership changes. Otherwise the buffer is freshly allocated, its length is the returned length, it holds the engine's samples element by element, and it passes to the caller's ownership. |
| `Api.VoiceRegistry.FreeAudioData` | src/cpp/api.cpp:157-159 | Freeing null does nothing. Freeing a buffer the caller owns ends that ownership. Any other pointer is excluded by the precondition, because it is undefined behaviour for `delete[]`. |
| `Api.VoiceRegistry.Release` | src/cpp/api.cpp:65-72 | The state is that of `ReleaseStep`: the map is empty and `nextId` is unchanged. |

## Left out

- `getEspeakPath` and `initialize`: they find the executable's directory through the filesystem and the platform's APIs, and set up the engine. Both are I/O and foreign set-up.
- `piper::initialize` and `piper::terminate`: `release` calls the latter, but engine set-up and tear-down are foreign. Only the clearing of the map is modelled.
- The engine calls themselves (`piper::loadVoice` and `piper::textToAudio`). Loading is a success flag. Synthesis is a caller-supplied function. An exception derived from `std::exception`, which the source catches, is `false` or `None`.
- Exceptions that escape: one not derived from `std::exception` thrown by the engine, and one thrown by the map insertion `voices[id] = std::move(voice)`, which lies outside any `try`. Both leave the `extern "C"` function, and the model does not represent them.
- `voiceMutex`, `lock_guard` and concurrency: each locked operation is one atomic step.
- `Api.VoiceRegistry.Release`: is modelled as one atomic step, although the source's `release` takes no lock. A `release` that overlaps `loadVoice`, `updateVoice` or `synthesize` is a data race on `voices`. It can destroy a voice while `synthesize` is still using it. The sequential model does not capture that race. It holds only when `release` does not overlap another call. This is a defect of the source: `release` should take `voiceMutex` around `voices.clear()`.
- `spdlog` logging: it has no effect on the registry.
- `Api.VoiceRegistry.LoadVoice`: does not model the 32-bit width of `nextId`, which is unbounded here. In the source the increment overflows after 2^31 - 1 calls, which is undefined behaviour. From there on, ids unique for the process lifetime are no longer guaranteed.
- `Api.VoiceRegistry.Synthesize`: does not model the `(long)size` conversion of the sample count, which here is never truncated. A failed allocation of the buffer is caught by the same handler as an engine failure. It is covered only by letting the engine function return `None`.
- `Api.VoiceRegistry.FreeAudioData`: Dafny has no deallocation. Freeing is modelled as the end of the caller's ownership in the ghost set `Owned`. Use after free is not expressible.
- Destruction of a voice replaced by `updateVoice` or dropped by `release`: voices are values, so releasing their engine resources is not modelled.
- The text is a NUL-terminated C string. It is modelled as a string, or `None` for a null pointer.
- `api.cpp` has no remove operation, and ids are integers.

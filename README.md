# BiTrans playback and theme state, modelled in Dafny

BiTrans is a two-person interpreter app. It records one speaker, translates what
they said and plays the translation into the other listener's ear. This project
models the two pieces of state-machine logic whose source is at hand:

- **`AudioEngine`** (modules/AudioPanning/AudioEngine.swift) is the native stereo
  player. It plays a file panned hard left or hard right. It switches the shared
  audio session to the playback category while it plays. It settles the
  JavaScript promise of the latest `playFile` call when playback ends, and it
  hands the session back to the record-capable category when it does.
  - Module `AudioPanning` writes each operation twice. `PlayFileStep`, `StopStep`,
    `DidFinishStep` and `DecodeErrorStep` are functions on an `EngineState` value.
    The class `AudioEngine`, with the shared `AudioSession` object, changes its
    fields step by step as the Swift code does. Each method is proved to end in
    the state the matching function gives.
  - Module `PlaybackTraces` runs sequences of calls and callbacks through those
    functions. It proves what happens to the promises and the session over time.
- **The theme provider and toggle** (constants/Theme.tsx and
  components/ThemeToggle.tsx).
  - The mode is light, dark or system. It resolves to a concrete colour scheme,
    with light as the fallback when the device reports none.
  - The mode is loaded once from a preference store before anything renders,
    and it is persisted whenever it is set.
  - A toggle cycles system, light, dark with period three. It shows an icon and
    a label for each mode.
  - Module `Theme` holds the provider as a class with its three state cells.
    Module `ThemeToggle` holds the toggle.

Every AVFoundation call that can fail is a parameter:
- `SetupOutcome` names the first step of `playFile` that fails: `URL(string:)`,
  `setCategory`, `setActive`, the player's initialiser or `prepareToPlay()`.
- `ResetOutcome` says how `resetAudioSession` goes.

The promise blocks are replaced by a log of the resolve and reject calls the
engine makes.

What the model shows about the engine as written, proved in `PlaybackTraces`:

- Until the next `playFile`, every callback and `stop()` settles only the most
  recent call. A call whose playback is cut short by a new `playFile` is never
  settled.
- When `setActive(true)`, the player's initialiser or `prepareToPlay()` fails,
  the call is rejected but the session stays in the playback category. No call
  or callback of the engine, short of another `playFile`, changes it afterwards.
  The comment at modules/AudioPanning/AudioEngine.swift:89 says the reset
  returns the session to a state that allows recording; on these paths the
  reset never runs.
- Suppose an unparseable path arrives while an earlier playback is still
  running. The new call is rejected at once, but it keeps the stored blocks, so
  the end of the old playback settles the new call a second time. The old call
  is never settled. A promise is meant to be settled once; the code does not
  guard against a second call, and this model follows the code.

## Model

| member | source | states |
|---|---|---|
| AudioPanning.PanFor | modules/AudioPanning/AudioEngine.swift:41-45 | the pan is -1 exactly when the side is the string "left", and +1 for every other string |
| AudioPanning.CallResolver | modules/AudioPanning/AudioEngine.swift:65 | an optional-chained call of the stored resolver makes one resolution of its promise when a resolver is stored and nothing otherwise |
| AudioPanning.CallRejecter | modules/AudioPanning/AudioEngine.swift:77 | an optional-chained call of the stored rejecter makes one rejection of its promise with the given code and message when a rejecter is stored and nothing otherwise |
| AudioPanning.IsPlaying | modules/AudioPanning/AudioEngine.swift:61 | `player?.isPlaying == true` holds exactly when a player is present and playing; a missing player counts as not playing |
| AudioPanning.StopPlayer | modules/AudioPanning/AudioEngine.swift:31 | stopping keeps the player, with its URL and pan, and leaves it not playing |
| AudioPanning.ResetSession | modules/AudioPanning/AudioEngine.swift:87-97 | a successful reset gives the playAndRecord category, inactive; a failed `setCategory` changes nothing; a failed `setActive(false)` changes only the category |
| AudioPanning.PlayFileStep | modules/AudioPanning/AudioEngine.swift:20-57 | the new blocks are stored on every path; an unparseable path adds the one rejection ERROR_INVALID_URL "Invalid file URL" and leaves the player and the session unchanged; a throwing `setCategory`, `setActive` or initialiser adds the one rejection ERROR_PLAYBACK_FAILED "Failed to initialize player"; a failed `prepareToPlay()` adds the one rejection ERROR_PLAYER_NOT_PREPARED "Player not prepared"; a successful setup adds nothing, and past the URL check a player is left playing exactly when the setup succeeded |
| AudioPanning.PlayFileSetupOrder | modules/AudioPanning/AudioEngine.swift:31-52 | the old player is stopped before the session is touched; the category is set to playback and the session activated before the new player is made; the new player carries the pan for its side before it is prepared and played |
| AudioPanning.StopStep | modules/AudioPanning/AudioEngine.swift:60-67 | with no player playing nothing changes; otherwise the player stops, the session is reset and the stored resolver is called |
| AudioPanning.DidFinishStep | modules/AudioPanning/AudioEngine.swift:71-79 | the session is reset; the call is resolved when `flag` holds and rejected with ERROR_PLAYBACK_INCOMPLETE otherwise; nothing else changes |
| AudioPanning.DecodeErrorCode | modules/AudioPanning/AudioEngine.swift:84 | the rejection code is the error's domain, or ERROR_DECODE when there is no error |
| AudioPanning.DecodeErrorMessage | modules/AudioPanning/AudioEngine.swift:84 | the rejection message is the error's description, or "Audio decode error" |
| AudioPanning.DecodeErrorStep | modules/AudioPanning/AudioEngine.swift:81-85 | the session is reset and the stored rejecter is called with the decode error's code and message |
| AudioPanning.Halt | modules/AudioPanning/AudioEngine.swift:71-85 | AVFoundation ending a playback before it calls the delegate: the player is kept with its URL and pan but is no longer playing, and the blocks, the session and the log are unchanged |
| AudioPanning.AudioSession.constructor | modules/AudioPanning/AudioEngine.swift:34-36 | the shared session object starts with the given category and activity |
| AudioPanning.AudioEngine.constructor | modules/AudioPanning/AudioEngine.swift:11-17 | a new engine has no player, no stored blocks and an empty log, and leaves the shared session as it was |
| AudioPanning.AudioEngine.Reject | modules/AudioPanning/AudioEngine.swift:26 | each call of a reject block (lines 26, 51, 55, 77 and 84) appends exactly one rejection of the given promise, with the given code and message, to the log |
| AudioPanning.AudioEngine.PlayFile | modules/AudioPanning/AudioEngine.swift:20-57 | the field-by-field update ends in the state `PlayFileStep` gives |
| AudioPanning.AudioEngine.Stop | modules/AudioPanning/AudioEngine.swift:60-67 | the update ends in the state `StopStep` gives |
| AudioPanning.AudioEngine.AudioPlayerDidFinishPlaying | modules/AudioPanning/AudioEngine.swift:71-79 | called only while a player is playing, once per end of playback: the playback halts as `Halt` gives, then the update ends in the state `DidFinishStep` gives; a stopped player, or one that never played, gets no callback |
| AudioPanning.AudioEngine.AudioPlayerDecodeErrorDidOccur | modules/AudioPanning/AudioEngine.swift:81-85 | called only while a player is playing, once per end of playback: the playback halts as `Halt` gives, then the update ends in the state `DecodeErrorStep` gives |
| AudioPanning.AudioEngine.ResetAudioSession | modules/AudioPanning/AudioEngine.swift:87-97 | the shared session ends as `ResetSession` says |
| AudioPanning.FinishThenStop | modules/AudioPanning/AudioEngine.swift:20-79 | on a fresh engine, a successful `playFile` whose playback finishes and a later `stop()` settle the call exactly once, as the flag says, and leave the session ready to record |
| PlaybackTraces.Enabled | modules/AudioPanning/AudioEngine.swift:71-85 | calls to `playFile` and `stop()` can always happen; a delegate callback can happen exactly when a player is playing |
| PlaybackTraces.Step | modules/AudioPanning/AudioEngine.swift:20-85 | every call or callback makes at most one call of a stored block and never erases one |
| PlaybackTraces.Run | modules/AudioPanning/AudioEngine.swift:20-85 | over any sequence of events the log of block calls only grows |
| PlaybackTraces.SettlesOnlyMostRecent | modules/AudioPanning/AudioEngine.swift:21-22 | until the next `playFile`, the stored blocks stay those of the most recent call, and every settlement made is for that call |
| PlaybackTraces.SupersededCallNeverSettled | modules/AudioPanning/AudioEngine.swift:21-31 | once a later `playFile` has run, an earlier call is never settled while no further `playFile` is made |
| PlaybackTraces.InertWithoutPlayback | modules/AudioPanning/AudioEngine.swift:60-67 | with no player playing and no `playFile`, no sequence of `stop()` calls changes anything |
| PlaybackTraces.SetupFailureStrandsPlaybackCategory | modules/AudioPanning/AudioEngine.swift:35-56 | after a failure of `setActive(true)`, of the initialiser or of `prepareToPlay()`, the session stays in the playback category (active, after the last two) with only the one rejection logged, whatever follows short of another `playFile` |
| PlaybackTraces.CompletedPlaybackSettlesOnceAndResets | modules/AudioPanning/AudioEngine.swift:71-79 | a playback that ends settles its call exactly once, resolved or rejected as the flag says, and, when the reset succeeds, leaves the session ready to record |
| PlaybackTraces.PlaybackEndSettlesOnce | modules/AudioPanning/AudioEngine.swift:60-85 | for any state in which the most recent call's playback is running, a finish, a decode error or a `stop()` adds exactly one settlement of that call (resolution or ERROR_PLAYBACK_INCOMPLETE by the flag, the decode error's code and message, or resolution), applies the reset outcome to the session and leaves the player not playing |
| PlaybackTraces.EndedPlaybackSettledExactlyOnce | modules/AudioPanning/AudioEngine.swift:60-85 | after such an end, whatever follows short of another `playFile` adds nothing: over the whole trace the call is settled exactly once |
| PlaybackTraces.StopResolvesOnce | modules/AudioPanning/AudioEngine.swift:60-67 | stopping a running playback resolves its call once and resets the session; a second `stop()` adds nothing |
| PlaybackTraces.InvalidUrlDuringPlaybackSettlesTwice | modules/AudioPanning/AudioEngine.swift:24-28 | an unparseable path during a running playback is rejected, and the end of that playback then resolves the same call again |
| Theme.ResolveTheme | constants/Theme.tsx:34-40 | a pinned mode shows its own scheme; `system` shows the device's scheme, or light when the device reports none; the result is light or dark by its type |
| Theme.OnlySystemFollowsDevice | constants/Theme.tsx:34-40 | the device's scheme can change the result only in `system` mode, and there distinct reported schemes give distinct results |
| Theme.IsSystemTheme | constants/Theme.tsx:51 | true exactly when the mode is `system` |
| Theme.UseTheme | constants/Theme.tsx:62-68 | fails with the provider error exactly when no context value is present, and otherwise returns that value |
| Theme.PreferenceStore.Save | utils/themeStorage.ts:6-12 | the store holds the saved mode |
| Theme.PreferenceStore.Load | utils/themeStorage.ts:14-22 | loading returns what the store holds, or nothing |
| Theme.ThemeProvider.constructor | constants/Theme.tsx:17-20 | the first state is mode `system`, scheme light, not loaded |
| Theme.ThemeProvider.LoadSavedTheme | constants/Theme.tsx:23-32 | a saved mode replaces the current one, no saved mode keeps it, and the provider is loaded either way |
| Theme.ThemeProvider.ApplyResolution | constants/Theme.tsx:34-40 | the shown scheme becomes the resolution of the current mode against the device's scheme |
| Theme.ThemeProvider.SystemColorSchemeChanged | constants/Theme.tsx:17-40 | a new device scheme is recorded and the shown scheme is resolved against it |
| Theme.ThemeProvider.SetThemeMode | constants/Theme.tsx:42-45 | the mode cell and the store both take the new mode |
| Theme.ThemeProvider.Rendered | constants/Theme.tsx:47-59 | nothing is rendered until loaded; afterwards the context carries the mode, the shown scheme and whether the mode is `system` |
| Theme.MountProvider | constants/Theme.tsx:18-59 | nothing is rendered before loading, so no child's `useTheme` runs; after loading `useTheme` returns the saved mode (or `system`) resolved against the device |
| Theme.SetThenRemount | constants/Theme.tsx:42-45 | a mode set through one provider is the mode the next provider over the same store loads |
| ThemeToggle.NextMode | components/ThemeToggle.tsx:29-37 | system goes to light, light to dark and dark to system; no mode goes to itself |
| ThemeToggle.CycleHasPeriodThree | components/ThemeToggle.tsx:29-37 | three presses bring every mode back, and one or two do not |
| ThemeToggle.PressesCountModuloThree | components/ThemeToggle.tsx:29-37 | the mode after n presses equals the mode after n mod 3 presses |
| ThemeToggle.EveryModeReachable | components/ThemeToggle.tsx:29-37 | from any mode, every mode is reached in fewer than three presses |
| ThemeToggle.ThemeIcon | components/ThemeToggle.tsx:15-20 | phone-portrait-outline for system, moon for dark, sunny otherwise |
| ThemeToggle.ThemeText | components/ThemeToggle.tsx:22-27 | System for system, Dark for dark, Light otherwise |
| ThemeToggle.IconAndTextDistinguishModes | components/ThemeToggle.tsx:15-27 | when `isSystemTheme` is taken from the mode, two modes get the same icon exactly when they are equal, and the same label exactly when they are equal |
| ThemeToggle.CycleTheme | components/ThemeToggle.tsx:29-37 | a press sets and persists the next mode |
| ThemeToggle.PressThreeTimes | components/ThemeToggle.tsx:29-37 | in a mounted provider three presses pass through the other two modes, end at the starting mode and leave it persisted |

## Left out

- The recording, transcription, translation and speech-synthesis pipeline in app/(tabs)/index.tsx, and the remote services it calls, are not part of this model.
- constants/Colors.ts is a static colour table with no behaviour.
- AVFoundation itself is not modelled: decoding, audio output, and when `URL(string:)`, `setCategory`, `setActive`, the player's initialiser or `prepareToPlay()` fail. The `SetupOutcome` and `ResetOutcome` parameters decide those outcomes.
- The Boolean that `play()` returns is ignored by the code; the model takes `play()` as starting playback.
- The `NSError` objects passed to the reject blocks are not modelled; only the code and message strings are.
- `print` in the catch of `resetAudioSession` is left out; the failure itself is modelled by `ResetOutcome`.
- The `player` argument of the two delegate callbacks is ignored, as the code ignores it. The model assumes that a callback comes from the current player, once for each end of its playback, and only while it is playing; `Halt` stands for AVFoundation ending that playback just before the callback.
- Other writers of the shared AVAudioSession are not modelled: the app's `Audio.setAudioModeAsync` (app/(tabs)/index.tsx:64-67, 96-98, 181-184) and speech recognition's `Voice.start` (app/(tabs)/index.tsx:83) can change the session between the engine's calls.
- Calls and callbacks are taken as atomic steps, one at a time; the queues on which the React Native bridge and AVFoundation run them are not modelled. The Swift class has no locking, and `stop()` tests `isPlaying` and then acts on it (modules/AudioPanning/AudioEngine.swift:61-65). The bridging module behind `NativeModules.AudioPanning` is not part of this model.
- A JavaScript promise ignores every settlement after its first. The model records every call of a block, so a second settlement stays visible.
- Theme.PreferenceStore.Save: does not model an AsyncStorage write error, which the code logs and swallows, leaving the stored value as it was.
- Theme.PreferenceStore.Load: does not model an AsyncStorage read error, which the code turns into `null`.
- Theme.ThemeProvider.SetThemeMode: assumes the write reaches the store, for the same reason as `Save`.
- The store holds only valid modes. The code casts whatever string is stored to a mode without checking it (utils/themeStorage.ts:17). A foreign string would become the mode and would then be shown as the scheme.
- React's scheduling of effects, re-renders and `await` is not modelled. Each effect is an explicit method step, taken in the order React runs them.
- The device's colour scheme is light, dark or none. A scheme value other than those is not modelled.
- JSX rendering, `children`, colours and styles (components/ThemeToggle.tsx:39-67) are not modelled. The `setThemeMode` function inside the context value is modelled as the provider's method, not as data.

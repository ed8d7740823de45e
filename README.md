# Dharma Guide: the ambient-sound controller and its tables, in Dafny

This project models the behavioural core of the Dharma Guide web app, a
devotional site with aartis, deity stories, meditation tracks and an
astrology guidance service:

- **`DivineAudio`**: the `useDivineAudio` session controller.
  - It holds a lazily created audio context, one master gain per session, the list of generator nodes the current recipe handed back, one repeating timer, and `isPlaying` / `currentMood`.
  - Nodes and timers are opaque handles.
  - A recipe is modelled by what it hands back: how many oscillators it returns for stopping, how many further sources it starts without returning them, and whether it registers a repeating timer.
  - The context class records its state (running, suspended or closed), which sources run, which master gain each feeds, and which gains reach the speakers. "Audible" can therefore be stated and proved: after `stop` nothing is heard; after `play` exactly the new session's sources are heard, unless the context was already closed.
- **Consumers of the controller**:
  - `ChapterAudioReader`, `MoodSoundPlayer` and `MeditationPlayer`: classes whose handlers update local state and drive their own controller. Each keeps the invariant that the controller's master gain equals the level the slider and mute button show.
  - `MantraAudioPlayer`: an audio-element player and its `m:ss` clock.
- **Constant tables and their lookups**:
  - `DeityChapters`: case-insensitive chapter lookup.
  - `NumberedChapters`, `DeviSaptashatiChapters` and `LakshmiPuranChapters`: conversion of numbered readings for the chapter reader.
  - `MeditationMoods`: mood lookup.
  - `YouTubeLinks`: link filters.
- **`DivineGuidance`**: the guidance edge function without its HTTP plumbing.
  - The rashi and category fallback lookups.
  - The language flag.
  - The month-range text, with the current year and month as parameters.
  - The mapping from a gateway status to the function's response.
- **Helper modules**:
  - `JsCore`: JavaScript's number-to-string, `padStart`, `toLowerCase` on the letters it maps to ASCII, and `Option`.
  - `JsArray`: `find` and `filter`, with their lemmas.

`setVolume` in `useDivineAudio.ts` writes the raw level to the master gain:
the controller scales no mood's loudness, changes no volume on a timer and
ducks nothing under narration, and the model does none of these either.

## Model

| member | source | states |
|---|---|---|
| DivineAudio.MoodKeyInjective | src/hooks/useDivineAudio.ts:3-13 | the ten mood keys are pairwise distinct strings |
| DivineAudio.InstrumentTakesPrecedence | src/hooks/useDivineAudio.ts:694-706 | with an instrument given, the recipe `SelectRecipe` picks for `play` is the instrument's, and changing the mood does not change it |
| DivineAudio.MoodDecidesWithoutInstrument | src/hooks/useDivineAudio.ts:707-720 | without an instrument `SelectRecipe` picks the mood's recipe; with neither, no recipe runs |
| DivineAudio.MoodRecipeShared | src/hooks/useDivineAudio.ts:708-719 | two moods share a recipe iff they are equal or are sad and emotional |
| DivineAudio.InstrumentRecipeShared | src/hooks/useDivineAudio.ts:696-705 | two instruments share a recipe iff they are equal or are nature and wind |
| DivineAudio.CrossSwitchSharing | src/hooks/useDivineAudio.ts:697-716 | an instrument and a mood reach the same recipe iff they are om/devotional or water/stressed |
| DivineAudio.RepeatingRecipes | src/hooks/useDivineAudio.ts:395-672 | exactly mantra-rhythm, bells, flute and chimes hold a timer, and each of them returns one node |
| DivineAudio.SilentToStop | src/hooks/useDivineAudio.ts:577-628 | nature (and so wind) is the only recipe that returns no node |
| DivineAudio.VolumeOrDefault | src/hooks/useDivineAudio.ts:688 | a missing volume becomes 0.5 and any given volume, 0 included, is kept |
| DivineAudio.AudioController.InitAudioContext | src/hooks/useDivineAudio.ts:40-45 | the context is created on first use (fresh, empty, suspended iff autoplay is blocked) and reused afterwards |
| DivineAudio.AudioController.BuildRecipe | src/hooks/useDivineAudio.ts:60-672 | a recipe starts exactly its tracked and untracked sources, all fed into the new master gain, returns the tracked ones, and registers a timer iff it repeats |
| DivineAudio.AudioController.Stop | src/hooks/useDivineAudio.ts:744-767 | clears the timer, stops and disconnects exactly the tracked nodes, disconnects the master gain so nothing is audible, and resets the state; with nothing playing the context is untouched |
| DivineAudio.AudioController.Play | src/hooks/useDivineAudio.ts:676-742 | reuses or creates the context, resumes it, and afterwards, unless the context was already closed, exactly the new session's sources are audible at `volume ?? 0.5`; on a closed context nothing is; `currentMood == options.mood` and at most one timer |
| DivineAudio.AudioController.StartSession | src/hooks/useDivineAudio.ts:682-724 | after `stop`: resume a suspended context, connect one new master gain, run the selected recipe and record the session |
| DivineAudio.AudioController.RunRecipe | src/hooks/useDivineAudio.ts:692-723 | the tracked list is exactly the recipe's returned nodes, each feeding the master gain, and the timer is held iff the recipe repeats |
| DivineAudio.AudioController.SetVolume | src/hooks/useDivineAudio.ts:769-773 | sets the raw level on the master gain when a session exists and changes nothing otherwise |
| DivineAudio.AudioController.Dispose | src/hooks/useDivineAudio.ts:775-782 | the unmount cleanup stops, then closes the context, leaving nothing audible |
| DivineAudio.CreateNoiseBuffer | src/hooks/useDivineAudio.ts:48-57 | `sampleRate * seconds` samples, each exactly `2r - 1` for its random draw r, hence in [-1, 1) as exact reals |
| ChapterAudioReader.InitialExpanded | src/components/ChapterAudioReader.tsx:25 | the first chapter's id is expanded, or nothing when the list is empty or that id is ""; whatever is expanded is the first chapter's id |
| ChapterAudioReader.MoodLabel | src/components/ChapterAudioReader.tsx:61-75 | every mood has a non-empty label, never the ambient fallback |
| ChapterAudioReader.MoodLabelMatchesRecipe | src/components/ChapterAudioReader.tsx:61-75 | two moods show the same label iff the controller plays the same recipe for them (sad and emotional) |
| ChapterAudioReader.ChapterReader.constructor | src/components/ChapterAudioReader.tsx:24-28 | initial state: first chapter expanded, none playing, volume 0.35, unmuted |
| ChapterAudioReader.ChapterReader.ToggleExpand | src/components/ChapterAudioReader.tsx:36-38 | collapses the expanded chapter and otherwise makes the chapter the only expanded one |
| ChapterAudioReader.ChapterReader.TogglePlay | src/components/ChapterAudioReader.tsx:40-48 | stops on the playing chapter; otherwise plays its mood's recipe (never its instrument) at the shown level and marks only it |
| ChapterAudioReader.ChapterReader.HandleVolumeChange | src/components/ChapterAudioReader.tsx:50-54 | stores the slider value and sends it, or 0 while muted |
| ChapterAudioReader.ChapterReader.ToggleMute | src/components/ChapterAudioReader.tsx:56-59 | flips mute and sends the stored volume when unmuting, 0 when muting |
| ChapterAudioReader.ChapterReader.Unmount | src/components/ChapterAudioReader.tsx:24-34 | the controller's cleanup (declared first, through the hook call) stops and closes the context, then the reader's own `stop()` runs; nothing is audible after |
| MoodSoundPlayer.MoodOptionsShape | src/components/MoodSoundPlayer.tsx:16-24 | the seven options are distinct and are exactly the moods other than powerful, emotional and divine |
| MoodSoundPlayer.MoodPlayer.HandleMoodSelect | src/components/MoodSoundPlayer.tsx:36-42 | pressing the playing mood stops; any other press plays that mood's recipe at the shown level |
| MoodSoundPlayer.MoodPlayer.HandleVolumeChange | src/components/MoodSoundPlayer.tsx:44-48 | stores the slider value and sends it, or 0 while muted |
| MoodSoundPlayer.MoodPlayer.ToggleMute | src/components/MoodSoundPlayer.tsx:50-53 | flips mute and sends the stored volume when unmuting, 0 when muting |
| MoodSoundPlayer.MoodPlayer.StopButton | src/components/MoodSoundPlayer.tsx:160 | the stop button leaves nothing playing or audible |
| MoodSoundPlayer.PressTwice | src/components/MoodSoundPlayer.tsx:36-42 | pressing a mood twice ends stopped, unless that mood was already playing, when it ends playing it |
| MeditationPlayer.TrackPlayer.RunPlaybackEffect | src/components/MeditationPlayer.tsx:23-33 | cleanup stop, then the track's instrument plays at `muted ? 0 : slider/100` iff the flag is set |
| MeditationPlayer.TrackPlayer.TogglePlay | src/components/MeditationPlayer.tsx:40 | flips the flag; the sound starts with the instrument's recipe, or stops with nothing audible |
| MeditationPlayer.TrackPlayer.ToggleMute | src/components/MeditationPlayer.tsx:36-41 | flips mute; the volume effect sends the new level |
| MeditationPlayer.TrackPlayer.ChangeVolume | src/components/MeditationPlayer.tsx:36-38 | stores the slider position; the volume effect sends position/100 unless muted |
| MeditationPlayer.TrackPlayer.ChangeTrack | src/components/MeditationPlayer.tsx:23-33 | a new track keeps the play flag, and a playing player then plays the new instrument |
| MeditationPlayer.TrackPlayer.HandleNext | src/components/MeditationPlayer.tsx:43-47 | stops, clears the flag and takes the parent's next track, leaving nothing audible |
| MeditationPlayer.TrackPlayer.HandlePrevious | src/components/MeditationPlayer.tsx:49-53 | the same with the previous track |
| MantraAudioPlayer.Rem60 | src/components/MantraAudioPlayer.tsx:151 | JavaScript `% 60`: below 60 in size, with the sign of the dividend |
| MantraAudioPlayer.FormatTime | src/components/MantraAudioPlayer.tsx:148-153 | NaN and 0 show "0:00" |
| MantraAudioPlayer.FormatTimeShape | src/components/MantraAudioPlayer.tsx:150-152 | a positive time shows whole minutes, a colon and the seconds below 60 padded to two digits |
| MantraAudioPlayer.ClockFields | src/components/MantraAudioPlayer.tsx:150-151 | minutes * 60 + seconds is the time's whole seconds, with 0 <= seconds < 60 |
| MantraAudioPlayer.ClockReadsBack | src/components/MantraAudioPlayer.tsx:152 | whole minutes and seconds below 60, written as the template writes them, form a clock that reads back as minutes * 60 + seconds |
| MantraAudioPlayer.FormatTimeRoundTrip | src/components/MantraAudioPlayer.tsx:148-153 | a shown positive time is a well-formed clock that reads back as its whole seconds |
| MantraAudioPlayer.MantraPlayer.InitAudio | src/components/MantraAudioPlayer.tsx:45-83 | the element is created once, at the shown level and loop setting, and reused |
| MantraAudioPlayer.MantraPlayer.HandlePlay | src/components/MantraAudioPlayer.tsx:85-99 | plays when the element accepts, otherwise flags an error; loading ends either way |
| MantraAudioPlayer.MantraPlayer.HandlePause | src/components/MantraAudioPlayer.tsx:101-106 | pauses in place when an element exists |
| MantraAudioPlayer.MantraPlayer.HandleStop | src/components/MantraAudioPlayer.tsx:108-116 | pauses, rewinds and resets progress and time, only when an element exists |
| MantraAudioPlayer.MantraPlayer.HandleSeek | src/components/MantraAudioPlayer.tsx:118-125 | with a known duration, jumps to position/100 of it, keeping time and progress consistent; otherwise nothing changes |
| MantraAudioPlayer.MantraPlayer.HandleVolumeChange | src/components/MantraAudioPlayer.tsx:127-134 | mutes exactly when the new volume is 0 and applies it to the element |
| MantraAudioPlayer.MantraPlayer.ToggleMute | src/components/MantraAudioPlayer.tsx:136-142 | flips mute; the element goes to 0 or back to the stored volume |
| MantraAudioPlayer.MantraPlayer.ToggleLoop | src/components/MantraAudioPlayer.tsx:39-43 | flips looping and the loop effect copies it onto the element |
| MantraAudioPlayer.MantraPlayer.Unmount | src/components/MantraAudioPlayer.tsx:30-37 | the element is paused and forgotten |
| DeityChapters.ChaptersFor | src/data/deityChapters.ts:486-487 | the first matching entry's chapters, or [] when no entry matches |
| DeityChapters.GetChaptersByDeityId | src/data/deityChapters.ts:485-488 | the lookup is by the lower-cased id: the first match's chapters, [] for an unknown id |
| DeityChapters.LookupIgnoresCase | src/data/deityChapters.ts:486 | ids equal up to the case of their letters find the same chapters |
| DeityChapters.KelvinSignLookup | src/data/deityChapters.ts:485-487 | an id written with U+212A KELVIN SIGN for "k" finds Krishna's or Lakshmi's chapters, as `toLowerCase` maps it to "k" |
| DeityChapters.KeysLowerAndDistinct | src/data/deityChapters.ts:10-451 | the eight table keys are lower-case and pairwise distinct |
| DeityChapters.EveryEntryReachable | src/data/deityChapters.ts:485-488 | any id lower-casing to an entry's key finds exactly that entry's chapters |
| DeityChapters.ChapterIdsDistinct | src/data/deityChapters.ts:8-483 | within each deity, chapter ids are distinct (numbered after one prefix) |
| NumberedChapters.ChapterSubtitle | src/data/deviSaptashatiChapters.ts:666 | the subtitle is longer than the Hindi title and the marker together |
| NumberedChapters.SubtitleReadsBack | src/data/deviSaptashatiChapters.ts:666 | the subtitle splits back into the Hindi title, " - अध्याय " and the number's digits |
| NumberedChapters.SubtitleNumber | src/data/deviSaptashatiChapters.ts:666 | the subtitle's trailing digits denote the chapter number |
| NumberedChapters.SubtitleDistinguishesNumbers | src/data/deviSaptashatiChapters.ts:666 | equal subtitles have equal chapter numbers, whatever the titles |
| NumberedChapters.ToChapter | src/data/deviSaptashatiChapters.ts:663-670 | id, mood, instrument and content copied, title from the English title, subtitle as above |
| NumberedChapters.ConvertAll | src/data/deviSaptashatiChapters.ts:662-671 | same length, and each record is the conversion of the record at the same place |
| NumberedChapters.ConvertAllAppend | src/data/deviSaptashatiChapters.ts:662-671 | conversion distributes over concatenation, so order is kept |
| NumberedChapters.ConvertedNumberReadsBack | src/data/lakshmiPuranChapters.ts:405-414 | each converted subtitle reads back as its record's chapter number |
| DeviSaptashatiChapters.ConvertDeviSaptashatiChapters | src/data/deviSaptashatiChapters.ts:662-671 | 19 readings, each with its record's id, title, mood, instrument and numbered subtitle |
| DeviSaptashatiChapters.GetDeviSaptashatiChapters | src/data/deviSaptashatiChapters.ts:673-675 | the converted table, record by record |
| DeviSaptashatiChapters.ChapterNumbersInOrder | src/data/deviSaptashatiChapters.ts:16-610 | chapter numbers start at 1, end at 13, never decrease and never skip |
| DeviSaptashatiChapters.IdsNumbered | src/data/deviSaptashatiChapters.ts:15-609 | reading ids are distinct |
| DeviSaptashatiChapters.IdAt | src/data/deviSaptashatiChapters.ts:15-609 | reading i has the id "ds" followed by i + 1 |
| LakshmiPuranChapters.ConvertLakshmiPuranChapters | src/data/lakshmiPuranChapters.ts:405-414 | 12 chapters, each with its record's fields and the subtitle numbered i + 1 |
| LakshmiPuranChapters.GetLakshmiPuranChapters | src/data/lakshmiPuranChapters.ts:416-418 | the converted table, record by record |
| LakshmiPuranChapters.ChapterNumbersConsecutive | src/data/lakshmiPuranChapters.ts:15-363 | entry i has chapter number i + 1 and id "lp" followed by i + 1 |
| LakshmiPuranChapters.SubtitlesDistinct | src/data/lakshmiPuranChapters.ts:405-414 | the converted subtitles are pairwise distinct |
| MeditationMoods.GetMoodById | src/data/meditationMoods.ts:122-124 | a found mood has the id and is the first with it; none iff no mood has the id |
| MeditationMoods.MoodTable | src/data/meditationMoods.ts:21-120 | seven moods, each id the key of its mood type, each with four tracks |
| MeditationMoods.MoodIdsDistinct | src/data/meditationMoods.ts:21-120 | mood types and ids are distinct, so every mood is found by its own id |
| MeditationMoods.CatalogueCoverage | src/data/meditationMoods.ts:122-124 | a mood type's key finds a mood iff it is not powerful, emotional or divine, and then the mood of that type |
| YouTubeLinks.OfDeity | src/data/youtubeLinks.ts:118-120 | an order-keeping subsequence holding exactly the links of that deity id |
| YouTubeLinks.OfType | src/data/youtubeLinks.ts:123-125 | an order-keeping subsequence holding exactly the links of that type |
| YouTubeLinks.GetYouTubeLinksByDeity | src/data/youtubeLinks.ts:118-120 | an order-keeping subsequence of the table holding exactly the links of that deity id |
| YouTubeLinks.GetYouTubeLinksByType | src/data/youtubeLinks.ts:123-125 | an order-keeping subsequence of the table holding exactly the links of that type |
| YouTubeLinks.GetAartiYouTubeLinks | src/data/youtubeLinks.ts:128-130 | an order-keeping subsequence of the table holding exactly its aarti links |
| YouTubeLinkCounts.ExactMultiplicity | src/data/youtubeLinks.ts:118-125 | both filters keep each matching link exactly as often as the list holds it and drop every other link |
| YouTubeLinks.ByDeityFinds | src/data/youtubeLinks.ts:118-120 | each table deity id, spelled exactly, finds its one link; any other string finds nothing |
| YouTubeLinks.OnlyAartis | src/data/youtubeLinks.ts:123-125 | the type filter returns the whole table for aarti and nothing for other types |
| YouTubeLinks.AartiListIsTable | src/data/youtubeLinks.ts:128-130 | the aarti list equals the type filter for aarti, which is the whole table |
| JsArray.FilterMembership | src/data/youtubeLinks.ts:119 | an element is in the filtered list iff it is in the list and passes the test |
| JsArray.FilterCount | src/data/youtubeLinks.ts:119 | `filter` keeps every occurrence of a passing element and none of a failing one |
| JsArray.FilterIsSubsequence | src/data/youtubeLinks.ts:124 | filtering keeps a subsequence of the list |
| JsCore.ToLowerIdempotent | src/data/deityChapters.ts:486 | lower-casing yields a lower-case string and is idempotent |
| JsCore.DecimalRoundTrip | src/components/MantraAudioPlayer.tsx:152 | a number's decimal digits read back as the number |
| DivineGuidance.Lookup | supabase/functions/divine-guidance/index.ts:56-57 | a known key gives its entry and an unknown key gives `{hindi: key, english: key}` |
| DivineGuidance.RashiInfo | supabase/functions/divine-guidance/index.ts:56 | the English name is always the rashi string itself |
| DivineGuidance.CategoryInfo | supabase/functions/divine-guidance/index.ts:57 | an unknown category falls back to itself in both languages |
| DivineGuidance.FallbackDetectable | supabase/functions/divine-guidance/index.ts:8-57 | the Hindi name equals the key iff the key is not in the table (both tables) |
| DivineGuidance.IsHindi | supabase/functions/divine-guidance/index.ts:48-59 | Hindi when the language is missing or exactly "hindi" |
| DivineGuidance.DateYear | supabase/functions/divine-guidance/index.ts:279-280 | `new Date` reads years 0 to 99 as 1900 to 1999 |
| DivineGuidance.MonthStart | supabase/functions/divine-guidance/index.ts:279-280 | the shifted month is normalised into 0..11 with the year carrying over |
| DivineGuidance.MonthRangeSpan | supabase/functions/divine-guidance/index.ts:274-283 | `GetMonthRange` (`getMonthRange`, with the current year and month as parameters) writes the two shifted months; the range starts `startOffset` months from now and spans `endOffset - startOffset` months |
| DivineGuidance.PromptRanges | supabase/functions/divine-guidance/index.ts:95-99 | the prompt's ranges run from this month to 3 or 6 months later, the year rolling over past December |
| DivineGuidance.RangeTextInjective | supabase/functions/divine-guidance/index.ts:282 | the English range text determines both months and years |
| DivineGuidance.GatewayMessage | supabase/functions/divine-guidance/index.ts:230-257 | no gateway message equals the missing-key message |
| DivineGuidance.GatewayMessagesDistinct | supabase/functions/divine-guidance/index.ts:230-257 | equal gateway messages have the same language and the same failure kind |
| DivineGuidance.Respond | supabase/functions/divine-guidance/index.ts:38-271 | streams iff parsed, keyed and ok upstream; failures carry 402, 429 or 500, and 402/429 only echo the gateway |
| DivineGuidance.GatewayStatusMapping | supabase/functions/divine-guidance/index.ts:230-257 | 429 and 402 are kept, every other non-ok status becomes 500, with the Hindi message iff the language is Hindi |
| DivineGuidance.HindiOnlyByDefault | supabase/functions/divine-guidance/index.ts:48-59 | a gateway failure is explained in Hindi iff the language is absent or exactly "hindi" |
| DivineGuidance.CaughtErrorsAre500 | supabase/functions/divine-guidance/index.ts:263-271 | a body that fails to parse, or with a key an exception from `fetch`, answers 500 with that error's own message |
| DivineGuidance.KeyCheckedBeforeGateway | supabase/functions/divine-guidance/index.ts:51-54 | a missing or empty key is a 500 with the missing-key message whatever the gateway says |

## Left out

- Web Audio detail: oscillator frequencies, waveforms, gain and LFO values, ramps, filters and panning are floating-point signal processing. Only which sources start, which gain they feed and which gains reach the speakers is modelled.
- One-shot sounds: the bell strikes, flute notes, chime clusters and mantra pulses that the timers schedule stop themselves and are not modelled. Neither is the `setTimeout` spacing of chimes, nor the flute's second note, which `setTimeout(playNote, 500)` schedules and `stop` does not cancel: it plays into the master gain that `stop` has already disconnected, so it is not heard.
- Randomness: the bell, note and chime choices and their fire probabilities are not modelled. The noise buffer's random draws are a parameter of `CreateNoiseBuffer`.
- Timer periods and the passage of time are not modelled; a timer is a handle in the controller's table.
- React mechanics: dependency arrays, render batching and the closure-captured `isPlaying` check in the mantra-rhythm pulse depend on render timing. Each handler is modelled as its state update followed by the effects the next render runs.
- DivineAudio.AudioController.InitAudioContext: creating the context is modelled as always succeeding. In a browser with neither `AudioContext` nor `webkitAudioContext` the constructor throws, so `play` leaves before `stop()` with the old session, `isPlaying` and `currentMood` unchanged, nothing plays for the callers (`ChapterReader.TogglePlay`, `MoodPlayer.HandleMoodSelect`, `TrackPlayer.RunPlaybackEffect`), and `ChapterReader.TogglePlay` never reaches `setPlayingChapter`. DivineAudio.AudioController.Play and those callers do not model that path.
- DivineAudio.CreateNoiseBuffer: samples are exact reals. The source stores them in a `Float32Array`, where a draw above 1 - 2^-25 rounds to exactly 1.0, so the source's samples lie in [-1, 1]. A `seconds` of 0 makes `createBuffer` throw, while the model returns an empty array.
- DivineAudio.AudioController.Play: `ctx.resume()` is modelled as completing at once, because its promise is not awaited.
- MantraAudioPlayer.FormatTime: the contract covers NaN, 0 and positive times. For negative times the model follows the code, but nothing is proved about them.
- JavaScript's number formatting switches to exponent notation from 1e21 on. `NatToString` always writes plain digits.
- MantraAudioPlayer.MantraPlayer: the element's event listeners (`loadedmetadata`, `timeupdate`, `ended`, `error`, `canplaythrough`) and the `Infinity` duration are not modelled.
- The toast and the console log are not modelled.
- `getAudioUrl` is not part of this model.
- JsCore.ToLower maps A-Z and U+212A KELVIN SIGN (to "k"), the letters JavaScript's `toLowerCase` turns into ASCII letters, and keeps every other character. JavaScript also lower-cases other non-ASCII letters, each into text that still holds a non-ASCII character (U+0130 becomes "i" followed by U+0307); the model keeps those letters as they are. Either way the lower-cased id then holds a non-ASCII character and equals no table key, so DeityChapters.GetChaptersByDeityId finds nothing in both.
- DivineGuidance.Lookup: keys inherited from `Object.prototype` (such as "toString") are treated as unknown. In JavaScript they would find a function.
- DivineGuidance.IsHindi: `language` is modelled as a string or absent. A JSON `null` or a non-string value is not modelled.
- DivineGuidance.GetMonthRange: the offsets are integers and the current year and month are parameters, because the clock is I/O. The unused `hindiMonths` array has no counterpart.
- HTTP in the guidance function is not modelled: request serving, CORS, the `fetch` to the gateway, the streamed body, the environment lookup and the prompt text. A failed body parse and a failed `fetch` appear only as their error message.
- The `elevenlabs-tts` function is not modelled; it is a proxy to an external API.
- Chapter prose is left out: every `content` is "".
- Meditation mood descriptions, icons and colours are not modelled; the table keeps ids, names, mood types and tracks (each with its id, name and instrument).
- YouTube link metadata is kept but not reasoned about.
- `openYouTubeLink` calls `window.open` and is not modelled.
- `Guidance.tsx`, `DeityDetail.tsx`, `PredictionInfo.tsx`, `Index.tsx`, `Header.tsx`, `DeityCard.tsx`, `CategoryCard.tsx`, `DeitiesSection.tsx` and `CategoriesSection.tsx` are rendering around the core, or call data files that are not part of this model.

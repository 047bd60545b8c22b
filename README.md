# Happy Sing: scoring, phrase session and song unlocking in Dafny

This project models the decision logic of the Happy Sing singing-practice
application for children. The application itself is a PyQt program. The
model covers two parts of it.

**The learning screen** (`widgets/learning_widget.py`):

- The recorded attempt at one phrase is judged from three measurements: the
  RMS loudness, the share of voiced frames reported by the pitch tracker, and
  the number of onsets reported by the onset detector.
- The judgement yields a category (silent, excellent, good, ok, poor), a star
  reward of 0 to 3 from the `STAR_REWARDS` table, a feedback sentence and a
  cartoon character.
- The session keeps the current phrase index and one star slot per phrase.
  It stops a recording at the 15-second cap. It computes the playback window
  of the current phrase. When the last phrase is passed, it emits
  `song_completed`.

**The selection screen** (`widgets/song_selection_widget.py`):

- For each catalog song it derives whether the song is unlocked, the button
  text, whether the button is enabled, what a click does, and the tooltip
  with the star shortfall.
- It decides whether an unlock request is sent.

Modules:

- `Scoring` (scoring.dfy) and `Playback` (playback.dfy) are pure functions.
- `Session` (session.dfy) holds the class `LearningSession`. Its methods
  update the phrase index, the star slots, the recording state and the
  emitted signals in place.
- `SongSelection` (song_selection.dfy) holds the per-song derivation as
  functions and the class `SongSelectionWidget`. That class rebuilds its
  button list and its id-to-button map in a loop.
- `Wrappers` (wrappers.dfy) holds `Option`, `Max` and `Min`.

Behaviour of the code worth knowing:

- **Stars are never stored.** After a successful analysis, the code shows
  the reward but never writes it into `_phrase_stars`. The write is commented
  out. `stop_recording` resets the current slot to 0. Only the
  empty-recording path and the error path write the slot again, and both
  write 0. So every slot always holds 0, and the star total shown in the
  song-completed text is always 0. The `song_completed` signal itself carries
  only the song id. `LearningSession.Valid` states this as an invariant.
  A `Completion` in the model records that signal's song id together with the
  star sum shown beside it.
- **The rhythm floor is truncated, not rounded up.** It is
  `max(1, int(duration * 0.8))`.
- **An empty recording gets no category.** It does not go through the
  waterfall. It gets the "poor" reward (0), its own sentence, and the
  character "chase" only when that animation loaded. Unlike an analysed
  attempt, it falls back to no other character.
- **No star totals or unlocks are changed.** Neither file adds to the star
  total, changes the unlocked set, or saves progress. The selection screen
  only sends an unlock request signal.

## Model

| member | source | states |
|---|---|---|
| Scoring.StarReward | widgets/learning_widget.py:42-47 | every reward is in 0..3; it is 0 exactly for silent and poor, and 3 exactly for excellent |
| Scoring.HasPitch | widgets/learning_widget.py:895-918 | pitch holds iff the attempt is audible, the tracker ran and reported frames, and voiced/total*100 > 30; the body decides this exactly in integers |
| Scoring.MinOnsetsRequired | widgets/learning_widget.py:934-937 | the integer form max(1, chunks*32/625) is at least 1 and equals max(1, floor(chunks*1024/16000*0.8)) over the reals |
| Scoring.HasRhythm | widgets/learning_widget.py:921-945 | rhythm holds iff the attempt is audible, the detector ran, and the onsets reach the floor; so rhythm implies at least one onset |
| Scoring.Analyze | widgets/learning_widget.py:885-945 | audible iff rms > 0.005, loud iff rms > 0.03, very loud iff rms > 0.15; pitch and rhythm are HasPitch and HasRhythm of the estimator outcomes, so a failed estimator gives false; hence very loud implies loud implies audible, and pitch or rhythm imply audible |
| Scoring.Classify | widgets/learning_widget.py:953-970 | silent iff not audible; excellent iff audible, loud, pitch and rhythm; the poor fallback is never reached |
| Scoring.ClassifyByCriteria | widgets/learning_widget.py:957-970 | for consistent indicators: good iff exactly two of loud/pitch/rhythm hold; ok iff at most one holds; an audible reward is max(1, number of criteria met) |
| Scoring.SelectFeedback | widgets/learning_widget.py:973-1019 | the chosen character is always chase, marshall or skye; a good category always gets one of the four good sentences |
| Scoring.FeedbackForClassified | widgets/learning_widget.py:973-1019 | for a classified attempt, the good fallback and poor sentences never appear; excellent shows marshall; an ok attempt shows marshall iff it was very loud |
| Scoring.ResolveCharacter | widgets/learning_widget.py:1021-1028 | the chosen character if its animation loaded, else the first loaded one, else none; a shown character is always loaded |
| Scoring.Evaluate | widgets/learning_widget.py:948-1031 | the verdict of an analysed attempt: the category is Classify's and the reward its StarReward, in 0..3 and 0 iff not audible; the sentence is the one the feedback table picks; the character is the table's choice resolved against the loaded animations, so a shown character is loaded |
| Playback.Truncate | widgets/learning_widget.py:612 | Python int() of a float: truncation toward zero, with the bounds it satisfies on each side of 0 |
| Playback.PlaybackWindow | widgets/learning_widget.py:612-624 | start <= end always; with a known duration the start is min(start, duration) and the end is at most the duration; a window already in order and in range is kept; an end before the start gives a 2000 ms window when it fits and ends at the duration when it does not; an end past the known duration is cut to the duration |
| Playback.StopRuleThreshold | widgets/learning_widget.py:1236-1242 | once playback is due to stop, it stays due at later positions; it first stops 50 ms before the end; it never stops when not playing or without a window |
| Session.CapReachedExactly | widgets/learning_widget.py:830-834 | the 15-second test len(frames)*1024/16000 >= 15 holds exactly from 235 chunks on |
| Session.OnsetFloorNeverExact | widgets/learning_widget.py:936-937 | for 1..235 chunks, duration*0.8 is never an integer, so its truncation does not depend on rounding |
| Session.Assess | widgets/learning_widget.py:851-1044 | an empty recording gives the no-audio outcome with its own sentence and "chase" only if loaded; an analysis raising gives the error outcome; otherwise the verdict Evaluate gives for the indicators Analyze derives from the features, whose reward is in 0..3 and is 0 iff rms <= 0.005 |
| Session.Zeros | widgets/learning_widget.py:372 | a song is opened with one zero slot per phrase |
| Session.SumOfZeros | widgets/learning_widget.py:564 | the star sum of all-zero slots is 0, so every song-completed text shows 0 stars |
| Session.ResetSlot | widgets/learning_widget.py:812-814 | the guarded reset zeroes the current slot when it exists, changes no other slot, and changes nothing when index >= len |
| Session.ResetForgetsEarlierAttempt | widgets/learning_widget.py:812-814 | whatever an earlier attempt left in a slot does not survive the reset of a new attempt |
| Session.AdvanceRepeatedly | widgets/learning_widget.py:674-678 | from index i <= n, k advances reach min(i+k, n) and emit one completion iff they cross from below n to n |
| Session.SongCompletesOnce | widgets/learning_widget.py:556-568 | from index 0, n advances reach n and complete once; more advances change nothing and emit nothing |
| Session.LearningSession.constructor | widgets/learning_widget.py:103-111 | no song, index 0, no slots, not recording, no window, no signals |
| Session.LearningSession.Open | widgets/learning_widget.py:339-451 | index 0 with zero slots for every phrase and no window; a song without phrases completes at once when its audio was found |
| Session.LearningSession.UpdatePhraseDisplay | widgets/learning_widget.py:505-552 | past the last phrase, one completion is recorded (the song id of `song_completed` and the star sum shown, always 0); otherwise nothing is |
| Session.LearningSession.CheckSongCompletion | widgets/learning_widget.py:556-579 | exactly when index >= number of phrases, `song_completed` is emitted with the song id and the completion text shows the sum of the slots |
| Session.LearningSession.StartRecording | widgets/learning_widget.py:703-776 | when not recording, the chunks are cleared and recording starts iff the stream opened; when recording, nothing changes |
| Session.LearningSession.AnalyzeAndProvideFeedback | widgets/learning_widget.py:851-1044 | only the no-audio and error outcomes write the current slot, with 0, and emit `stars_earned(0)`; an analysed reward is not stored |
| Session.LearningSession.StopRecording | widgets/learning_widget.py:778-818 | recording ends, the current slot is reset to 0 and analysis runs; afterwards the current slot holds 0 whatever the verdict |
| Session.LearningSession.ToggleRecording | widgets/learning_widget.py:684-701 | without a microphone nothing happens; otherwise a recording stops (with its analysis) or one starts |
| Session.LearningSession.ReadAudioStream | widgets/learning_widget.py:820-841 | a read chunk is counted and the recording stops exactly at 235 chunks; an I/O error is ignored; any other error stops it; the cap invariant is kept |
| Session.LearningSession.PlayCurrentPhrase | widgets/learning_widget.py:595-648 | a recording in progress is stopped first; with usable media and a current phrase the window becomes PlaybackWindow of that phrase, otherwise it is unchanged |
| Session.LearningSession.OnPositionChanged | widgets/learning_widget.py:1236-1242 | stops iff playing, a window is set and position >= end - 50; a stop is still due one millisecond later |
| Session.LearningSession.GotoNextPhrase | widgets/learning_widget.py:651-680 | the index advances only while below the phrase count (so 0 <= index <= count); the window is cleared; one completion (song id, 0 stars shown) is recorded exactly on reaching the end |
| SongSelection.DefaultProgress | widgets/song_selection_widget.py:48-54 | without supplied progress: 0 stars and only "pawpatrol" unlocked |
| SongSelection.DefaultCatalog | widgets/song_selection_widget.py:36-44 | without a supplied catalog: four songs, each with a usable id |
| SongSelection.ButtonFor | widgets/song_selection_widget.py:119-174 | unlocked iff the id is in the progress list; enabled iff unlocked or stars >= required; unlocked songs select, enabled locked songs try to unlock, others do nothing; a shortfall tooltip is disabled and shows required - current > 0 |
| SongSelection.ButtonIgnoresCatalogFlag | widgets/song_selection_widget.py:126 | the catalog's own "unlocked" field does not change the button |
| SongSelection.ButtonLabels | widgets/song_selection_widget.py:125-136 | the title defaults to the id; a locked song shows "needs n stars" for a finite requirement and "locked" for sys.maxsize |
| SongSelection.MissingRequirementLocksSong | widgets/song_selection_widget.py:128-169 | a locked song without a requirement is labelled locked, disabled, wired to nothing, with the "cannot unlock for now" tooltip |
| SongSelection.ShortfallOfDisabledSong | widgets/song_selection_widget.py:163-167 | a locked song short of a finite requirement shows the shortfall required - current, which is positive |
| SongSelection.Buttons | widgets/song_selection_widget.py:118-173 | at most one button per entry, none with an empty id |
| SongSelection.ButtonsAppend | widgets/song_selection_widget.py:119-173 | buttons follow catalog order: the buttons of s + t are the buttons of s followed by those of t |
| SongSelection.ButtonsOfOneEntry | widgets/song_selection_widget.py:119-123 | an entry with a missing or empty id yields no button; any other entry yields exactly its own button |
| SongSelection.ButtonIndex | widgets/song_selection_widget.py:105-174 | every key of `song_buttons` is non-empty and maps to a button for that id |
| SongSelection.LastWithId | widgets/song_selection_widget.py:174 | the index of the last entry with the id, or none when no entry has it |
| SongSelection.ButtonIndexHoldsLast | widgets/song_selection_widget.py:172-174 | an id is a key of `song_buttons` iff some entry has it, and the key holds the button of the last such entry |
| SongSelection.FirstWithId | widgets/song_selection_widget.py:191 | the index of the first entry with the id, or none when no entry has it |
| SongSelection.UnlockDecisionFor | widgets/song_selection_widget.py:186-205 | the unlock is requested iff the first song with the id exists, is locked, and the stars reach its requirement; a locked short song reports required - current > 0; otherwise nothing happens |
| SongSelection.EnabledUnlockButtonRequestsUnlock | widgets/song_selection_widget.py:158-200 | a click on the enabled try-unlock button of the first entry with that id always passes the second check |
| SongSelection.UnlockScenarios | widgets/song_selection_widget.py:194-205 | a song needing 20 stars is requested with 20 stars and is 1 short with 19; an unlocked song is ignored |
| SongSelection.DefaultScreen | widgets/song_selection_widget.py:113-169 | with the defaults only "pawpatrol" is playable; "littlestar" is locked despite its catalog flag but can be unlocked now; the other two are short by 20 and 5 |
| SongSelection.SongSelectionWidget.constructor | widgets/song_selection_widget.py:21-88 | a missing catalog or progress is replaced by the defaults, and the buttons match them |
| SongSelection.SongSelectionWidget.PopulateSongButtons | widgets/song_selection_widget.py:96-174 | the button list and the id map are exactly Buttons and ButtonIndex of the catalog; the "no songs" notice shows iff the catalog is empty |
| SongSelection.SongSelectionWidget.UpdateUiBasedOnProgress | widgets/song_selection_widget.py:209-219 | the new progress is adopted and the buttons are rebuilt from it |
| SongSelection.SongSelectionWidget.TryUnlockSong | widgets/song_selection_widget.py:186-205 | the decision is UnlockDecisionFor the current catalog and progress; it has no modifies clause, so progress is unchanged |

## Left out

- RMS loudness, the `pyin` pitch tracker and `onset_detect` are floating-point numerics and library calls. Their results are inputs: a real loudness, voiced and total frame counts or a failure, and an onset count or a failure.
- Floating-point rounding is not modelled. Examples: `3/10*100` may evaluate slightly above 30; `duration / 1000.0 * 1000` may not return `duration` exactly; the product `duration * 0.8` is computed in floats. The model computes all of these exactly.
- PyAudio device discovery and stream handling, and the QTimer, are I/O. Whether the stream opened and what each timer tick read are parameters. The microphone check is a constructor argument.
- Media playback is I/O. Whether the media is usable, its duration and whether it is playing are parameters. The playback-state and error slots are not modelled, and neither is the reset of the window to -1 through the playback-state slot after a stop. `closeEvent` teardown is not modelled.
- Qt layout, styles, texts, pixmaps, character animations, indicator icons and the star-flight animation are UI. Feedback sentences are named constructors, not the Chinese texts. Button texts and tooltips are structured values.
- `set_song_data` with empty song data is not modelled. It stores the empty value as the current song, which unloads the song, and then only resets the UI. It leaves the index and the slots as they were. After it, `update_phrase_display`, `goto_next_phrase` and `play_current_phrase` raise on `None.get`. The model keeps no such unloaded-after-loaded state: `Open` always takes song data.
- Session.LearningSession.GotoNextPhrase requires loaded song data: without it the program raises on `None.get`.
- Session.LearningSession.PlayCurrentPhrase requires loaded song data when the media is usable, for the same reason.
- `set_total_stars_display` and `update_star_display` are display only.
- `_on_song_button_clicked` only emits the song id. It is the `SelectSong` action of a button.
- `main.py` only switches screens, and its call to `set_song_data` does not match that method's signature. It is not part of this model.
- The `__main__` test scaffolding in both widget files is not part of this model.
- Adding stars to the total, applying an unlock, and loading or saving progress are not modelled. Neither source file implements them.

/**
 * The phrase session of the learning screen (widgets/learning_widget.py):
 * which phrase is current, the per-phrase star list, the recording in
 * progress with its chunk count, the playback window of the current phrase,
 * and the `song_completed` and `stars_earned` signals emitted so far.
 *
 * As written, the program never stores the reward of a successful analysis
 * in the per-phrase star list: a stop resets the current slot to 0, and only
 * the empty-recording and analysis-error paths write it again, with 0. The
 * class invariant therefore says that every slot holds 0, and every
 * completion signal reports 0 stars for the song.
 */
module Session {
  import opened Wrappers
  import opened Scoring
  import opened Playback

  // Maximal recording length in seconds.
  const RecordSecondsMax: nat := 15
  // Number of chunks at which the recording length reaches the maximum.
  const MaxChunks: nat := 235

  /** The cap test `len(frames) * CHUNK / RATE >= RECORD_SECONDS_MAX`. */
  predicate CapReached(chunks: nat)
  {
    RecordedSeconds(chunks) >= RecordSecondsMax as real
  }

  /** The cap is reached exactly from the 235th chunk on. */
  lemma CapReachedExactly(chunks: nat)
    ensures CapReached(chunks) <==> chunks >= MaxChunks
  {
    assert RecordedSeconds(chunks) == (chunks * Chunk) as real / 16000.0;
    assert CapReached(chunks) <==> chunks * Chunk >= 240000;
  }

  /**
   * Below the cap, the real-valued onset floor `duration * 0.8` is never an
   * integer (for a non-empty recording), so truncating it is insensitive to
   * rounding.
   */
  lemma OnsetFloorNeverExact(chunks: nat)
    requires 1 <= chunks <= MaxChunks
    ensures (chunks * 32) % 625 != 0
    ensures (RecordedSeconds(chunks) * 0.8).Floor as real < RecordedSeconds(chunks) * 0.8
  {
    var k := chunks * 32 / 625;
    var m := chunks * 32 % 625;
    assert chunks * 32 == 625 * k + m;
    assert 0 <= k <= 12;
    assert RecordedSeconds(chunks) * 0.8 == (chunks * 32) as real / 625.0;
    FloorOfQuotient(chunks * 32, 625);
    assert (k as real) * 625.0 < (chunks * 32) as real;
  }

  /** The fields of the song data the session reads. */
  datatype SongData = SongData(id: Option<string>, phrases: seq<PhraseTiming>)

  /**
   * A song completion: the song id that the `song_completed` signal carries,
   * and the star sum that the completion text shows beside it.
   */
  datatype Completion = Completion(songId: Option<string>, starsThisAttempt: int)

  /** The analysis of a recorded buffer: its features, or an exception on the way. */
  datatype Analysis = Analyzed(rms: real, pitch: PitchOutcome, onsets: OnsetOutcome) | AnalysisFailed

  /** One timer tick of the capture stream. */
  datatype ReadOutcome = ChunkRead | ReadIOError | ReadFailed

  /** What the feedback area shows after an operation. */
  datatype Outcome =
    | NoFeedback          // no analysis ran
    | NoAudio(message: Message, character: Option<string>)
                          // the recording holds no chunk: 0 stars, "chase" if its animation loaded
    | Shown(v: Verdict)   // the analysed verdict
    | AnalysisError       // the analysis raised: 0 stars

  /** Result of analysing a recording of `chunks` chunks. */
  function Assess(a: Analysis, chunks: nat, characters: seq<string>): (o: Outcome)
    ensures o != NoFeedback
    ensures o.NoAudio? <==> chunks == 0
    ensures o.NoAudio? ==> o.message == NothingRecorded
    ensures o.NoAudio? ==> (o.character.Some? <==> "chase" in characters)
    ensures o.NoAudio? && o.character.Some? ==> o.character.value == "chase"
    ensures o == AnalysisError <==> chunks > 0 && a.AnalysisFailed?
    ensures o.Shown? <==> chunks > 0 && a.Analyzed?
    ensures o.Shown? ==> o.v == Evaluate(Analyze(a.rms, a.pitch, a.onsets, chunks), characters)
    ensures o.Shown? ==> o.v.stars <= 3 && (o.v.stars == 0 <==> a.rms <= QuietThreshold)
    ensures o.Shown? ==> (o.v.character.Some? ==> o.v.character.value in characters)
  {
    if chunks == 0 then NoAudio(NothingRecorded, if "chase" in characters then Some("chase") else None)
    else match a
      case AnalysisFailed => AnalysisError
      case Analyzed(rms, p, onsets) => Shown(Evaluate(Analyze(rms, p, onsets, chunks), characters))
  }

  /** The outcomes after which the current phrase's slot is written (with 0). */
  predicate WritesZero(o: Outcome)
  {
    o.NoAudio? || o == AnalysisError
  }

  predicate AllZero(s: seq<int>)
  {
    forall i :: 0 <= i < |s| ==> s[i] == 0
  }

  function Zeros(n: nat): (s: seq<int>)
    ensures |s| == n && AllZero(s)
  {
    seq(n, _ => 0)
  }

  function Sum(s: seq<int>): int
  {
    if s == [] then 0 else s[0] + Sum(s[1..])
  }

  lemma {:induction false} SumOfZeros(s: seq<int>)
    requires AllZero(s)
    ensures Sum(s) == 0
  {
    if s != [] {
      SumOfZeros(s[1..]);
    }
  }

  /** The write `_phrase_stars[i] = 0`, guarded by `i < len(phrases)`. */
  function ResetSlot(s: seq<int>, i: nat): (r: seq<int>)
    ensures |r| == |s|
    ensures forall j :: 0 <= j < |s| && j != i ==> r[j] == s[j]
    ensures i < |s| ==> r[i] == 0
    ensures i >= |s| ==> r == s
  {
    if i < |s| then s[i := 0] else s
  }

  /** Resetting a slot discards whatever an earlier attempt stored in it. */
  lemma ResetForgetsEarlierAttempt(s: seq<int>, i: nat, earlier: int)
    requires i < |s|
    ensures ResetSlot(s[i := earlier], i) == ResetSlot(s, i)
  {
  }

  /** `goto_next_phrase` increments the index only while it is below the phrase count. */
  function NextIndex(i: nat, n: nat): nat
  {
    if i < n then i + 1 else i
  }

  /** Whether advancing from index `i` reaches the end and emits `song_completed`. */
  predicate CompletesOnAdvance(i: nat, n: nat)
  {
    i < n && i + 1 >= n
  }

  /** The index after `k` calls of `goto_next_phrase`. */
  function IndexAfter(i: nat, n: nat, k: nat): nat
    decreases k
  {
    if k == 0 then i else IndexAfter(NextIndex(i, n), n, k - 1)
  }

  /** The number of `song_completed` signals emitted by `k` calls of `goto_next_phrase`. */
  function CompletionsAfter(i: nat, n: nat, k: nat): nat
    decreases k
  {
    if k == 0 then 0
    else (if CompletesOnAdvance(i, n) then 1 else 0) + CompletionsAfter(NextIndex(i, n), n, k - 1)
  }

  /**
   * From any index within bounds, `k` advances stop at the phrase count and
   * emit one completion exactly when they cross it.
   */
  lemma {:induction false} AdvanceRepeatedly(i: nat, n: nat, k: nat)
    requires i <= n
    ensures IndexAfter(i, n, k) == Min(i + k, n)
    ensures CompletionsAfter(i, n, k) == if i < n <= i + k then 1 else 0
    decreases k
  {
    if k > 0 {
      AdvanceRepeatedly(NextIndex(i, n), n, k - 1);
    }
  }

  /**
   * A song of `n > 0` phrases completes exactly once however many times
   * `goto_next_phrase` is called beyond the `n` needed.
   */
  lemma SongCompletesOnce(n: nat, extra: nat)
    requires n > 0
    ensures IndexAfter(0, n, n) == n && CompletionsAfter(0, n, n) == 1
    ensures IndexAfter(0, n, n + extra) == n && CompletionsAfter(0, n, n + extra) == 1
    ensures IndexAfter(n, n, extra) == n && CompletionsAfter(n, n, extra) == 0
  {
    AdvanceRepeatedly(0, n, n);
    AdvanceRepeatedly(0, n, n + extra);
    AdvanceRepeatedly(n, n, extra);
  }

  class LearningSession {
    // A microphone and the audio system were found at construction.
    const micAvailable: bool

    // Song data is loaded (`current_song_data` is truthy).
    var loaded: bool
    var songId: Option<string>
    var phrases: seq<PhraseTiming>
    // Names of the character animations that loaded, in load order.
    var characters: seq<string>

    var index: nat
    var stars: seq<int>

    var recording: bool
    // Number of chunks in the current (or last) recording.
    var chunks: nat

    var startMs: int
    var endMs: int

    // Signals emitted so far, oldest first.
    var completions: seq<Completion>
    var starSignals: seq<int>

    /** The session invariant; it holds between timer ticks and user actions. */
    ghost predicate Valid()
      reads this
    {
      Sound() && (recording ==> chunks < MaxChunks)
    }

    /**
     * The session invariant without the recording cap: it also holds in the
     * middle of a tick, after the chunk that reaches the cap was appended.
     */
    ghost predicate Sound()
      reads this
    {
      && |stars| == |phrases|
      && index <= |phrases|
      && (!loaded ==> phrases == [])
      && AllZero(stars)
      && chunks <= MaxChunks
      && (forall c :: c in completions ==> c.starsThisAttempt == 0)
      && (forall x :: x in starSignals ==> x == 0)
    }

    constructor (micAvailable: bool)
      ensures Valid() && this.micAvailable == micAvailable
      ensures !loaded && songId == None && phrases == [] && characters == []
      ensures index == 0 && stars == [] && !recording && chunks == 0
      ensures startMs == NoWindow && endMs == NoWindow
      ensures completions == [] && starSignals == []
    {
      this.micAvailable := micAvailable;
      loaded, songId, phrases, characters := false, None, [], [];
      index, stars := 0, [];
      recording, chunks := false, 0;
      startMs, endMs := NoWindow, NoWindow;
      completions, starSignals := [], [];
    }

    /**
     * `set_song_data` for a song that is present: the session restarts at
     * phrase 0 with one zero slot per phrase. The first phrase is displayed
     * only when the audio file was found, and displaying a song without
     * phrases completes it at once.
     */
    method Open(song: SongData, audioFound: bool, loadedCharacters: seq<string>)
      requires Valid()
      modifies this`loaded, this`songId, this`phrases, this`characters, this`index,
               this`stars, this`startMs, this`endMs, this`completions
      ensures Valid()
      ensures loaded && songId == song.id && phrases == song.phrases && characters == loadedCharacters
      ensures index == 0 && stars == Zeros(|song.phrases|)
      ensures startMs == NoWindow && endMs == NoWindow
      ensures completions == old(completions)
                             + (if audioFound && song.phrases == [] then [Completion(song.id, 0)] else [])
    {
      loaded, songId, phrases, characters := true, song.id, song.phrases, loadedCharacters;
      index, startMs, endMs := 0, NoWindow, NoWindow;
      stars := Zeros(|song.phrases|);
      if audioFound {
        UpdatePhraseDisplay();
      }
    }

    /** `update_phrase_display`: past the last phrase, the song-completion check runs. */
    method UpdatePhraseDisplay()
      requires Valid() && loaded
      modifies this`completions
      ensures Valid()
      ensures completions == old(completions)
                             + (if index >= |phrases| then [Completion(songId, Sum(stars))] else [])
      ensures index >= |phrases| ==> Sum(stars) == 0
    {
      if index >= |phrases| {
        CheckSongCompletion();
      }
    }

    /** `_check_song_completion`: emits `song_completed` with the star sum once past the last phrase. */
    method CheckSongCompletion()
      requires Valid() && loaded
      modifies this`completions
      ensures Valid()
      ensures completions == old(completions)
                             + (if index >= |phrases| then [Completion(songId, Sum(stars))] else [])
    {
      if index >= |phrases| {
        SumOfZeros(stars);
        completions := completions + [Completion(songId, Sum(stars))];
      }
    }

    /** `start_recording`: clears the frames, then records if the stream opened. */
    method StartRecording(streamOpened: bool)
      requires Valid()
      modifies this`recording, this`chunks
      ensures Valid()
      ensures old(recording) ==> recording && chunks == old(chunks)
      ensures !old(recording) ==> recording == streamOpened && chunks == 0
    {
      if recording {
        return;
      }
      chunks := 0;
      recording := streamOpened;
    }

    /**
     * `analyze_and_provide_feedback` on the recorded chunks. Only the
     * empty-recording and error paths write the current slot (with 0) and
     * emit `stars_earned(0)`; the reward of an analysed attempt is shown but
     * not stored.
     */
    method AnalyzeAndProvideFeedback(a: Analysis) returns (o: Outcome)
      requires Sound()
      modifies this`stars, this`starSignals
      ensures Sound()
      ensures o == Assess(a, chunks, characters)
      ensures stars == if WritesZero(o) then ResetSlot(old(stars), index) else old(stars)
      ensures starSignals == old(starSignals) + (if WritesZero(o) && index < |phrases| then [0] else [])
    {
      o := Assess(a, chunks, characters);
      if WritesZero(o) && loaded && index < |phrases| {
        stars := stars[index := 0];
        starSignals := starSignals + [0];
      }
    }

    /**
     * `stop_recording`: ends the recording, resets the current slot to 0 and
     * analyses what was recorded. Afterwards the slot holds 0 whatever the
     * verdict was.
     */
    method StopRecording(a: Analysis) returns (o: Outcome)
      requires Sound()
      modifies this`recording, this`stars, this`starSignals
      ensures Valid()
      ensures !recording
      ensures o == if old(recording) then Assess(a, chunks, characters) else NoFeedback
      ensures stars == if old(recording) then ResetSlot(old(stars), index) else old(stars)
      ensures starSignals == old(starSignals)
                             + (if old(recording) && WritesZero(o) && index < |phrases| then [0] else [])
      ensures old(recording) && index < |phrases| ==> stars[index] == 0
    {
      o := NoFeedback;
      if !recording {
        return;
      }
      recording := false;
      if loaded && index < |phrases| {
        stars := stars[index := 0];
      }
      o := AnalyzeAndProvideFeedback(a);
    }

    /** `toggle_recording`: nothing without a microphone; otherwise stop or start. */
    method ToggleRecording(streamOpened: bool, a: Analysis) returns (o: Outcome)
      requires Valid()
      modifies this`recording, this`chunks, this`stars, this`starSignals
      ensures Valid()
      ensures !micAvailable ==> recording == old(recording) && chunks == old(chunks)
      ensures micAvailable && !old(recording) ==> recording == streamOpened && chunks == 0
      ensures micAvailable && old(recording) ==> !recording && chunks == old(chunks)
      ensures o == if micAvailable && old(recording) then Assess(a, chunks, characters) else NoFeedback
      ensures stars == if micAvailable && old(recording) then ResetSlot(old(stars), index) else old(stars)
      ensures starSignals == old(starSignals)
                             + (if micAvailable && old(recording) && WritesZero(o) && index < |phrases| then [0] else [])
    {
      o := NoFeedback;
      if !micAvailable {
        return;
      }
      if recording {
        o := StopRecording(a);
      } else {
        StartRecording(streamOpened);
      }
    }

    /**
     * `_read_audio_stream` on one timer tick: a read chunk is appended and
     * the recording stops on reaching 15 seconds; an I/O error is ignored;
     * any other error stops the recording.
     */
    method ReadAudioStream(r: ReadOutcome, a: Analysis) returns (o: Outcome)
      requires Valid()
      modifies this`recording, this`chunks, this`stars, this`starSignals
      ensures Valid()
      ensures chunks == if old(recording) && r == ChunkRead then old(chunks) + 1 else old(chunks)
      ensures old(recording) ==> (recording <==> r == ReadIOError || (r == ChunkRead && chunks < MaxChunks))
      ensures !old(recording) ==> !recording
      ensures o == if old(recording) && !recording then Assess(a, chunks, characters) else NoFeedback
      ensures stars == if old(recording) && !recording then ResetSlot(old(stars), index) else old(stars)
      ensures starSignals == old(starSignals)
                             + (if old(recording) && !recording && WritesZero(o) && index < |phrases| then [0] else [])
    {
      o := NoFeedback;
      if !recording {
        return;
      }
      match r {
        case ChunkRead =>
          chunks := chunks + 1;
          CapReachedExactly(chunks);
          if CapReached(chunks) {
            o := StopRecording(a);
          }
        case ReadIOError =>
        case ReadFailed =>
          o := StopRecording(a);
      }
    }

    /**
     * `play_current_phrase`: a recording in progress is stopped first (via
     * the toggle); then, when the media is usable and a phrase is current,
     * its playback window is computed.
     */
    method PlayCurrentPhrase(a: Analysis, mediaReady: bool, durationMs: int) returns (o: Outcome)
      requires Valid() && (loaded || !mediaReady)
      modifies this`recording, this`chunks, this`stars, this`starSignals, this`startMs, this`endMs
      ensures Valid()
      ensures recording == (old(recording) && !micAvailable) && chunks == old(chunks)
      ensures o == if micAvailable && old(recording) then Assess(a, chunks, characters) else NoFeedback
      ensures stars == if micAvailable && old(recording) then ResetSlot(old(stars), index) else old(stars)
      ensures starSignals == old(starSignals)
                             + (if micAvailable && old(recording) && WritesZero(o) && index < |phrases| then [0] else [])
      ensures mediaReady && index < |phrases| ==>
                Window(startMs, endMs) == PlaybackWindow(phrases[index], durationMs)
      ensures !(mediaReady && index < |phrases|) ==> startMs == old(startMs) && endMs == old(endMs)
    {
      o := NoFeedback;
      if recording {
        o := ToggleRecording(false, a);
      }
      if !mediaReady {
        return;
      }
      if loaded && index < |phrases| {
        var w := PlaybackWindow(phrases[index], durationMs);
        startMs, endMs := w.startMs, w.endMs;
      }
    }

    /** `_on_position_changed`: whether the player is stopped at this position. */
    method OnPositionChanged(playing: bool, position: int) returns (stop: bool)
      ensures stop <==> playing && endMs != NoWindow && position >= endMs - StopMarginMs
      ensures stop ==> StopsPlayback(playing, position + 1, endMs)
    {
      stop := StopsPlayback(playing, position, endMs);
    }

    /**
     * `goto_next_phrase`: a recording in progress is stopped first (via the
     * toggle), the window is cleared, and the index advances while it is
     * below the phrase count; reaching the end emits `song_completed`.
     */
    method GotoNextPhrase(a: Analysis) returns (o: Outcome)
      requires Valid() && loaded
      modifies this`recording, this`chunks, this`stars, this`starSignals, this`startMs, this`endMs,
               this`index, this`completions
      ensures Valid()
      ensures index == NextIndex(old(index), |phrases|)
      ensures completions == old(completions)
                             + (if CompletesOnAdvance(old(index), |phrases|) then [Completion(songId, 0)] else [])
      ensures startMs == NoWindow && endMs == NoWindow
      ensures recording == (old(recording) && !micAvailable) && chunks == old(chunks)
      ensures o == if micAvailable && old(recording) then Assess(a, chunks, characters) else NoFeedback
      ensures stars == if micAvailable && old(recording) then ResetSlot(old(stars), old(index)) else old(stars)
      ensures starSignals == old(starSignals)
                             + (if micAvailable && old(recording) && WritesZero(o) && old(index) < |phrases| then [0] else [])
    {
      o := NoFeedback;
      if recording {
        o := ToggleRecording(false, a);
      }
      startMs, endMs := NoWindow, NoWindow;
      if loaded && index < |phrases| {
        index := index + 1;
        UpdatePhraseDisplay();
      }
    }
  }
}

/**
 * Song availability on the selection screen
 * (widgets/song_selection_widget.py): for every catalog song, whether it is
 * unlocked, what its button says, whether the button is enabled and what a
 * click on it does; and the guarded unlock request behind such a click.
 *
 * A song is unlocked exactly when its id is in the progress record's list of
 * unlocked ids; the catalog's own "unlocked" field is carried but never read.
 */
module SongSelection {
  import opened Wrappers

  /** Python's `sys.maxsize`, standing for a requirement that was not given. */
  const MaxSize: int := 0x7FFF_FFFF_FFFF_FFFF

  /** A catalog entry; every key may be missing from the song's dictionary. */
  datatype CatalogEntry = CatalogEntry(id: Option<string>, title: Option<string>,
                                       unlockedFlag: Option<bool>, unlockStarsRequired: Option<int>)

  /** The user progress record; both keys may be missing. */
  datatype Progress = Progress(totalStars: Option<int>, unlockedSongIds: Option<seq<string>>)

  function CurrentStars(p: Progress): int
  {
    match p.totalStars
    case None => 0
    case Some(n) => n
  }

  function UnlockedIds(p: Progress): seq<string>
  {
    match p.unlockedSongIds
    case None => []
    case Some(ids) => ids
  }

  /** Stars needed to unlock a song; a missing requirement can never be met in practice. */
  function RequiredStars(e: CatalogEntry): int
  {
    match e.unlockStarsRequired
    case None => MaxSize
    case Some(n) => n
  }

  /** Entries without an id, or with an empty one, get no button. */
  predicate HasUsableId(e: CatalogEntry)
  {
    e.id.Some? && e.id.value != ""
  }

  /** The displayed title; it defaults to the id. */
  function Title(e: CatalogEntry): string
    requires e.id.Some?
  {
    match e.title
    case None => e.id.value
    case Some(t) => t
  }

  /** The progress used when none is supplied: no stars, only "pawpatrol" unlocked. */
  function DefaultProgress(): (p: Progress)
    ensures CurrentStars(p) == 0 && UnlockedIds(p) == ["pawpatrol"]
  {
    Progress(Some(0), Some(["pawpatrol"]))
  }

  /** The catalog used when none is supplied. */
  function DefaultCatalog(): (songs: seq<CatalogEntry>)
    ensures |songs| == 4 && forall i :: 0 <= i < |songs| ==> HasUsableId(songs[i])
  {
    [ CatalogEntry(Some("pawpatrol"), Some("汪汪队立大功主题曲"), Some(true), Some(0)),
      CatalogEntry(Some("rabrador"), Some("拉布拉多警长主题曲"), Some(false), Some(20)),
      CatalogEntry(Some("littlestar"), Some("小星星"), Some(true), Some(0)),
      CatalogEntry(Some("abc"), Some("ABC 歌"), Some(false), Some(5)) ]
  }

  /** Button text: the title, with "(需要 ⭐ n)" or "(锁定)" appended for a locked song. */
  datatype ButtonText = Plain(title: string) | NeedsStars(title: string, required: int) | LockedLabel(title: string)

  /** What a click on the button does. */
  datatype Action = SelectSong | TryUnlock(songId: string) | NoAction

  datatype Tooltip =
    | ClickToStart(title: string)                 // unlocked
    | ClickToUnlock(required: int)                // locked, enough stars
    | StarsShort(required: int, shortfall: int)   // locked, too few stars
    | CannotUnlock                                // locked, no requirement given

  datatype SongButton = SongButton(songId: string, text: ButtonText, enabled: bool, action: Action,
                                   tooltip: Tooltip, unlocked: bool, unlockable: bool)

  /** The button `_populate_song_buttons` creates for one catalog entry. */
  function ButtonFor(e: CatalogEntry, p: Progress): (b: SongButton)
    requires HasUsableId(e)
    ensures b.songId == e.id.value
    ensures b.unlocked <==> e.id.value in UnlockedIds(p)
    ensures b.unlockable <==> CurrentStars(p) >= RequiredStars(e)
    ensures b.enabled <==> b.unlocked || CurrentStars(p) >= RequiredStars(e)
    ensures b.unlocked ==> b.action == SelectSong && b.text == Plain(Title(e))
    ensures !b.unlocked ==> b.action == (if b.enabled then TryUnlock(e.id.value) else NoAction)
    ensures b.tooltip.StarsShort? ==>
              !b.enabled && b.tooltip.shortfall == RequiredStars(e) - CurrentStars(p) > 0
  {
    var id := e.id.value;
    var title := Title(e);
    var unlocked := id in UnlockedIds(p);
    var required := RequiredStars(e);
    var current := CurrentStars(p);
    var canUnlock := current >= required;
    var text :=
      if !unlocked && required != MaxSize then NeedsStars(title, required)
      else if !unlocked && required == MaxSize then LockedLabel(title)
      else Plain(title);
    if unlocked then
      SongButton(id, text, true, SelectSong, ClickToStart(title), unlocked, canUnlock)
    else if canUnlock then
      SongButton(id, text, true, TryUnlock(id), ClickToUnlock(required), unlocked, canUnlock)
    else if required != MaxSize then
      SongButton(id, text, false, NoAction, StarsShort(required, Max(0, required - current)), unlocked, canUnlock)
    else
      SongButton(id, text, false, NoAction, CannotUnlock, unlocked, canUnlock)
  }

  /** The catalog's own "unlocked" field has no influence on the button. */
  lemma ButtonIgnoresCatalogFlag(e: CatalogEntry, p: Progress, flag: Option<bool>)
    requires HasUsableId(e)
    ensures ButtonFor(e.(unlockedFlag := flag), p) == ButtonFor(e, p)
  {
  }

  /** Labels: an unlocked song shows its title, a locked one the requirement or "locked". */
  lemma ButtonLabels(e: CatalogEntry, p: Progress)
    requires HasUsableId(e)
    ensures e.title.None? ==> ButtonFor(e, p).text.title == e.id.value
    ensures e.id.value !in UnlockedIds(p) && RequiredStars(e) != MaxSize ==>
              ButtonFor(e, p).text == NeedsStars(Title(e), RequiredStars(e))
    ensures e.id.value !in UnlockedIds(p) && RequiredStars(e) == MaxSize ==>
              ButtonFor(e, p).text == LockedLabel(Title(e))
  {
  }

  /**
   * A locked song without a requirement is shown as "locked", disabled, with
   * the "cannot be unlocked for now" tooltip (as long as the star total stays
   * below `sys.maxsize`).
   */
  lemma MissingRequirementLocksSong(e: CatalogEntry, p: Progress)
    requires HasUsableId(e) && e.unlockStarsRequired.None?
    requires e.id.value !in UnlockedIds(p) && CurrentStars(p) < MaxSize
    ensures ButtonFor(e, p).text == LockedLabel(Title(e))
    ensures !ButtonFor(e, p).enabled && ButtonFor(e, p).action == NoAction
    ensures ButtonFor(e, p).tooltip == CannotUnlock
  {
  }

  /** A locked song short of stars with a finite requirement reports the missing stars. */
  lemma ShortfallOfDisabledSong(e: CatalogEntry, p: Progress)
    requires HasUsableId(e) && e.id.value !in UnlockedIds(p)
    requires CurrentStars(p) < RequiredStars(e) != MaxSize
    ensures ButtonFor(e, p).tooltip == StarsShort(RequiredStars(e), RequiredStars(e) - CurrentStars(p))
    ensures ButtonFor(e, p).tooltip.shortfall > 0
  {
  }

  /** The buttons created for a catalog, top to bottom. */
  function Buttons(songs: seq<CatalogEntry>, p: Progress): (bs: seq<SongButton>)
    ensures |bs| <= |songs|
    ensures forall b :: b in bs ==> b.songId != ""
    decreases |songs|
  {
    if songs == [] then []
    else
      var last := songs[|songs| - 1];
      Buttons(songs[..|songs| - 1], p) + (if HasUsableId(last) then [ButtonFor(last, p)] else [])
  }

  /** `song_buttons`: the id-to-button dictionary, where a later entry overwrites an earlier one. */
  function ButtonIndex(songs: seq<CatalogEntry>, p: Progress): (m: map<string, SongButton>)
    ensures forall id :: id in m ==> m[id].songId == id && id != ""
    decreases |songs|
  {
    if songs == [] then map[]
    else
      var last := songs[|songs| - 1];
      var m := ButtonIndex(songs[..|songs| - 1], p);
      if HasUsableId(last) then m[last.id.value := ButtonFor(last, p)] else m
  }

  /** Buttons follow catalog order: the buttons of a concatenation are the concatenated buttons. */
  lemma {:induction false} ButtonsAppend(s: seq<CatalogEntry>, t: seq<CatalogEntry>, p: Progress)
    ensures Buttons(s + t, p) == Buttons(s, p) + Buttons(t, p)
    decreases |t|
  {
    if t == [] {
      assert s + t == s;
    } else {
      var t' := t[..|t| - 1];
      assert (s + t)[..|s + t| - 1] == s + t';
      assert (s + t)[|s + t| - 1] == t[|t| - 1];
      ButtonsAppend(s, t', p);
    }
  }

  /** Exactly one button per usable entry, none for the others. */
  lemma ButtonsOfOneEntry(e: CatalogEntry, p: Progress)
    ensures Buttons([e], p) == if HasUsableId(e) then [ButtonFor(e, p)] else []
  {
    assert [e][..0] == [];
  }

  /** The index of the last entry whose id is `id`. */
  function LastWithId(songs: seq<CatalogEntry>, id: string): (r: Option<nat>)
    ensures r.Some? ==> r.value < |songs| && songs[r.value].id == Some(id)
                        && forall k :: r.value < k < |songs| ==> songs[k].id != Some(id)
    ensures r.None? ==> forall k :: 0 <= k < |songs| ==> songs[k].id != Some(id)
    decreases |songs|
  {
    if songs == [] then None
    else if songs[|songs| - 1].id == Some(id) then Some(|songs| - 1)
    else LastWithId(songs[..|songs| - 1], id)
  }

  /** `song_buttons[id]` holds the button of the last entry with that id. */
  lemma {:induction false} ButtonIndexHoldsLast(songs: seq<CatalogEntry>, p: Progress, id: string)
    requires id != ""
    ensures id in ButtonIndex(songs, p) <==> LastWithId(songs, id).Some?
    ensures id in ButtonIndex(songs, p) ==>
              ButtonIndex(songs, p)[id] == ButtonFor(songs[LastWithId(songs, id).value], p)
    decreases |songs|
  {
    if songs != [] {
      ButtonIndexHoldsLast(songs[..|songs| - 1], p, id);
    }
  }

  /** The index of the first entry whose id is `id` (Python's `next(...)` search). */
  function FirstWithId(songs: seq<CatalogEntry>, id: string): (r: Option<nat>)
    ensures r.Some? ==> r.value < |songs| && songs[r.value].id == Some(id)
                        && forall k :: 0 <= k < r.value ==> songs[k].id != Some(id)
    ensures r.None? ==> forall k :: 0 <= k < |songs| ==> songs[k].id != Some(id)
    decreases |songs|
  {
    if songs == [] then None
    else if songs[0].id == Some(id) then Some(0)
    else
      match FirstWithId(songs[1..], id)
      case None => None
      case Some(j) => Some(j + 1)
  }

  /** What `_try_unlock_song` does. */
  datatype UnlockDecision =
    | RequestUnlock(songId: string)                    // `try_unlock_song_signal` is emitted
    | NotEnoughStars(required: int, shortfall: int)    // the "not enough stars" message
    | Ignored                                          // no such song, or already unlocked

  /**
   * The guarded unlock request: the first catalog song with the id must
   * exist, be locked, and the star total must reach its requirement.
   * Progress is not changed here.
   */
  function UnlockDecisionFor(songs: seq<CatalogEntry>, p: Progress, id: string): (d: UnlockDecision)
    ensures d.RequestUnlock? ==> d.songId == id
    ensures d.RequestUnlock? <==>
              var f := FirstWithId(songs, id);
              f.Some? && id !in UnlockedIds(p) && CurrentStars(p) >= RequiredStars(songs[f.value])
    ensures d == Ignored <==> FirstWithId(songs, id).None? || id in UnlockedIds(p)
    ensures d.NotEnoughStars? ==>
              var f := FirstWithId(songs, id);
              f.Some? && d.required == RequiredStars(songs[f.value])
              && d.shortfall == d.required - CurrentStars(p) && d.shortfall > 0
  {
    match FirstWithId(songs, id)
    case None => Ignored
    case Some(j) =>
      if id in UnlockedIds(p) then Ignored
      else
        var required := RequiredStars(songs[j]);
        var current := CurrentStars(p);
        if current >= required then RequestUnlock(id)
        else NotEnoughStars(required, required - current)
  }

  /**
   * A click on the try-unlock button of the first entry with an id always
   * passes the second check and requests the unlock.
   */
  lemma EnabledUnlockButtonRequestsUnlock(songs: seq<CatalogEntry>, p: Progress, j: nat)
    requires j < |songs| && HasUsableId(songs[j])
    requires FirstWithId(songs, songs[j].id.value) == Some(j)
    requires ButtonFor(songs[j], p).action.TryUnlock?
    ensures UnlockDecisionFor(songs, p, songs[j].id.value) == RequestUnlock(songs[j].id.value)
  {
  }

  /** A song that needs 20 stars is unlocked with 20 stars and is 1 star short with 19. */
  lemma UnlockScenarios()
    ensures UnlockDecisionFor(DefaultCatalog(), Progress(Some(20), Some(["pawpatrol"])), "rabrador")
            == RequestUnlock("rabrador")
    ensures UnlockDecisionFor(DefaultCatalog(), Progress(Some(19), Some(["pawpatrol"])), "rabrador")
            == NotEnoughStars(20, 1)
    ensures UnlockDecisionFor(DefaultCatalog(), DefaultProgress(), "pawpatrol") == Ignored
  {
    var songs := DefaultCatalog();
    assert FirstWithId(songs, "rabrador") == Some(1) by {
      assert songs[0].id != Some("rabrador");
    }
    assert FirstWithId(songs, "pawpatrol") == Some(0);
  }

  /**
   * The screen built from the default catalog and progress: only
   * "pawpatrol" is playable; "littlestar", marked unlocked in the catalog,
   * is locked but can be unlocked at once; the other two are short of stars.
   */
  lemma DefaultScreen()
    ensures var bs := Buttons(DefaultCatalog(), DefaultProgress());
            && |bs| == 4
            && bs[0].action == SelectSong
            && bs[1].tooltip == StarsShort(20, 20) && !bs[1].enabled
            && bs[2].action == TryUnlock("littlestar") && !bs[2].unlocked
            && bs[3].tooltip == StarsShort(5, 5) && !bs[3].enabled
  {
    var songs := DefaultCatalog();
    var p := DefaultProgress();
    ButtonsAppend(songs[..2], songs[2..], p);
    ButtonsAppend(songs[..1], songs[1..2], p);
    ButtonsAppend(songs[2..3], songs[3..], p);
    assert songs[..2] + songs[2..] == songs;
    assert songs[..1] + songs[1..2] == songs[..2];
    assert songs[2..3] + songs[3..] == songs[2..];
    ButtonsOfOneEntry(songs[0], p);
    ButtonsOfOneEntry(songs[1], p);
    ButtonsOfOneEntry(songs[2], p);
    ButtonsOfOneEntry(songs[3], p);
    assert songs[..1] == [songs[0]] && songs[1..2] == [songs[1]];
    assert songs[2..3] == [songs[2]] && songs[3..] == [songs[3]];
    assert "littlestar" !in UnlockedIds(p);
    assert "rabrador" !in UnlockedIds(p) && "abc" !in UnlockedIds(p);
  }

  class SongSelectionWidget {
    var songs: seq<CatalogEntry>
    var userProgress: Progress
    // The buttons in the layout, top to bottom.
    var buttons: seq<SongButton>
    // The "no songs available" notice is shown instead of buttons.
    var noSongsNotice: bool
    var songButtons: map<string, SongButton>

    /** The screen shows exactly what the catalog and the progress call for. */
    ghost predicate Shows()
      reads this
    {
      && buttons == Buttons(songs, userProgress)
      && songButtons == ButtonIndex(songs, userProgress)
      && noSongsNotice == (songs == [])
    }

    /** `__init__`: missing catalog or progress are replaced by the defaults. */
    constructor (songsData: Option<seq<CatalogEntry>>, progress: Option<Progress>)
      ensures songs == (match songsData case None => DefaultCatalog() case Some(s) => s)
      ensures userProgress == (match progress case None => DefaultProgress() case Some(q) => q)
      ensures Shows()
    {
      songs := match songsData case None => DefaultCatalog() case Some(s) => s;
      userProgress := match progress case None => DefaultProgress() case Some(q) => q;
      new;
      PopulateSongButtons();
    }

    /** `_populate_song_buttons`: rebuilds the buttons in catalog order. */
    method PopulateSongButtons()
      modifies this`buttons, this`noSongsNotice, this`songButtons
      ensures Shows()
    {
      buttons := [];
      songButtons := map[];
      noSongsNotice := songs == [];
      if songs != [] {
        var i := 0;
        while i < |songs|
          invariant 0 <= i <= |songs| && !noSongsNotice
          invariant buttons == Buttons(songs[..i], userProgress)
          invariant songButtons == ButtonIndex(songs[..i], userProgress)
        {
          var e := songs[i];
          assert songs[..i + 1][..i] == songs[..i];
          if HasUsableId(e) {
            var b := ButtonFor(e, userProgress);
            buttons := buttons + [b];
            songButtons := songButtons[e.id.value := b];
          }
          i := i + 1;
        }
        assert songs[..|songs|] == songs;
      }
    }

    /** `update_ui_based_on_progress`: adopts the new progress and rebuilds the buttons. */
    method UpdateUiBasedOnProgress(p: Progress)
      modifies this`userProgress, this`buttons, this`noSongsNotice, this`songButtons
      ensures userProgress == p && Shows()
    {
      userProgress := p;
      PopulateSongButtons();
    }

    /** `_try_unlock_song`: decides on the unlock request; progress is not changed. */
    method TryUnlockSong(songId: string) returns (d: UnlockDecision)
      ensures d == UnlockDecisionFor(songs, userProgress, songId)
      ensures d.RequestUnlock? ==> songId !in UnlockedIds(userProgress)
    {
      d := UnlockDecisionFor(songs, userProgress, songId);
    }
  }
}

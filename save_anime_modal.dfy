/** The save-to-list form (components/SaveAnimeModal.tsx): how its fields
    are initialised from the entry being edited, how the score field filters
    what is typed, and the checks `handleSave` makes before it hands a
    normalised entry to `onSave`. The form's fields are a class; the rules
    are functions over a snapshot of them, which the class's handlers are
    proved to follow. `onSave` is the caller's promise: how it settles is an
    input. */
module SaveAnimeModal {

  import opened Common
  import opened Numbers

  datatype Status = Watching | Completed | Dropped | WatchLater

  datatype Mode = Save | Edit

  /** The date the backend stores for "no date". */
  const NO_DATE := "0001-01-01"

  const DEFAULT_EPISODE := "0"

  /** The entry handed to `onSave`; an absent optional field is `undefined`. */
  datatype SaveAnimeData = SaveAnimeData(
    status: Status, current_episode: int, score: Option<int>,
    started_watching_date: Option<string>, finished_watching_date: Option<string>)

  /** `initialData`, a partial entry: every field may be missing (a missing
      date also stands for `null`). */
  datatype InitialData = InitialData(
    status: Option<Status>, current_episode: Option<int>, score: Option<int>,
    started_watching_date: Option<string>, finished_watching_date: Option<string>)

  /** A snapshot of the form's editable fields. */
  datatype Form = Form(status: Status, currentEpisode: string, score: Option<int>,
                       startDate: string, finishDate: string)

  /** A stored date, unless it is missing, empty or the "no date" value. */
  predicate IsRealDate(d: Option<string>)
  {
    Truthy(d) && d.value != NO_DATE
  }

  /** The fields' initial values: status "Watch later" and episode "0" by
      default; a start date that is missing or "no date" becomes today when
      saving and empty when editing; such a finish date becomes empty. */
  function InitialForm(initialData: Option<InitialData>, mode: Mode, today: string): Form
  {
    var d := initialData.GetOr(InitialData(None, None, None, None, None));
    Form(d.status.GetOr(WatchLater),
         if d.current_episode.Some? then IntToString(d.current_episode.value) else DEFAULT_EPISODE,
         d.score,
         if IsRealDate(d.started_watching_date) then d.started_watching_date.value
         else if mode == Save then today else "",
         if IsRealDate(d.finished_watching_date) then d.finished_watching_date.value else "")
  }

  /** `text || undefined`. */
  function NonEmpty(text: string): Option<string>
  {
    if text != "" then Some(text) else None
  }

  const INVALID_EPISODE := "Please enter a valid episode number"
  const INVALID_SCORE := "Score must be between 1 and 10"

  function TooManyEpisodes(totalEpisodes: int): string
  {
    "Episode cannot exceed " + IntToString(totalEpisodes) + " (total episodes)"
  }

  /** What `handleSave` decides before it calls `onSave`: the message of the
      "Invalid Input" alert, or the entry to save. */
  datatype Verdict = Invalid(message: string) | Accepted(data: SaveAnimeData)

  /** The checks in the source's order: the episode text must parse to a
      non-negative number, must not exceed `totalEpisodes` when that is
      truthy (present and not 0), and a score, when set, must lie in 1..10. */
  function Validate(form: Form, totalEpisodes: Option<int>): Verdict
  {
    var episode := ParseInt(form.currentEpisode);
    if episode.NaN? || episode.value < 0 then Invalid(INVALID_EPISODE)
    else if totalEpisodes.Some? && totalEpisodes.value != 0 && episode.value > totalEpisodes.value then
      Invalid(TooManyEpisodes(totalEpisodes.value))
    else if form.score.Some? && (form.score.value < 1 || form.score.value > 10) then Invalid(INVALID_SCORE)
    else Accepted(SaveAnimeData(form.status, episode.value, form.score,
                                NonEmpty(form.startDate), NonEmpty(form.finishDate)))
  }

  /** The record of one `handleSave` run: rejected with an alert, or
      submitted to `onSave`, after which the form closed (`onSave`
      resolved) or an "Error" alert showed its message. */
  datatype SaveRun =
    | Rejected(message: string)
    | Submitted(data: SaveAnimeData, closed: bool, errorAlert: Option<string>)

  const SAVE_FAILED := "Failed to save anime"

  function RunSave(form: Form, totalEpisodes: Option<int>, onSaveResult: Outcome<()>): SaveRun
  {
    match Validate(form, totalEpisodes)
    case Invalid(message) => Rejected(message)
    case Accepted(data) =>
      if onSaveResult.Ok? then Submitted(data, true, None)
      else Submitted(data, false, Some(OrElse(onSaveResult.message, SAVE_FAILED)))
  }

  /** The score after `handleScoreChange(value)`: cleared by empty text, set
      by text that parses to a number in 1..10, otherwise unchanged. */
  function ScoreAfterInput(score: Option<int>, value: string): Option<int>
  {
    if value == "" then None
    else
      var n := ParseInt(value);
      if n.Int? && 1 <= n.value <= 10 then Some(n.value) else score
  }

  predicate ScoreInRange(score: Option<int>)
  {
    score.None? || 1 <= score.value <= 10
  }

  // ---------------------------------------------------------------------
  // Properties

  /** `handleSave` accepts exactly when the episode parses to a number that
      is not negative, does not exceed a truthy total, and any score lies in
      1..10; the entry it hands over carries the form's status and score,
      the parsed episode, and each empty date as undefined. */
  lemma ValidateAcceptsExactly(form: Form, totalEpisodes: Option<int>)
    ensures var episode := ParseInt(form.currentEpisode);
      Validate(form, totalEpisodes).Accepted? <==>
        && episode.Int? && episode.value >= 0
        && (totalEpisodes.Some? && totalEpisodes.value != 0 ==> episode.value <= totalEpisodes.value)
        && ScoreInRange(form.score)
    ensures var v := Validate(form, totalEpisodes);
      v.Accepted? ==>
        && v.data.status == form.status
        && Int(v.data.current_episode) == ParseInt(form.currentEpisode)
        && v.data.score == form.score
        && (v.data.started_watching_date.None? <==> form.startDate == "")
        && (v.data.started_watching_date.Some? ==> v.data.started_watching_date.value == form.startDate)
        && (v.data.finished_watching_date.None? <==> form.finishDate == "")
        && (v.data.finished_watching_date.Some? ==> v.data.finished_watching_date.value == form.finishDate)
  {
  }

  /** The episode checks come before the score check: an unreadable or
      negative episode is reported as such whatever the score is, and with
      no truthy total there is no upper bound at all. */
  lemma EpisodeChecksComeFirst(form: Form, totalEpisodes: Option<int>)
    ensures var episode := ParseInt(form.currentEpisode);
      (episode.NaN? || episode.value < 0) ==> Validate(form, totalEpisodes) == Invalid(INVALID_EPISODE)
    ensures (totalEpisodes.None? || totalEpisodes == Some(0)) ==>
      Validate(form, totalEpisodes).Invalid? ==>
        Validate(form, totalEpisodes).message in {INVALID_EPISODE, INVALID_SCORE}
  {
  }

  /** A score of 11 never reaches `onSave`, whatever else the form holds. */
  lemma ScoreElevenNeverSaved(form: Form, totalEpisodes: Option<int>, onSaveResult: Outcome<()>)
    requires form.score == Some(11)
    ensures RunSave(form, totalEpisodes, onSaveResult).Rejected?
  {
  }

  /** The form closes exactly when `onSave` resolves; a rejection shows its
      message, or "Failed to save anime" when it is empty. */
  lemma CloseOnlyAfterSave(form: Form, totalEpisodes: Option<int>, onSaveResult: Outcome<()>)
    ensures var run := RunSave(form, totalEpisodes, onSaveResult);
      && (run.Submitted? <==> Validate(form, totalEpisodes).Accepted?)
      && (run.Submitted? ==> run.data == Validate(form, totalEpisodes).data)
      && (run.Submitted? ==> (run.closed <==> onSaveResult.Ok?))
      && (run.Submitted? && onSaveResult.Err? ==>
            run.errorAlert == Some(if onSaveResult.message != "" then onSaveResult.message else SAVE_FAILED))
  {
  }

  /** Typing in the score field, whatever the score was before: empty text
      clears it, text read as 1..10 sets it, anything else (such as "11" or
      "abc") leaves it alone. */
  lemma ScoreInputCases(score: Option<int>, value: string)
    ensures value == "" ==> ScoreAfterInput(score, value).None?
    ensures value != "" && ParseInt(value).Int? && 1 <= ParseInt(value).value <= 10 ==>
      ScoreAfterInput(score, value) == Some(ParseInt(value).value)
    ensures value != "" && !(ParseInt(value).Int? && 1 <= ParseInt(value).value <= 10) ==>
      ScoreAfterInput(score, value) == score
  {
  }

  /** Typing in the score field keeps the score in {undefined} ∪ [1, 10]. */
  lemma ScoreInputKeepsRange(score: Option<int>, value: string)
    requires ScoreInRange(score)
    ensures ScoreInRange(ScoreAfterInput(score, value))
  {
    ScoreInputCases(score, value);
  }

  /** Non-empty text without a decimal digit ("abc", "-", "x") never
      touches the score. */
  lemma NonNumericInputKeepsScore(score: Option<int>, value: string)
    requires value != "" && forall i :: 0 <= i < |value| ==> !IsRadixDigit(value[i], 10)
    ensures ScoreAfterInput(score, value) == score
  {
    NoDigitsIsNaN(value);
  }

  /** Typing a number in 1..10 sets the score to it, and typing the
      rendering of any number outside that range changes nothing. */
  lemma ScoreInputOfNumber(score: Option<int>, n: int)
    ensures ScoreAfterInput(score, IntToString(n)) == if 1 <= n <= 10 then Some(n) else score
  {
    ParseIntOfToString(n);
  }

  /** Fresh form defaults: status "Watch later", episode "0", no score. */
  lemma DefaultsWithoutInitialData(mode: Mode, today: string)
    ensures var f := InitialForm(None, mode, today);
      && f.status == WatchLater && f.currentEpisode == "0" && f.score.None?
      && f.startDate == (if mode == Save then today else "") && f.finishDate == ""
  {
  }

  /** The "no date" value never reaches a field: a missing, empty or
      "0001-01-01" start date becomes today (save) or empty (edit), and such
      a finish date becomes empty; any other date is kept. */
  lemma NoDateBecomesDefault(initialData: InitialData, mode: Mode, today: string)
    ensures var f := InitialForm(Some(initialData), mode, today);
      && (IsRealDate(initialData.started_watching_date) ==> f.startDate == initialData.started_watching_date.value)
      && (!IsRealDate(initialData.started_watching_date) ==> f.startDate == (if mode == Save then today else ""))
      && (IsRealDate(initialData.finished_watching_date) ==> f.finishDate == initialData.finished_watching_date.value)
      && (!IsRealDate(initialData.finished_watching_date) ==> f.finishDate == "")
      && (today != NO_DATE ==> f.startDate != NO_DATE && f.finishDate != NO_DATE)
  {
  }

  /** Opening the form on a valid entry and saving it unchanged hands back
      the same episode and score, and sends a "no date" finish date as
      undefined rather than "0001-01-01". */
  lemma UnchangedEntrySavesAsIs(initialData: InitialData, mode: Mode, today: string, totalEpisodes: Option<int>)
    requires initialData.current_episode.Some? && initialData.current_episode.value >= 0
    requires totalEpisodes.Some? && totalEpisodes.value != 0 ==>
               initialData.current_episode.value <= totalEpisodes.value
    requires ScoreInRange(initialData.score)
    ensures var v := Validate(InitialForm(Some(initialData), mode, today), totalEpisodes);
      && v.Accepted?
      && v.data.current_episode == initialData.current_episode.value
      && v.data.score == initialData.score
      && v.data.status == initialData.status.GetOr(WatchLater)
      && (!IsRealDate(initialData.finished_watching_date) ==> v.data.finished_watching_date.None?)
  {
    ParseIntOfToString(initialData.current_episode.value);
  }

  // ---------------------------------------------------------------------
  // The form's state and its handlers

  class SaveAnimeForm {
    var status: Status
    var currentEpisode: string
    var score: Option<int>
    var startDate: string
    var finishDate: string
    var isSaving: bool

    function Snapshot(): Form
      reads this
    {
      Form(status, currentEpisode, score, startDate, finishDate)
    }

    constructor (initialData: Option<InitialData>, mode: Mode, today: string)
      ensures Snapshot() == InitialForm(initialData, mode, today) && !isSaving
    {
      var f := InitialForm(initialData, mode, today);
      status, currentEpisode, score := f.status, f.currentEpisode, f.score;
      startDate, finishDate := f.startDate, f.finishDate;
      isSaving := false;
    }

    /** `handleSave`: the checks, then `isSaving` on around the awaited
        `onSave`, which settles as `onSaveResult`. */
    method HandleSave(totalEpisodes: Option<int>, onSaveResult: Outcome<()>) returns (run: SaveRun)
      modifies this`isSaving
      ensures run == RunSave(old(Snapshot()), totalEpisodes, onSaveResult)
      ensures isSaving == (if run.Rejected? then old(isSaving) else false)
    {
      var episodeNum := ParseInt(currentEpisode);
      if episodeNum.NaN? || episodeNum.value < 0 {
        return Rejected(INVALID_EPISODE);
      }
      if totalEpisodes.Some? && totalEpisodes.value != 0 && episodeNum.value > totalEpisodes.value {
        return Rejected(TooManyEpisodes(totalEpisodes.value));
      }
      if score.Some? && (score.value < 1 || score.value > 10) {
        return Rejected(INVALID_SCORE);
      }
      isSaving := true;
      var data := SaveAnimeData(status, episodeNum.value, score, NonEmpty(startDate), NonEmpty(finishDate));
      if onSaveResult.Ok? {
        run := Submitted(data, true, None);
      } else {
        run := Submitted(data, false, Some(OrElse(onSaveResult.message, SAVE_FAILED)));
      }
      isSaving := false;
    }

    /** `handleScoreChange(value)`. */
    method HandleScoreChange(value: string)
      modifies this`score
      ensures score == ScoreAfterInput(old(score), value)
      ensures old(ScoreInRange(score)) ==> ScoreInRange(score)
    {
      if value == "" {
        score := None;
        return;
      }
      var num := ParseInt(value);
      if num.Int? && 1 <= num.value <= 10 {
        score := Some(num.value);
      }
    }
  }
}

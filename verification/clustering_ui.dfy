/** The browser page of the gameplay-clustering app: the theme switch, the
    file drop zone, the guard in front of an upload, the simulated progress
    bar, and how a reply of the upload endpoint is turned into either a result
    panel or an error message.

    DOM nodes, local storage and toasts are fields of `UploadPage`; timers and
    the network are the callers of its methods (a `Tick` per interval tick, a
    `ReceiveReply` when the request settles). */
module ClusteringUi {
  import opened Wrappers

  const LIGHT: string := "light"
  const DARK: string := "dark"
  const MOON_ICON: string := "fas fa-moon"
  const SUN_ICON: string := "fas fa-sun"

  /** The largest file the page lets through: 2 GiB. */
  const MAX_UPLOAD_BYTES: int := 2 * 1024 * 1024 * 1024

  const VIDEO_PREFIX: string := "video/"

  const NO_FILE_MESSAGE: string := "Please select a video file."
  const TOO_LARGE_MESSAGE: string := "File too large. Max 2GB."
  const INVALID_DROP_MESSAGE: string := "Please drop a valid video file."
  const ANALYSIS_COMPLETE: string := "Analysis complete!"
  const DEFAULT_FAILURE: string := "Failed to process the video."
  const SERVER_ERROR: string := "Server error. Try again."

  const FILE_SELECTED: string := "File selected:"
  const INVALID_TYPE: string := "Invalid file type!"
  const DROP_PROMPT: string := "Drag & drop your video file here"

  const STARTING: string := "Starting analysis..."
  const UPLOADING: string := "Uploading..."
  const ANALYZING: string := "Analyzing frames..."
  const FINALIZING: string := "Finalizing clusters..."
  const COMPLETE: string := "Processing complete"

  const UNNAMED_GAME: string := "Unnamed Game"
  const PLACEHOLDER_IMAGE: string := "data:image/svg+xml,%3Csvg xmlns='http://www.w3.org/2000/svg' width='600' height='320' viewBox='0 0 600 320'%3E%3Crect width='100%25' height='100%25' fill='%23f0f0f0'/%3E%3Ctext x='50%25' y='50%25' dominant-baseline='middle' text-anchor='middle' font-family='Arial' font-size='18' fill='%23999'%3ECluster Visualization%3C/text%3E%3C/svg%3E"

  // ===================== Theme =====================

  /** The theme applied when the page loads: the saved one, unless nothing
      (or an empty string) is saved. */
  function InitialTheme(saved: Option<string>): (theme: string)
    ensures saved.Some? && saved.value != "" ==> theme == saved.value
    ensures saved.None? || saved.value == "" ==> theme == LIGHT
    ensures theme != ""
  {
    if saved.Some? && saved.value != "" then saved.value else LIGHT
  }

  /** The theme after a click on the switch. */
  function Toggled(theme: string): (next: string)
    ensures next == LIGHT || next == DARK
    ensures next == DARK <==> theme == LIGHT
  {
    if theme == LIGHT then DARK else LIGHT
  }

  /** The icon of the switch: a moon in the light theme, a sun in any other. */
  function IconFor(theme: string): (icon: string)
    ensures icon == MOON_ICON <==> theme == LIGHT
    ensures icon == SUN_ICON <==> theme != LIGHT
  {
    if theme == LIGHT then MOON_ICON else SUN_ICON
  }

  /** Two clicks restore either of the two themes the switch produces. */
  lemma ToggleTwice(theme: string)
    requires theme == LIGHT || theme == DARK
    ensures Toggled(Toggled(theme)) == theme
  {
  }

  /** A toggled theme is what the next page load applies. */
  lemma ToggleSurvivesReload(theme: string)
    ensures InitialTheme(Some(Toggled(theme))) == Toggled(theme)
  {
  }

  /** A page opened with the storage a toggle left behind shows the theme and
      icon the toggle chose. */
  method ReloadAfterToggle(page: UploadPage) returns (reloaded: UploadPage)
    requires page.Valid()
    modifies page`theme, page`storedTheme, page`themeIcon
    ensures page.theme == Toggled(old(page.theme))
    ensures fresh(reloaded) && reloaded.Valid()
    ensures reloaded.theme == page.theme && reloaded.themeIcon == page.themeIcon
  {
    page.ToggleTheme();
    ToggleSurvivesReload(old(page.theme));
    reloaded := new UploadPage(page.storedTheme);
  }

  // ===================== Files =====================

  datatype VideoFile = VideoFile(name: string, mimeType: string, size: int)

  /** `mimeType.startsWith("video/")`. */
  predicate IsVideoType(mimeType: string)
    ensures IsVideoType(mimeType) <==> exists rest :: mimeType == VIDEO_PREFIX + rest
  {
    var ok := |VIDEO_PREFIX| <= |mimeType| && mimeType[..|VIDEO_PREFIX|] == VIDEO_PREFIX;
    assert ok ==> mimeType == VIDEO_PREFIX + mimeType[|VIDEO_PREFIX|..];
    ok
  }

  /** The three outcomes of the guard in front of an upload. */
  datatype FileCheck = NoFile | TooLarge | Accepted(file: VideoFile)

  /** The first selected file is sent if it exists and is at most 2 GiB. */
  function CheckFile(files: seq<VideoFile>): (check: FileCheck)
    ensures check == NoFile <==> files == []
    ensures check == TooLarge <==> files != [] && files[0].size > MAX_UPLOAD_BYTES
    ensures check.Accepted? <==> files != [] && files[0].size <= MAX_UPLOAD_BYTES
    ensures check.Accepted? ==> check.file == files[0]
  {
    if files == [] then NoFile
    else if files[0].size > MAX_UPLOAD_BYTES then TooLarge
    else Accepted(files[0])
  }

  /** The toast shown when the guard refuses to send. */
  function RejectionMessage(check: FileCheck): (message: string)
    ensures check == NoFile ==> message == NO_FILE_MESSAGE
    ensures check == TooLarge ==> message == TOO_LARGE_MESSAGE
    ensures message != ""
  {
    if check == NoFile then NO_FILE_MESSAGE else TOO_LARGE_MESSAGE
  }

  /** The characters `String.prototype.trim` removes: ECMAScript white space
      and line terminators. */
  const SPACES: set<char> := {
    '\t', '\n', '\U{000B}', '\U{000C}', '\r', ' ', '\U{00A0}', '\U{1680}',
    '\U{2000}', '\U{2001}', '\U{2002}', '\U{2003}', '\U{2004}', '\U{2005}',
    '\U{2006}', '\U{2007}', '\U{2008}', '\U{2009}', '\U{200A}',
    '\U{2028}', '\U{2029}', '\U{202F}', '\U{205F}', '\U{3000}', '\U{FEFF}'
  }

  predicate IsSpace(c: char)
  {
    c in SPACES
  }

  /** `s` without its leading white space. */
  function TrimStart(s: string): (t: string)
    ensures |t| <= |s|
    ensures t == [] || !IsSpace(t[0])
  {
    if s != [] && IsSpace(s[0]) then TrimStart(s[1..]) else s
  }

  /** `s` without its trailing white space. */
  function TrimEnd(s: string): (t: string)
    ensures |t| <= |s|
    ensures t == [] || !IsSpace(t[|t| - 1])
  {
    if s != [] && IsSpace(s[|s| - 1]) then TrimEnd(s[..|s| - 1]) else s
  }

  /** `TrimStart` keeps a suffix of `s` and drops only white space. */
  lemma {:induction false} TrimStartIsSuffix(s: string)
    ensures var t := TrimStart(s);
      && t == s[|s| - |t|..]
      && (forall k :: 0 <= k < |s| - |t| ==> IsSpace(s[k]))
  {
    if s != [] && IsSpace(s[0]) {
      var rest, t := s[1..], TrimStart(s);
      TrimStartIsSuffix(rest);
      assert rest[|rest| - |t|..] == s[|s| - |t|..];
      forall k | 0 <= k < |s| - |t|
        ensures IsSpace(s[k])
      {
        if k > 0 {
          assert s[k] == rest[k - 1];
        }
      }
    }
  }

  /** `TrimEnd` keeps a prefix of `s` and drops only white space. */
  lemma {:induction false} TrimEndIsPrefix(s: string)
    ensures var t := TrimEnd(s);
      && t == s[..|t|]
      && (forall k :: |t| <= k < |s| ==> IsSpace(s[k]))
  {
    if s != [] && IsSpace(s[|s| - 1]) {
      var init, t := s[..|s| - 1], TrimEnd(s);
      TrimEndIsPrefix(init);
      assert init[..|t|] == s[..|t|];
      forall k | |t| <= k < |s|
        ensures IsSpace(s[k])
      {
        if k < |init| {
          assert s[k] == init[k];
        }
      }
    }
  }

  /** `s.trim()`: `s` without its leading and trailing white space. */
  function Trim(s: string): (t: string)
    ensures |t| <= |s|
    ensures t == [] || (!IsSpace(t[0]) && !IsSpace(t[|t| - 1]))
  {
    TrimEndIsPrefix(TrimStart(s));
    TrimEnd(TrimStart(s))
  }

  /** What `Trim` removes is a white-space prefix and a white-space suffix:
      the result is the part of `s` between them. */
  lemma TrimIsSlice(s: string)
    ensures var t, i := Trim(s), |s| - |TrimStart(s)|;
      && i + |t| <= |s|
      && t == s[i..i + |t|]
      && (forall k :: 0 <= k < i ==> IsSpace(s[k]))
      && (forall k :: i + |t| <= k < |s| ==> IsSpace(s[k]))
  {
    var u := TrimStart(s);
    var t := TrimEnd(u);
    var i := |s| - |u|;
    TrimStartIsSuffix(s);
    TrimEndIsPrefix(u);
    assert t == s[i..i + |t|] by {
      assert u[..|t|] == s[i..i + |t|];
    }
    forall k | i + |t| <= k < |s|
      ensures IsSpace(s[k])
    {
      assert s[k] == u[k - i];
    }
  }

  /** The multipart form the page posts. */
  datatype UploadRequest = UploadRequest(video: VideoFile, isLabeled: bool, gameName: string)

  // ===================== Progress =====================

  /** The simulated progress: the counter of the running interval, the label
      under the bar, and whether the interval is still running. */
  datatype Progress = Progress(value: nat, text: string, running: bool)

  const PROGRESS_START: Progress := Progress(0, UPLOADING, true)

  /** The label under the bar for a given percentage. */
  function PhaseLabel(percent: int): (text: string)
    ensures text == UPLOADING <==> percent < 30
    ensures text == ANALYZING <==> 30 <= percent < 70
    ensures text == FINALIZING <==> 70 <= percent
  {
    if percent < 30 then UPLOADING
    else if percent < 70 then ANALYZING
    else FINALIZING
  }

  /** One tick of the interval. A stopped interval does not tick. */
  function TickStep(p: Progress): (next: Progress)
    ensures !p.running ==> next == p
    ensures p.running ==> (next.running <==> p.value < 100)
    ensures p.value <= next.value <= p.value + 1
    ensures p.value <= 100 ==> next.value <= 100
    ensures next.running && p.running ==> next.value == p.value + 1 && next.text == PhaseLabel(next.value)
    ensures !next.running && p.running ==> next.value == p.value && next.text == COMPLETE
  {
    if !p.running then p
    else if p.value >= 100 then Progress(p.value, COMPLETE, false)
    else Progress(p.value + 1, PhaseLabel(p.value + 1), true)
  }

  /** The progress after `n` ticks. */
  function Ticks(p: Progress, n: nat): Progress
  {
    if n == 0 then p else TickStep(Ticks(p, n - 1))
  }

  /** From the start, the counter rises by one per tick up to 100, labelled by
      its phase; the tick after that stops the interval with the completion
      label, and nothing moves afterwards. */
  lemma {:induction false} ProgressRun(n: nat)
    ensures Ticks(PROGRESS_START, n) ==
      if n <= 100 then Progress(n, PhaseLabel(n), true) else Progress(100, COMPLETE, false)
  {
    if n > 0 {
      ProgressRun(n - 1);
    }
  }

  // ===================== Replies =====================

  datatype ClusterSummary = ClusterSummary(frames: int, clusterLabel: string)

  /** The members of the JSON body the page reads; `success` is its
      truthiness, a missing member is `None`. */
  datatype ReplyData = ReplyData(
    success: bool,
    game: Option<string>,
    duration: Option<real>,
    clusters: Option<seq<ClusterSummary>>,
    visualization: Option<string>,
    message: Option<string>,
    error: Option<string>)

  /** How the request settled: no reply at all, or a reply with its `ok` flag
      and its body when that body parses as JSON. */
  datatype HttpOutcome = NetworkFailure | Reply(ok: bool, json: Option<ReplyData>)

  datatype StatCard = StatCard(number: nat, frames: int, clusterLabel: string)

  datatype StatsView = StatCards(cards: seq<StatCard>) | NoStatistics

  /** What the result panels show. A `duration` of `None` is shown as a dash. */
  datatype ResultView = ResultView(title: string, duration: Option<real>, clusterCount: nat, stats: StatsView, image: string)

  datatype Verdict = Shown(view: ResultView) | Failed(message: string)

  /** JavaScript's `s || fallback` for a string member. */
  function OrElse(s: Option<string>, fallback: string): (r: string)
    ensures s.Some? && s.value != "" ==> r == s.value
    ensures s.None? || s.value == "" ==> r == fallback
  {
    if s.Some? && s.value != "" then s.value else fallback
  }

  /** The message of a failed upload: the reply's `error`, else its `message`,
      else a fixed text; never empty. */
  function ErrorText(data: ReplyData): (text: string)
    ensures text != ""
    ensures data.error.Some? && data.error.value != "" ==> text == data.error.value
    ensures (data.error.None? || data.error.value == "") && data.message.Some? && data.message.value != "" ==> text == data.message.value
    ensures (data.error.None? || data.error.value == "") && (data.message.None? || data.message.value == "") ==> text == DEFAULT_FAILURE
  {
    OrElse(data.error, OrElse(data.message, DEFAULT_FAILURE))
  }

  /** One card per cluster, numbered from 1 in the order of the reply. */
  function Cards(clusters: seq<ClusterSummary>): (cards: seq<StatCard>)
    ensures |cards| == |clusters|
    ensures forall i :: 0 <= i < |clusters| ==>
      cards[i].number == i + 1 && cards[i].frames == clusters[i].frames && cards[i].clusterLabel == clusters[i].clusterLabel
  {
    seq(|clusters|, i requires 0 <= i < |clusters| => StatCard(i + 1, clusters[i].frames, clusters[i].clusterLabel))
  }

  /** `showResult`: the panels filled from a successful reply. */
  function ResultOf(data: ReplyData): (view: ResultView)
    ensures view.title == OrElse(data.game, UNNAMED_GAME)
    ensures view.duration.Some? <==> data.duration.Some? && data.duration.value != 0.0
    ensures view.duration.Some? ==> view.duration == data.duration
    ensures view.clusterCount == if data.clusters.Some? then |data.clusters.value| else 0
    ensures view.stats.StatCards? <==> view.clusterCount > 0
    ensures view.stats.StatCards? ==> |view.stats.cards| == view.clusterCount
    ensures view.stats.StatCards? ==> forall i :: 0 <= i < view.clusterCount ==>
      && view.stats.cards[i].number == i + 1
      && view.stats.cards[i].frames == data.clusters.value[i].frames
      && view.stats.cards[i].clusterLabel == data.clusters.value[i].clusterLabel
    ensures view.image == OrElse(data.visualization, PLACEHOLDER_IMAGE)
  {
    var count := if data.clusters.Some? then |data.clusters.value| else 0;
    ResultView(
      OrElse(data.game, UNNAMED_GAME),
      if data.duration.Some? && data.duration.value != 0.0 then data.duration else None,
      count,
      if count > 0 then StatCards(Cards(data.clusters.value)) else NoStatistics,
      OrElse(data.visualization, PLACEHOLDER_IMAGE))
  }

  /** A reply counts as a success only when it is `ok` and says `success`. */
  function Classify(ok: bool, data: ReplyData): (verdict: Verdict)
    ensures verdict.Shown? <==> ok && data.success
    ensures verdict.Shown? ==> verdict.view == ResultOf(data)
    ensures verdict.Failed? ==> verdict.message == ErrorText(data)
  {
    if ok && data.success then Shown(ResultOf(data)) else Failed(ErrorText(data))
  }

  /** The verdict on a settled request; no reply, or a body that is not JSON,
      is a server error. */
  function VerdictOf(outcome: HttpOutcome): (verdict: Verdict)
    ensures outcome.NetworkFailure? || outcome.json.None? ==> verdict == Failed(SERVER_ERROR)
    ensures outcome.Reply? && outcome.json.Some? ==> verdict == Classify(outcome.ok, outcome.json.value)
    ensures verdict.Failed? ==> verdict.message != ""
  {
    match outcome
    case NetworkFailure => Failed(SERVER_ERROR)
    case Reply(ok, json) => if json.None? then Failed(SERVER_ERROR) else Classify(ok, json.value)
  }

  // ===================== The page =====================

  datatype ToastKind = ErrorToast | SuccessToast

  datatype Toast = Toast(message: string, kind: ToastKind)

  /** The state of the page that its handlers change. */
  class UploadPage {
    var theme: string                 // the `data-theme` attribute
    var storedTheme: Option<string>   // local storage, key "theme"
    var themeIcon: string             // class of the switch's icon

    var files: seq<VideoFile>         // the file input's selection
    var selectedFileName: string
    var dropZoneText: string

    var toasts: seq<Toast>            // every toast shown, oldest first

    var progress: nat                 // counter of the interval, and the percentage shown
    var progressRunning: bool
    var progressText: string
    var progressAlert: bool           // the bar has the error gradient

    var uploadDisabled: bool
    var loaderVisible: bool

    var panelsHidden: bool            // result, statistics and visualization panels
    var shownResult: Option<ResultView>

    /** The icon always matches the theme, the counter stays within 100, and
        the spinner is visible exactly while the upload button is disabled. */
    ghost predicate Valid()
      reads this
    {
      && themeIcon == IconFor(theme)
      && progress <= 100
      && loaderVisible == uploadDisabled
    }

    ghost function ProgressView(): Progress
      reads this
    {
      Progress(progress, progressText, progressRunning)
    }

    /** The page once loaded, with `saved` in local storage (`initTheme`). */
    constructor (saved: Option<string>)
      ensures Valid()
      ensures theme == InitialTheme(saved) && storedTheme == saved && themeIcon == IconFor(theme)
      ensures files == [] && toasts == [] && shownResult == None
      ensures !uploadDisabled && !progressRunning && panelsHidden
    {
      theme := InitialTheme(saved);
      storedTheme := saved;
      themeIcon := IconFor(InitialTheme(saved));
      files, selectedFileName, dropZoneText := [], "", DROP_PROMPT;
      toasts := [];
      progress, progressRunning, progressText, progressAlert := 0, false, "", false;
      uploadDisabled, loaderVisible := false, false;
      panelsHidden, shownResult := true, None;
    }

    /** `toggleTheme`: flips the theme, saves it and updates the icon. */
    method ToggleTheme()
      requires Valid()
      modifies this`theme, this`storedTheme, this`themeIcon
      ensures Valid()
      ensures theme == Toggled(old(theme))
      ensures storedTheme == Some(theme)
    {
      var newTheme := Toggled(theme);
      theme := newTheme;
      storedTheme := Some(newTheme);
      themeIcon := IconFor(newTheme);
    }

    /** The drop handler: a drop whose first file is a video replaces the
        selection; any other non-empty drop keeps the selection, clears the
        shown name and reports an error; an empty drop does nothing. */
    method Drop(dropped: seq<VideoFile>)
      requires Valid()
      modifies this`files, this`selectedFileName, this`dropZoneText, this`toasts
      ensures Valid()
      ensures dropped == [] ==>
        files == old(files) && selectedFileName == old(selectedFileName)
        && dropZoneText == old(dropZoneText) && toasts == old(toasts)
      ensures dropped != [] && IsVideoType(dropped[0].mimeType) ==>
        files == dropped && selectedFileName == dropped[0].name
        && dropZoneText == FILE_SELECTED && toasts == old(toasts)
      ensures dropped != [] && !IsVideoType(dropped[0].mimeType) ==>
        files == old(files) && selectedFileName == ""
        && dropZoneText == INVALID_TYPE && toasts == old(toasts) + [Toast(INVALID_DROP_MESSAGE, ErrorToast)]
    {
      if |dropped| > 0 {
        var file := dropped[0];
        if IsVideoType(file.mimeType) {
          files := dropped;
          selectedFileName := file.name;
          dropZoneText := FILE_SELECTED;
        } else {
          selectedFileName := "";
          dropZoneText := INVALID_TYPE;
          toasts := toasts + [Toast(INVALID_DROP_MESSAGE, ErrorToast)];
        }
      }
    }

    /** The file input's change handler, after the browser stored `chosen`. */
    method ChooseFiles(chosen: seq<VideoFile>)
      requires Valid()
      modifies this`files, this`selectedFileName, this`dropZoneText
      ensures Valid()
      ensures files == chosen
      ensures chosen != [] ==> selectedFileName == chosen[0].name && dropZoneText == FILE_SELECTED
      ensures chosen == [] ==> selectedFileName == "" && dropZoneText == DROP_PROMPT
    {
      files := chosen;
      if |chosen| > 0 {
        selectedFileName := chosen[0].name;
        dropZoneText := FILE_SELECTED;
      } else {
        selectedFileName := "";
        dropZoneText := DROP_PROMPT;
      }
    }

    /** `showLoading`: the button is disabled and the spinner shown exactly
        when `show` holds. */
    method ShowLoading(show: bool)
      requires Valid()
      modifies this`uploadDisabled, this`loaderVisible
      ensures Valid()
      ensures uploadDisabled == show && loaderVisible == show
    {
      uploadDisabled := show;
      loaderVisible := show;
    }

    /** `resetUI`: the bar back to 0 in its normal colour, panels hidden. */
    method ResetUi()
      requires Valid()
      modifies this`progress, this`progressText, this`progressAlert, this`panelsHidden
      ensures Valid()
      ensures progress == 0 && progressText == STARTING && !progressAlert && panelsHidden
    {
      progress := 0;
      progressText := STARTING;
      progressAlert := false;
      panelsHidden := true;
    }

    /** `simulateProgress`: a fresh interval counting from 0. */
    method StartProgress()
      requires Valid()
      modifies this`progress, this`progressText, this`progressRunning
      ensures Valid()
      ensures ProgressView() == PROGRESS_START
    {
      progress := 0;
      progressText := UPLOADING;
      progressRunning := true;
    }

    /** One tick of the progress interval. */
    method Tick()
      requires Valid()
      modifies this`progress, this`progressText, this`progressRunning
      ensures Valid()
      ensures ProgressView() == TickStep(old(ProgressView()))
      ensures old(progress) <= progress <= old(progress) + 1
    {
      if progressRunning {
        if progress >= 100 {
          progressRunning := false;
          progressText := COMPLETE;
        } else {
          progress := progress + 1;
          progressText := PhaseLabel(progress);
        }
      }
    }

    /** The submit handler up to the request: without an acceptable file it
        only shows an error; otherwise it resets the panels, shows the
        spinner, starts the progress and returns the form to post. */
    method Submit(isLabeledChecked: bool, gameNameValue: string) returns (request: Option<UploadRequest>)
      requires Valid()
      modifies this`toasts, this`progress, this`progressText, this`progressRunning, this`progressAlert,
               this`panelsHidden, this`uploadDisabled, this`loaderVisible
      ensures Valid()
      ensures request.Some? <==> CheckFile(files).Accepted?
      ensures !CheckFile(files).Accepted? ==>
        && toasts == old(toasts) + [Toast(RejectionMessage(CheckFile(files)), ErrorToast)]
        && progress == old(progress) && progressText == old(progressText)
        && progressRunning == old(progressRunning) && progressAlert == old(progressAlert)
        && panelsHidden == old(panelsHidden) && uploadDisabled == old(uploadDisabled)
      ensures CheckFile(files).Accepted? ==>
        && request == Some(UploadRequest(files[0], isLabeledChecked, Trim(gameNameValue)))
        && toasts == old(toasts)
        && progress == 0 && progressText == UPLOADING && progressRunning && !progressAlert
        && panelsHidden && uploadDisabled
    {
      var check := CheckFile(files);
      if !check.Accepted? {
        toasts := toasts + [Toast(RejectionMessage(check), ErrorToast)];
        return None;
      }
      var form := UploadRequest(check.file, isLabeledChecked, Trim(gameNameValue));
      ResetUi();
      ShowLoading(true);
      StartProgress();
      request := Some(form);
    }

    /** `showError`: the message under the bar, the bar in the error colour,
        and an error toast. */
    method ShowError(message: string)
      requires Valid()
      modifies this`progressText, this`progressAlert, this`toasts
      ensures Valid()
      ensures progressText == message && progressAlert
      ensures toasts == old(toasts) + [Toast(message, ErrorToast)]
    {
      progressText := message;
      progressAlert := true;
      toasts := toasts + [Toast(message, ErrorToast)];
    }

    /** The submit handler once the request settled: the spinner goes away,
        then either the result panels and a success toast, or the error. The
        progress interval is left running. */
    method ReceiveReply(outcome: HttpOutcome)
      requires Valid()
      modifies this`uploadDisabled, this`loaderVisible, this`toasts, this`progressText, this`progressAlert,
               this`panelsHidden, this`shownResult
      ensures Valid()
      ensures !uploadDisabled
      ensures VerdictOf(outcome).Shown? ==>
        && shownResult == Some(VerdictOf(outcome).view) && !panelsHidden
        && toasts == old(toasts) + [Toast(ANALYSIS_COMPLETE, SuccessToast)]
        && progressText == old(progressText) && progressAlert == old(progressAlert)
      ensures VerdictOf(outcome).Failed? ==>
        && progressText == VerdictOf(outcome).message && progressAlert
        && toasts == old(toasts) + [Toast(VerdictOf(outcome).message, ErrorToast)]
        && shownResult == old(shownResult) && panelsHidden == old(panelsHidden)
    {
      ShowLoading(false);
      var verdict := VerdictOf(outcome);
      match verdict
      case Shown(view) =>
        shownResult := Some(view);
        panelsHidden := false;
        toasts := toasts + [Toast(ANALYSIS_COMPLETE, SuccessToast)];
      case Failed(message) =>
        ShowError(message);
    }
  }
}

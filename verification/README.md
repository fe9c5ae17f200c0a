# Gameplay clustering: a Dafny model of the registry and of the upload page

The app lets a user upload a gameplay video. The server samples about one
frame per second, turns every frame into a CLIP feature vector, and files the
vectors under a game: under the name the user gave for a labelled upload, or,
for an unlabelled one, under the registered game whose centroid is most
similar to the upload (or under the catch-all "No match of games found" when
no game reaches a similarity of 0.7). The browser page guards and posts the
upload, animates a simulated progress bar, and shows either the result panels
or an error.

The project has four modules:

- `Registry` (`registry.dfy`) models `main.py`. The module-level
  registry is the class `ClusterStore` with four fields:
  - `clusters`, a map from game to features;
  - `order`, the insertion order of its keys, which is Python's iteration order
    and decides ties in the best-match loop;
  - the parallel lists `labels` and `features`.

  `UploadVideo` states each outcome of `upload_video` and the new registry
  after each, including the failed request when a zero frame rate makes
  `extract_frames` divide by zero. `Valid()` is preserved by every update. It says:
  - the parallel lists have the same length;
  - every label names a registered game;
  - no game has an empty list;
  - `order` lists each key exactly once.

  The best-match loop, frame sampling and the plot's data are
  methods with loops proved against their specifications. `get_stats` is a
  function.
- `ClusteringUi` (`clustering_ui.dfy`) models `src/GameplayClusteringUi.js`.
  The page state is the class `UploadPage`. Its fields stand for:
  - the theme attribute, local storage and the theme icon;
  - the file selection and the drop-zone texts;
  - the toasts;
  - the progress counter and its label;
  - the button and spinner;
  - the result panels.

  Each handler is a method. Theme, file-type and size checks, trimming, phase
  labels, progress steps and reply classification are pure functions, with
  lemmas about them.
- `Interplay` (`interplay.dfy`) connects the two. It shows what the page makes
  of the replies the server really sends.
- `Wrappers` (`wrappers.dfy`) holds the `Option` type.

Feature vectors are opaque. The cosine similarity between the mean feature of
an upload and a cluster's centroid is a parameter of type
`(seq<Feature>, seq<Feature>) -> real`. So the argmax and threshold logic is
verified without floating point. The CLIP encoder is a parameter
`Frame -> Feature`. The decoded video is the sequence of frames the decoder
delivers.

Two behaviours of the code are easy to miss:

- Dropping a file that is not a video does not unset the file input. The input
  keeps its earlier selection, and only the displayed file name is cleared
  (`UploadPage.Drop`).
- The page treats a reply as a success only when it carries a truthy
  `success` member. No reply of the upload endpoint (`upload_video`) has one.
  So every upload reply of the real server, including a successful labelled upload and a detected game, is shown
  as an error (`Interplay.EveryServerReplyFails`). The plain-text error page
  the framework sends when `extract_frames` raises is not JSON, so the page
  shows "Server error. Try again." for it.

## Model

| member | source | states |
|---|---|---|
| `Registry.Repeat` | main.py:157 | `[name] * n` has length n and every element is `name` |
| `Registry.EncodeAll` | main.py:153 | one feature per frame, the i-th being the encoding of the i-th frame |
| `Registry.AddedMessage` | main.py:162 | the confirmation of a labelled upload has the game name at a fixed place, so the name can be read back from it |
| `Registry.IsNamed` | main.py:155 | the optional game name counts as given exactly when it is present and not empty |
| `Registry.Kept` | main.py:71-77 | the frames kept from the first n decoded ones are at most n |
| `Registry.Extracted` | main.py:65-80 | `extract_frames` fails exactly when the rate is 0 and a frame was read, and returns no frames exactly for an empty video |
| `Registry.KeptAreMultiples` | main.py:71-77 | the j-th kept frame is decoded frame j·fps, and the kept frames reach the last frame read: n ≤ kept·fps < n + fps |
| `Registry.ExtractFrames` | main.py:65-80 | the loop returns `Extracted`: the kept frames are exactly the frames at indices 0, fps, 2·fps, … below the video length, in order; a zero rate fails as soon as one frame was read, and an empty video yields no frames |
| `Registry.BestMatch` | main.py:177-186 | no match and similarity 0 exactly when no game scores above 0; otherwise the match is the first game with the highest score, that score is above 0 and is the returned similarity |
| `Registry.Stats` | main.py:123-126 | the statistics have exactly the registry's games as keys, each mapped to the number of that game's features |
| `Registry.RepeatCount` | main.py:92 | `[game] * n` contains `game` n times and no other value |
| `Registry.PlotLabelsMatch` | main.py:90-92 | the plot has one label per point, and a game labels exactly as many points as it has features |
| `Registry.PointCountIsStatsSum` | main.py:94-96 | the number of plotted points is the sum of the per-game statistics |
| `Registry.ClusterStore.constructor` | main.py:36-38 | the registry starts with no games and empty parallel lists, and satisfies the invariant |
| `Registry.ClusterStore.Record` | main.py:155-158 | stores a game's new list, adds a new game at the end of the iteration order, extends `labels` by the game repeated once per new feature and `features` by the new features, keeping the invariant |
| `Registry.ClusterStore.UploadVideo` | main.py:137-208 | a zero rate with a frame read: `extract_frames` raises, the reply is the framework's 500 "Internal Server Error" page, nothing changes; no frames: 400 "Could not process video", nothing changes; labelled with a name: the game's list becomes its old list (or none) followed by the new features, no other game changes, labels and features grow in step; labelled without a name: 400 "Invalid input", nothing changes; unlabelled with no stored features: the "No existing clusters" message, nothing changes; unlabelled with every score below 0.7: the no-match cluster is replaced by exactly the new features; otherwise the first best-scoring game, which is registered, is extended and named in the reply; the invariant (parallel lists of equal length and more) holds after every branch |
| `Registry.ClusterStore.VisualizeClusters` | main.py:83-97 | nothing to plot exactly when no game is registered or fewer than two features exist; otherwise every feature of every game in registration order, with its game as label |
| `ClusteringUi.InitialTheme` | src/GameplayClusteringUi.js:26-30 | the saved theme when one is saved and not empty, else "light" |
| `ClusteringUi.Toggled` | src/GameplayClusteringUi.js:32-33 | the new theme is "dark" exactly when the current one is "light", else "light" |
| `ClusteringUi.IconFor` | src/GameplayClusteringUi.js:40-43 | the moon icon exactly for "light", the sun icon for any other theme |
| `ClusteringUi.ToggleTwice` | src/GameplayClusteringUi.js:31-36 | starting from "light" or "dark", two toggles give back the starting theme |
| `ClusteringUi.ToggleSurvivesReload` | src/GameplayClusteringUi.js:26-36 | the theme saved by a toggle is the theme the next page load applies |
| `ClusteringUi.ReloadAfterToggle` | src/GameplayClusteringUi.js:26-39 | after a click on the switch, a page opened with the storage it left has the same theme and icon as the clicked page |
| `ClusteringUi.IsVideoType` | src/GameplayClusteringUi.js:67 | a type is accepted exactly when it is "video/" followed by anything |
| `ClusteringUi.RejectionMessage` | src/GameplayClusteringUi.js:105-112 | the toast for a missing file is "Please select a video file.", the one for an oversized file "File too large. Max 2GB." |
| `ClusteringUi.CheckFile` | src/GameplayClusteringUi.js:105-113 | no file, a first file over 2·1024³ bytes, or an accepted first file (exactly 2·1024³ bytes is accepted) |
| `ClusteringUi.TrimStart` | src/GameplayClusteringUi.js:118 | the name with its leading white space removed is no longer than the input and does not start with white space |
| `ClusteringUi.TrimEnd` | src/GameplayClusteringUi.js:118 | the name with its trailing white space removed is no longer than the input and does not end with white space |
| `ClusteringUi.TrimStartIsSuffix` | src/GameplayClusteringUi.js:118 | removing leading white space keeps a suffix of the input, and everything removed is white space |
| `ClusteringUi.TrimEndIsPrefix` | src/GameplayClusteringUi.js:118 | removing trailing white space keeps a prefix of the input, and everything removed is white space |
| `ClusteringUi.Trim` | src/GameplayClusteringUi.js:118 | the game name sent is no longer than the typed one and neither starts nor ends with white space |
| `ClusteringUi.TrimIsSlice` | src/GameplayClusteringUi.js:118 | the game name sent is the slice of the typed one between an all-white-space prefix and an all-white-space suffix |
| `ClusteringUi.PhaseLabel` | src/GameplayClusteringUi.js:158-160 | "Uploading..." exactly below 30, "Analyzing frames..." exactly from 30 below 70, "Finalizing clusters..." exactly from 70 |
| `ClusteringUi.TickStep` | src/GameplayClusteringUi.js:150-162 | a stopped interval does not move; a running interval stops exactly when the counter has reached 100; a tick raises the counter by at most 1 and never past 100; a tick that keeps running adds exactly 1 and labels the new value by its phase; the tick that stops keeps the counter and shows "Processing complete" |
| `ClusteringUi.ProgressRun` | src/GameplayClusteringUi.js:145-163 | after n ≤ 100 ticks from the start the counter is n with its phase label and still running; every later tick leaves it stopped at 100 with "Processing complete" |
| `ClusteringUi.OrElse` | src/GameplayClusteringUi.js:136 | the JavaScript "or" fallback on a string member: the member when present and non-empty, else the fallback |
| `ClusteringUi.ErrorText` | src/GameplayClusteringUi.js:136 | the reply's `error` if non-empty, else its `message` if non-empty, else "Failed to process the video."; never empty |
| `ClusteringUi.Cards` | src/GameplayClusteringUi.js:205-216 | one stat card per cluster, numbered 1..n in reply order, with that cluster's frames and label |
| `ClusteringUi.ResultOf` | src/GameplayClusteringUi.js:166-229 | title is the game or "Unnamed Game"; the cluster count is the length of `clusters`, or 0 when absent; cards are shown exactly when that count is positive, one per cluster numbered from 1 with that cluster's frames and label; the image is the visualization or the placeholder |
| `ClusteringUi.Classify` | src/GameplayClusteringUi.js:132-137 | success exactly when the reply is ok and says `success`, showing the result panels; otherwise the error text |
| `ClusteringUi.VerdictOf` | src/GameplayClusteringUi.js:124-141 | a network failure or a body that is not JSON gives "Server error. Try again."; any other reply is classified; a failure message is never empty |
| `ClusteringUi.UploadPage.constructor` | src/GameplayClusteringUi.js:308-313 | on load the theme is the initial theme of what is saved, the icon matches it, nothing is selected, loading is off |
| `ClusteringUi.UploadPage.ToggleTheme` | src/GameplayClusteringUi.js:31-39 | the theme becomes the toggled one, the saved value equals the new theme, the icon matches it, nothing else changes |
| `ClusteringUi.UploadPage.Drop` | src/GameplayClusteringUi.js:62-77 | a drop whose first file is a video replaces the selection and shows its name; another non-empty drop keeps the selection, clears the name, and shows "Invalid file type!" and an error toast; an empty drop changes nothing |
| `ClusteringUi.UploadPage.ChooseFiles` | src/GameplayClusteringUi.js:90-98 | the selection is the chosen files; the shown name is the first file's, or empty with the drop prompt |
| `ClusteringUi.UploadPage.ShowLoading` | src/GameplayClusteringUi.js:269-281 | the button is disabled and the spinner visible exactly when loading is switched on |
| `ClusteringUi.UploadPage.ResetUi` | src/GameplayClusteringUi.js:262-268 | the bar is back at 0 with "Starting analysis..." in its normal colour, and the panels are hidden |
| `ClusteringUi.UploadPage.StartProgress` | src/GameplayClusteringUi.js:145-149 | the progress restarts at 0 with "Uploading..." and a running interval |
| `ClusteringUi.UploadPage.Tick` | src/GameplayClusteringUi.js:150-162 | one tick is `TickStep`: the counter rises by at most 1 and never passes 100 |
| `ClusteringUi.UploadPage.Submit` | src/GameplayClusteringUi.js:102-122 | without a file or with one over 2 GiB: an error toast and no request, nothing else changes; otherwise the request carries the first file, the checkbox and the trimmed name, the panels are reset, loading is on and the progress starts |
| `ClusteringUi.UploadPage.ShowError` | src/GameplayClusteringUi.js:239-243 | the message replaces the progress label, the bar turns to the error colour, an error toast is added |
| `ClusteringUi.UploadPage.ReceiveReply` | src/GameplayClusteringUi.js:124-141 | loading is off; a success shows the result panels and a success toast; a failure shows its message and an error toast and keeps the previous result |
| `Interplay.Received` | src/GameplayClusteringUi.js:128-129 | a reply of the upload endpoint keeps its `ok` status; its body fails to parse exactly when it is the framework's plain-text error page, and a parsed body never says `success` |
| `Interplay.EveryServerReplyFails` | src/GameplayClusteringUi.js:132-137 | every reply of the upload endpoint is classified as a failure: an error or message is shown as itself, a detected game as "Failed to process the video.", the plain-text error page as "Server error. Try again." |

## Left out

- Loading the CLIP model and `extract_features` are foreign calls. The encoder is the parameter `encode`.
- OpenCV decoding is a foreign call. The video is the sequence of frames read before the first failed read. A capture that does not open yields no frames.
- The frame rate comes from truncating OpenCV's floating-point rate with `int()`. The model leaves that truncation out and takes the rate as a whole non-negative number.
- When `extract_frames` raises, the temporary video file is not deleted. Files on disk are not modelled.
- The reply to an uncaught exception comes from the web framework, not from `main.py`. The model takes it to be a 500 with the plain-text body "Internal Server Error", the framework's default. Only the fact that it is not JSON matters to the page.
- `np.mean` centroids and `cosine_similarity` are floating point. They are the uninterpreted `Similarity` parameter.
- PCA, plotting, saving the image and its UUID file name are numerics and I/O. `VisualizeClusters` returns the points and labels that would be plotted instead of the image path.
- The `/visualize_clusters` route that wraps `visualize_clusters` into an `image_url` or a 404 is not part of this model.
- The calls to `visualize_clusters` after an upload are not modelled. Their result is discarded, and they only write an image file.
- `load_clusters` and `save_clusters` are pickle file I/O. The registry starts empty, and saving changes no state.
- Temporary video files, FastAPI routing, form parsing, CORS and static mounting are framework plumbing.
- `ClusteringUi.UploadPage.StartProgress`: the model has one progress counter. A submit while an earlier interval is still running restarts that counter. The page instead leaves the earlier interval running, and both intervals write the same elements.
- Timers are not modelled. The caller of `Tick` stands for the 30 ms interval, and the result panels become visible at once instead of after their delays.
- These parts of the page are DOM, animation or browser I/O, not state the handlers keep:
  - the theme-transition class;
  - drag highlighting;
  - the keyboard and browse handlers that open the file picker;
  - card animations;
  - toast removal;
  - opening and downloading the visualization.
- The progress bar's width equals the shown percentage, so it is not a separate field. The width of each stat card's fill is a floating-point ratio and is left out.
- `ClusteringUi.ResultOf`: members of the reply are typed, either as strings or as numbers. JavaScript truthiness of values of other types is not modelled. `success` is reduced to its truthiness.
- The HTML that the result text is inserted into is not modelled. Only the values shown are.
- The text of the drop zone and the progress label before any handler runs comes from HTML that is not part of this model. The constructor picks the drop prompt and an empty label.
- `src/index.js` only renders the page and holds no logic, so it is not part of this model.

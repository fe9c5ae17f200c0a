/** The server side of the gameplay-clustering app: an in-memory registry of
    feature vectors grouped by game, the rule that decides where the features
    of an uploaded video go, frame sampling, per-game statistics and the data
    handed to the cluster plot.

    Feature vectors are opaque values, and the cosine similarity between the
    mean feature of an upload and the centroid of a cluster is an
    uninterpreted function into the reals, passed in by the caller. */
module Registry {
  import opened Wrappers

  /** A CLIP image embedding. Its numbers are never inspected by the model. */
  type Feature = seq<real>

  /** Cosine similarity between the mean of the first list of features and the
      mean (centroid) of the second. */
  type Similarity = (seq<Feature>, seq<Feature>) -> real

  /** Minimum similarity for an unlabelled upload to join an existing game. */
  const CONFIDENCE_THRESHOLD: real := 0.7

  /** The cluster that collects unlabelled uploads that match no known game. */
  const NO_MATCH: string := "No match of games found"

  const STATUS_OK: int := 200
  const STATUS_BAD_REQUEST: int := 400
  const STATUS_INTERNAL_ERROR: int := 500

  /** The plain-text body the web framework sends when a handler raises. */
  const INTERNAL_SERVER_ERROR: string := "Internal Server Error"

  const COULD_NOT_PROCESS: string := "Could not process video"
  const NO_EXISTING_CLUSTERS: string := "No existing clusters to compare with"
  const INVALID_INPUT: string := "Invalid input. Provide a game name for labeled videos."

  /** The body of a reply of the upload endpoint: a JSON object with exactly
      one member, or the framework's plain-text page for an uncaught error. */
  datatype Body =
    | ErrorBody(error: string)
    | MessageBody(message: string)
    | GameBody(game: string)
    | PlainTextBody(text: string)

  datatype Response = Response(status: int, body: Body)

  /** The confirmation sent back for a labelled upload. */
  function AddedMessage(name: string): (message: string)
    ensures |message| == |name| + |"New game '' added to clusters."|
    ensures message[10..10 + |name|] == name
  {
    "New game '" + name + "' added to clusters."
  }

  /** Python truthiness of the optional `game_name` form field: present and non-empty. */
  predicate IsNamed(gameName: Option<string>)
    ensures IsNamed(gameName) <==> exists name :: gameName == Some(name) && |name| > 0
  {
    gameName.Some? && gameName.value != ""
  }

  /** `[name] * n`: the label list that accompanies n new features. */
  function Repeat(name: string, n: nat): (r: seq<string>)
    ensures |r| == n
    ensures forall i :: 0 <= i < n ==> r[i] == name
  {
    if n == 0 then [] else Repeat(name, n - 1) + [name]
  }

  /** The features of every frame, in frame order. */
  function EncodeAll<Frame>(frames: seq<Frame>, encode: Frame -> Feature): (r: seq<Feature>)
    ensures |r| == |frames|
    ensures forall i :: 0 <= i < |frames| ==> r[i] == encode(frames[i])
  {
    seq(|frames|, i requires 0 <= i < |frames| => encode(frames[i]))
  }

  /** The frames among the first `n` decoded ones that `extract_frames` keeps:
      those whose index is a multiple of `fps`. */
  function Kept<Frame>(video: seq<Frame>, fps: nat, n: nat): (r: seq<Frame>)
    requires fps > 0 && n <= |video|
    ensures |r| <= n
  {
    if n == 0 then []
    else Kept(video, fps, n - 1) + (if (n - 1) % fps == 0 then [video[n - 1]] else [])
  }

  /** What `extract_frames` makes of a whole video: the kept frames, or `None`
      when a zero rate divides by zero, which happens as soon as one frame has
      been read. */
  function Extracted<Frame>(video: seq<Frame>, fps: nat): (r: Option<seq<Frame>>)
    ensures r.None? <==> fps == 0 && video != []
    ensures r == Some([]) <==> video == []
  {
    if fps > 0 then
      var kept := Kept(video, fps, |video|);
      assert video != [] ==> kept != [] by {
        if video != [] {
          KeptAreMultiples(video, fps, |video|);
        }
      }
      Some(kept)
    else if video == [] then Some([])
    else None
  }

  /** Exactly one frame in every `fps` is kept: the j-th kept frame is frame
      `j * fps`, and the kept frames reach the end of what was read. */
  lemma {:induction false} KeptAreMultiples<Frame>(video: seq<Frame>, fps: nat, n: nat)
    requires fps > 0 && n <= |video|
    ensures var r := Kept(video, fps, n);
      && n <= |r| * fps < n + fps
      && (forall j :: 0 <= j < |r| ==> j * fps < n && r[j] == video[j * fps])
  {
    if n > 0 {
      var before := Kept(video, fps, n - 1);
      KeptAreMultiples(video, fps, n - 1);
      KeptExactlyAtNext(n - 1, |before|, fps);
      if (n - 1) % fps == 0 {
        NextMultiple(|before|, fps);
      }
    }
  }

  /** Samples one frame per `fps` decoded frames: the frames whose index is a
      multiple of `fps`, in order. `video` is the sequence of frames the decoder
      delivers before its first failed read. A zero rate divides by zero as soon
      as one frame has been read; that failure is `None`. */
  method ExtractFrames<Frame>(video: seq<Frame>, fps: nat) returns (r: Option<seq<Frame>>)
    ensures r == Extracted(video, fps)
    ensures r.None? <==> fps == 0 && video != []
    ensures r.Some? ==> forall j :: 0 <= j < |r.value| ==> j * fps < |video| && r.value[j] == video[j * fps]
    ensures r.Some? ==> |video| <= |r.value| * fps
  {
    var frames: seq<Frame> := [];
    var frameCount := 0;
    while frameCount < |video|
      invariant frameCount <= |video|
      invariant fps == 0 ==> frameCount == 0 && frames == []
      invariant fps > 0 ==> frames == Kept(video, fps, frameCount)
    {
      if fps == 0 {
        return None;
      }
      if frameCount % fps == 0 {
        frames := frames + [video[frameCount]];
      }
      frameCount := frameCount + 1;
    }
    if fps > 0 {
      KeptAreMultiples(video, fps, |video|);
    }
    r := Some(frames);
  }

  /** One step along the multiples of `fps`. */
  lemma NextMultiple(n: nat, fps: nat)
    requires fps > 0
    ensures (n + 1) * fps == n * fps + fps
  {
  }

  /** A multiple of `fps` that is at least `fps` away from 0 in the positive direction. */
  lemma MultipleAtLeast(k: int, fps: nat)
    requires fps > 0 && k >= 1
    ensures k * fps >= fps
  {
  }

  /** The remainder of a division is determined by any quotient-remainder
      decomposition with the remainder in range. */
  lemma RemainderUnique(x: int, q: int, r: int, y: nat)
    requires y > 0 && x == q * y + r && 0 <= r < y
    ensures x % y == r
  {
    var q', r' := x / y, x % y;
    assert (q - q') * y == r' - r;
    if q - q' >= 1 {
      MultipleAtLeast(q - q', y);
      assert false;
    }
    if q - q' <= -1 {
      MultipleAtLeast(q' - q, y);
      assert false;
    }
  }

  /** Between one multiple of `fps` (exclusive) and the next (inclusive), only
      the next one is divisible by `fps`. */
  lemma KeptExactlyAtNext(count: nat, b: nat, fps: nat)
    requires fps > 0 && count <= b * fps < count + fps
    ensures count % fps == 0 <==> count == b * fps
  {
    var next := b * fps;
    RemainderUnique(next, b, 0, fps);
    if count % fps == 0 {
      var a := count / fps;
      assert count == a * fps;
      assert (b - a) * fps == next - count;
      if b - a >= 1 {
        MultipleAtLeast(b - a, fps);
        assert false;
      }
      if b - a <= -1 {
        MultipleAtLeast(a - b, fps);
        assert false;
      }
    }
  }

  /** `score` reaches its largest value over `games` at index `k`, and at no
      earlier index. */
  predicate IsFirstBest(games: seq<string>, score: string -> real, k: int)
  {
    && 0 <= k < |games|
    && (forall j :: 0 <= j < k ==> score(games[j]) < score(games[k]))
    && (forall j :: 0 <= j < |games| ==> score(games[j]) <= score(games[k]))
  }

  /** The best-match loop of an unlabelled upload: a running maximum that
      starts at 0 and moves only on a strictly greater similarity. */
  method BestMatch(games: seq<string>, similarity: string -> real) returns (best: Option<string>, bestSimilarity: real)
    ensures best.None? <==> forall j :: 0 <= j < |games| ==> similarity(games[j]) <= 0.0
    ensures best.None? ==> bestSimilarity == 0.0
    ensures best.Some? ==> bestSimilarity > 0.0
    ensures best.Some? ==> exists k :: IsFirstBest(games, similarity, k) && games[k] == best.value && similarity(games[k]) == bestSimilarity
  {
    best, bestSimilarity := None, 0.0;
    ghost var bestIndex := 0;
    var i := 0;
    while i < |games|
      invariant 0 <= i <= |games|
      invariant best.None? <==> forall j :: 0 <= j < i ==> similarity(games[j]) <= 0.0
      invariant best.None? ==> bestSimilarity == 0.0
      invariant bestSimilarity >= 0.0
      invariant forall j :: 0 <= j < i ==> similarity(games[j]) <= bestSimilarity
      invariant best.Some? ==> 0 <= bestIndex < i && games[bestIndex] == best.value && similarity(games[bestIndex]) == bestSimilarity
      invariant best.Some? ==> forall j :: 0 <= j < bestIndex ==> similarity(games[j]) < bestSimilarity
    {
      var s := similarity(games[i]);
      if s > bestSimilarity {
        best, bestSimilarity := Some(games[i]), s;
        bestIndex := i;
      }
      i := i + 1;
    }
    if best.Some? {
      assert IsFirstBest(games, similarity, bestIndex);
    }
  }

  /** The similarity of an upload to each registered game; 0 for a name that
      is not registered (the loop never asks for one). */
  function ScoreOf(clusters: map<string, seq<Feature>>, upload: seq<Feature>, similarity: Similarity): string -> real
  {
    g => if g in clusters then similarity(upload, clusters[g]) else 0.0
  }

  /** `get_stats`: the number of features held for every game. */
  function Stats(clusters: map<string, seq<Feature>>): (stats: map<string, nat>)
    ensures stats.Keys == clusters.Keys
    ensures forall g :: g in stats ==> stats[g] == |clusters[g]|
  {
    map g | g in clusters :: |clusters[g]|
  }

  /** The sum of `counts` over `games`. */
  function CountSum(games: seq<string>, counts: map<string, nat>): nat
    requires forall i :: 0 <= i < |games| ==> games[i] in counts
  {
    if games == [] then 0 else CountSum(games[..|games| - 1], counts) + counts[games[|games| - 1]]
  }

  /** The features of `games`, concatenated in the order of `games`. */
  function Points(games: seq<string>, clusters: map<string, seq<Feature>>): seq<Feature>
    requires forall i :: 0 <= i < |games| ==> games[i] in clusters
  {
    if games == [] then []
    else Points(games[..|games| - 1], clusters) + clusters[games[|games| - 1]]
  }

  /** The game of every point of `Points(games, clusters)`. */
  function PointLabels(games: seq<string>, clusters: map<string, seq<Feature>>): seq<string>
    requires forall i :: 0 <= i < |games| ==> games[i] in clusters
  {
    if games == [] then []
    else
      var g := games[|games| - 1];
      PointLabels(games[..|games| - 1], clusters) + Repeat(g, |clusters[g]|)
  }

  /** What the cluster plot is drawn from: one label per point. */
  datatype Plot = Plot(points: seq<Feature>, labels: seq<string>)

  /** `[name] * n` holds `name` n times and nothing else. */
  lemma {:induction false} RepeatCount(name: string, n: nat, g: string)
    ensures multiset(Repeat(name, n))[g] == if g == name then n else 0
  {
    if n > 0 {
      RepeatCount(name, n - 1, g);
      assert multiset(Repeat(name, n)) == multiset(Repeat(name, n - 1)) + multiset{name};
    }
  }

  /** Each point of the plot carries a label, and a game that appears once in
      `games` labels exactly as many points as it has features. */
  lemma {:induction false} PlotLabelsMatch(games: seq<string>, clusters: map<string, seq<Feature>>, g: string)
    requires forall i :: 0 <= i < |games| ==> games[i] in clusters
    requires forall i, j :: 0 <= i < j < |games| ==> games[i] != games[j]
    ensures |PointLabels(games, clusters)| == |Points(games, clusters)|
    ensures multiset(PointLabels(games, clusters))[g] == if g in games then |clusters[g]| else 0
  {
    if games != [] {
      var init, last := games[..|games| - 1], games[|games| - 1];
      PlotLabelsMatch(init, clusters, g);
      RepeatCount(last, |clusters[last]|, g);
      assert games == init + [last];
      assert g in games <==> g in init || g == last;
      assert g == last ==> g !in init;
    }
  }

  /** The number of plotted points is the sum of the statistics of the plotted games. */
  lemma {:induction false} PointCountIsStatsSum(games: seq<string>, clusters: map<string, seq<Feature>>)
    requires forall i :: 0 <= i < |games| ==> games[i] in clusters
    ensures |Points(games, clusters)| == CountSum(games, Stats(clusters))
  {
    if games != [] {
      PointCountIsStatsSum(games[..|games| - 1], clusters);
    }
  }

  /** The module-level registry of main.py. `order` is the order in which the
      keys of `clusters` were inserted, the order in which Python iterates them;
      `labels` and `features` are the two parallel lists. */
  class ClusterStore {
    var clusters: map<string, seq<Feature>>
    var order: seq<string>
    var labels: seq<string>
    var features: seq<Feature>

    /** The two lists stay parallel, `order` lists each key once, no game is
        registered without features, and every label names a registered game. */
    ghost predicate Valid()
      reads this
    {
      && |labels| == |features|
      && (forall g :: g in clusters <==> g in order)
      && (forall i, j :: 0 <= i < j < |order| ==> order[i] != order[j])
      && (forall g :: g in clusters ==> |clusters[g]| > 0)
      && (forall i :: 0 <= i < |labels| ==> labels[i] in clusters)
    }

    /** The registry when the server starts without a saved one. */
    constructor ()
      ensures Valid()
      ensures clusters == map[] && order == [] && labels == [] && features == []
    {
      clusters, order, labels, features := map[], [], [], [];
    }

    /** `upload_video`: `video` is what the decoder delivers for the uploaded
        file, `fps` its truncated frame rate and `encode` the CLIP encoder. */
    method UploadVideo<Frame>(video: seq<Frame>, fps: nat, encode: Frame -> Feature, isLabeled: bool,
                              gameName: Option<string>, similarity: Similarity)
      returns (resp: Response)
      requires Valid()
      modifies this
      ensures Valid()
      // A zero rate with a frame read: `extract_frames` raises, the request
      // fails with the framework's error page, and nothing changes.
      ensures Extracted(video, fps).None? ==>
        && resp == Response(STATUS_INTERNAL_ERROR, PlainTextBody(INTERNAL_SERVER_ERROR))
        && clusters == old(clusters) && order == old(order)
        && labels == old(labels) && features == old(features)
      // No frames: an error, and nothing changes.
      ensures Extracted(video, fps) == Some([]) ==>
        && resp == Response(STATUS_BAD_REQUEST, ErrorBody(COULD_NOT_PROCESS))
        && clusters == old(clusters) && order == old(order)
        && labels == old(labels) && features == old(features)
      // A labelled upload with a name: appended under that name.
      ensures var x := Extracted(video, fps);
        x.Some? && x.value != [] && isLabeled && IsNamed(gameName) ==>
        var frames, name := x.value, gameName.value;
        var upload := EncodeAll(frames, encode);
        && resp == Response(STATUS_OK, MessageBody(AddedMessage(name)))
        && clusters == old(clusters)[name := (if name in old(clusters) then old(clusters)[name] else []) + upload]
        && order == old(order) + (if name in old(clusters) then [] else [name])
        && labels == old(labels) + Repeat(name, |frames|)
        && features == old(features) + upload
      // A labelled upload without a name: an error, and nothing changes.
      ensures var x := Extracted(video, fps);
        x.Some? && x.value != [] && isLabeled && !IsNamed(gameName) ==>
        && resp == Response(STATUS_BAD_REQUEST, ErrorBody(INVALID_INPUT))
        && clusters == old(clusters) && order == old(order)
        && labels == old(labels) && features == old(features)
      // An unlabelled upload with nothing to compare against: a message, and nothing changes.
      ensures var x := Extracted(video, fps);
        x.Some? && x.value != [] && !isLabeled && old(features) == [] ==>
        && resp == Response(STATUS_OK, MessageBody(NO_EXISTING_CLUSTERS))
        && clusters == old(clusters) && order == old(order)
        && labels == old(labels) && features == old(features)
      // An unlabelled upload below the threshold everywhere: the no-match cluster is overwritten.
      ensures var x := Extracted(video, fps);
        x.Some? && x.value != [] && !isLabeled && old(features) != [] ==>
        var frames := x.value;
        var upload := EncodeAll(frames, encode);
        var score := ScoreOf(old(clusters), upload, similarity);
        (forall i :: 0 <= i < |old(order)| ==> score(old(order)[i]) < CONFIDENCE_THRESHOLD) ==>
          && resp == Response(STATUS_OK, GameBody(NO_MATCH))
          && clusters == old(clusters)[NO_MATCH := upload]
          && order == old(order) + (if NO_MATCH in old(clusters) then [] else [NO_MATCH])
          && labels == old(labels) + Repeat(NO_MATCH, |frames|)
          && features == old(features) + upload
      // Otherwise: appended to the first most similar game.
      ensures var x := Extracted(video, fps);
        x.Some? && x.value != [] && !isLabeled && old(features) != [] ==>
        var frames := x.value;
        var upload := EncodeAll(frames, encode);
        var score := ScoreOf(old(clusters), upload, similarity);
        !(forall i :: 0 <= i < |old(order)| ==> score(old(order)[i]) < CONFIDENCE_THRESHOLD) ==>
          exists k :: IsFirstBest(old(order), score, k) &&
            var game := old(order)[k];
            && game in old(clusters)
            && resp == Response(STATUS_OK, GameBody(game))
            && clusters == old(clusters)[game := old(clusters)[game] + upload]
            && order == old(order)
            && labels == old(labels) + Repeat(game, |frames|)
            && features == old(features) + upload
    {
      var extracted := ExtractFrames(video, fps);
      if extracted.None? {
        return Response(STATUS_INTERNAL_ERROR, PlainTextBody(INTERNAL_SERVER_ERROR));
      }
      var frames := extracted.value;
      if frames == [] {
        return Response(STATUS_BAD_REQUEST, ErrorBody(COULD_NOT_PROCESS));
      }
      var upload := EncodeAll(frames, encode);
      if isLabeled && IsNamed(gameName) {
        var name := gameName.value;
        var existing := if name in clusters then clusters[name] else [];
        Record(name, existing + upload, upload);
        return Response(STATUS_OK, MessageBody(AddedMessage(name)));
      } else if !isLabeled {
        if features == [] {
          return Response(STATUS_OK, MessageBody(NO_EXISTING_CLUSTERS));
        }
        var score := ScoreOf(clusters, upload, similarity);
        var best, bestSimilarity := BestMatch(order, score);
        if bestSimilarity < CONFIDENCE_THRESHOLD {
          Record(NO_MATCH, upload, upload);
          return Response(STATUS_OK, GameBody(NO_MATCH));
        } else {
          ghost var k :| IsFirstBest(order, score, k) && order[k] == best.value && score(order[k]) == bestSimilarity;
          var game := best.value;
          Record(game, clusters[game] + upload, upload);
          return Response(STATUS_OK, GameBody(game));
        }
      } else {
        return Response(STATUS_BAD_REQUEST, ErrorBody(INVALID_INPUT));
      }
    }

    /** Stores `cluster` as the list of `name` (a new key goes last in the
        iteration order) and extends both parallel lists by `upload`. */
    method Record(name: string, cluster: seq<Feature>, upload: seq<Feature>)
      requires Valid() && cluster != []
      modifies this
      ensures Valid()
      ensures clusters == old(clusters)[name := cluster]
      ensures order == old(order) + (if name in old(clusters) then [] else [name])
      ensures labels == old(labels) + Repeat(name, |upload|)
      ensures features == old(features) + upload
    {
      if name !in clusters {
        order := order + [name];
      }
      clusters := clusters[name := cluster];
      labels := labels + Repeat(name, |upload|);
      features := features + upload;
    }

    /** `visualize_clusters` up to the plot itself: nothing when no game is
        registered or fewer than two points exist, else every feature with its
        game, in registration order. */
    method VisualizeClusters() returns (plot: Option<Plot>)
      requires Valid()
      ensures plot.None? <==> clusters == map[] || |Points(order, clusters)| < 2
      ensures plot.Some? ==> plot.value == Plot(Points(order, clusters), PointLabels(order, clusters))
    {
      if clusters == map[] {
        return None;
      }
      var allData: seq<Feature> := [];
      var allLabels: seq<string> := [];
      var i := 0;
      while i < |order|
        invariant 0 <= i <= |order|
        invariant allData == Points(order[..i], clusters)
        invariant allLabels == PointLabels(order[..i], clusters)
      {
        var game := order[i];
        assert order[..i + 1][..i] == order[..i];
        allData := allData + clusters[game];
        allLabels := allLabels + Repeat(game, |clusters[game]|);
        i := i + 1;
      }
      assert order[..|order|] == order;
      if |allData| < 2 {
        return None;
      }
      return Some(Plot(allData, allLabels));
    }
  }
}

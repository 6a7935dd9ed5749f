/**
 * The replay player's cursor: the frame shown, whether playback runs, and
 * the set of frame URLs already preloaded.  Each handler is a method on the
 * player state; the index updaters are pure functions of the previous index.
 *
 * The timer is left out: one interval firing is the method `Tick`.  The
 * browser's image loader is recorded as the list of URLs requested.
 */
module ReplayScrubber {
  import opened Wrappers
  import Replay

  /** How many frames, from the current one on, are fetched ahead. */
  const PreloadAhead: nat := 5

  datatype Key = ArrowLeft | ArrowRight | Space | OtherKey

  /** `Math.max(0, prev - 1)`. */
  function Back(prev: int): (r: int)
    ensures r >= 0
    ensures prev > 0 ==> r == prev - 1
    ensures prev <= 0 ==> r == 0
  {
    if prev - 1 > 0 then prev - 1 else 0
  }

  /** `Math.min(total - 1, prev + 1)`. */
  function Forward(prev: int, total: int): (r: int)
    ensures r <= total - 1
    ensures prev < total - 1 ==> r == prev + 1
    ensures prev >= total - 1 ==> r == total - 1
  {
    if total - 1 < prev + 1 then total - 1 else prev + 1
  }

  /** The index after one playback tick, and whether playback goes on. */
  function TickIndex(prev: int, total: int): (r: (int, bool))
    ensures prev >= total - 1 ==> r == (prev, false)
    ensures prev < total - 1 ==> r == (prev + 1, true)
  {
    if prev >= total - 1 then (prev, false) else (prev + 1, true)
  }

  /** Stepping forward then back, or back then forward, away from the ends returns to the same frame. */
  lemma BackForwardInverse(i: int, total: int)
    requires 0 <= i < total
    ensures i < total - 1 ==> Back(Forward(i, total)) == i
    ensures i > 0 ==> Forward(Back(i), total) == i
  {
  }

  /** From frame `i`, `k` ticks (while playback lasts) reach frame `min(i + k, total - 1)`. */
  function Play(i: int, total: int, k: nat): (r: (int, bool))
  {
    if k == 0 then (i, true)
    else
      var (j, playing) := Play(i, total, k - 1);
      if playing then TickIndex(j, total) else (j, false)
  }

  /** Playback from frame `i` stops on the last frame, after exactly `total - 1 - i` advances. */
  lemma {:induction false} PlayReachesEnd(i: int, total: int, k: nat)
    requires 0 <= i < total
    ensures k <= total - 1 - i ==> Play(i, total, k) == (i + k, true)
    ensures k > total - 1 - i ==> Play(i, total, k) == (total - 1, false)
  {
    if k > 0 {
      PlayReachesEnd(i, total, k - 1);
    }
  }

  /** The URLs of frames `[from, to)`, in order, each listed once and only if not in `seen`. */
  function NewUrls(frames: seq<Replay.ManifestFrame>, from: nat, to: nat, seen: set<string>): (r: seq<string>)
    requires from <= to <= |frames|
    decreases |frames| - from
  {
    if from == to then []
    else if frames[from].url in seen then NewUrls(frames, from + 1, to, seen)
    else [frames[from].url] + NewUrls(frames, from + 1, to, seen + {frames[from].url})
  }

  function Elems(s: seq<string>): set<string> {
    set u | u in s
  }

  /** The URLs of frames `[from, to)`. */
  function WindowUrls(frames: seq<Replay.ManifestFrame>, from: nat, to: nat): set<string>
    requires from <= to <= |frames|
  {
    set k | from <= k < to :: frames[k].url
  }

  predicate NoDuplicates(s: seq<string>) {
    forall a, b :: 0 <= a < b < |s| ==> s[a] != s[b]
  }

  /** Each new URL is fresh, appears once, and together with `seen` they are exactly the window's URLs. */
  lemma {:induction false} NewUrlsFresh(frames: seq<Replay.ManifestFrame>, from: nat, to: nat, seen: set<string>)
    requires from <= to <= |frames|
    ensures NoDuplicates(NewUrls(frames, from, to, seen))
    ensures forall u :: u in NewUrls(frames, from, to, seen) ==> u !in seen
    ensures seen + Elems(NewUrls(frames, from, to, seen)) == seen + WindowUrls(frames, from, to)
    decreases |frames| - from
  {
    if from < to {
      var u := frames[from].url;
      var seen' := if u in seen then seen else seen + {u};
      NewUrlsFresh(frames, from + 1, to, seen');
      var rest := NewUrls(frames, from + 1, to, seen');
      var r := NewUrls(frames, from, to, seen);
      assert r == if u in seen then rest else [u] + rest;
      assert Elems(r) == (if u in seen then {} else {u}) + Elems(rest);
      assert WindowUrls(frames, from, to) == {u} + WindowUrls(frames, from + 1, to);
    }
  }

  /** One iteration of the preload loop keeps what is still to be requested in step with what was. */
  lemma PreloadStep(frames: seq<Replay.ManifestFrame>, i: nat, end: nat, req: seq<string>, pre: set<string>)
    requires i < end <= |frames|
    requires NoDuplicates(req) && pre == Elems(req)
    ensures var u := frames[i].url;
      var req' := if u in pre then req else req + [u];
      var pre' := if u in pre then pre else pre + {u};
      && req' + NewUrls(frames, i + 1, end, pre') == req + NewUrls(frames, i, end, pre)
      && pre' + WindowUrls(frames, i + 1, end) == pre + WindowUrls(frames, i, end)
      && NoDuplicates(req') && pre' == Elems(req')
  {
    var u := frames[i].url;
    assert WindowUrls(frames, i, end) == {u} + WindowUrls(frames, i + 1, end);
    if u !in pre {
      assert Elems(req + [u]) == Elems(req) + {u};
    }
  }

  /**
   * The preload loop over frames `[start, end)`: each URL not in `pre` is
   * requested and added to it.
   */
  method PreloadWindow(frames: seq<Replay.ManifestFrame>, start: nat, end: nat, req0: seq<string>, pre0: set<string>)
    returns (req: seq<string>, pre: set<string>)
    requires start <= end <= |frames|
    requires NoDuplicates(req0) && pre0 == Elems(req0)
    ensures req == req0 + NewUrls(frames, start, end, pre0)
    ensures pre == pre0 + WindowUrls(frames, start, end)
    ensures NoDuplicates(req) && pre == Elems(req)
  {
    req, pre := req0, pre0;
    var i := start;
    while i < end
      invariant start <= i <= end
      invariant req + NewUrls(frames, i, end, pre) == req0 + NewUrls(frames, start, end, pre0)
      invariant pre + WindowUrls(frames, i, end) == pre0 + WindowUrls(frames, start, end)
      invariant NoDuplicates(req) && pre == Elems(req)
    {
      PreloadStep(frames, i, end, req, pre);
      var url := frames[i].url;
      if url !in pre {
        req := req + [url];
        pre := pre + {url};
      }
      i := i + 1;
    }
    assert WindowUrls(frames, end, end) == {};
  }

  class Player {
    /** The loaded manifest's frames, or `None` while loading or after a failed fetch. */
    var manifest: Option<seq<Replay.ManifestFrame>>
    var currentIndex: int
    var isPlaying: bool
    /** `preloadedRef`: the URLs handed to the image loader so far. */
    var preloaded: set<string>
    /** The image loads started, in order. */
    var requested: seq<string>

    function Total(): nat
      reads this
    {
      if manifest.Some? then |manifest.value| else 0
    }

    /**
     * The cursor is on a frame whenever there is one and on 0 otherwise,
     * playback is off before the manifest arrives, and every URL was requested exactly once.
     */
    predicate Valid()
      reads this
    {
      && currentIndex >= 0
      && currentIndex < (if Total() >= 1 then Total() else 1)
      && (manifest.None? ==> currentIndex == 0 && !isPlaying)
      && NoDuplicates(requested)
      && preloaded == Elems(requested)
    }

    constructor()
      ensures manifest.None? && currentIndex == 0 && !isPlaying && preloaded == {} && requested == []
      ensures Valid()
    {
      manifest := None;
      currentIndex := 0;
      isPlaying := false;
      preloaded := {};
      requested := [];
    }

    /** The manifest fetch resolved. */
    method Loaded(frames: seq<Replay.ManifestFrame>)
      requires Valid() && manifest.None?
      modifies this
      ensures manifest == Some(frames) && currentIndex == old(currentIndex) && isPlaying == old(isPlaying)
      ensures preloaded == old(preloaded) && requested == old(requested)
      ensures Valid()
    {
      manifest := Some(frames);
    }

    /**
     * A key press on the player.  Ignored while no manifest is loaded; the
     * listener is attached only to the frame view, shown when there is at
     * least one frame.
     */
    method KeyDown(key: Key)
      requires Valid() && (manifest.None? || Total() >= 1)
      modifies this
      ensures manifest.None? ==> currentIndex == old(currentIndex) && isPlaying == old(isPlaying)
      ensures manifest.Some? && key == ArrowLeft ==> currentIndex == Back(old(currentIndex)) && isPlaying == old(isPlaying)
      ensures manifest.Some? && key == ArrowRight ==> currentIndex == Forward(old(currentIndex), Total()) && isPlaying == old(isPlaying)
      ensures manifest.Some? && key == Space ==> currentIndex == old(currentIndex) && isPlaying == !old(isPlaying)
      ensures key == OtherKey ==> currentIndex == old(currentIndex) && isPlaying == old(isPlaying)
      ensures manifest == old(manifest) && preloaded == old(preloaded) && requested == old(requested)
      ensures Valid()
    {
      if manifest.None? {
        return;
      }
      match key
      case ArrowLeft => currentIndex := Back(currentIndex);
      case ArrowRight => currentIndex := Forward(currentIndex, Total());
      case Space => isPlaying := !isPlaying;
      case OtherKey =>
    }

    /** The play/pause button. */
    method TogglePlay()
      requires Valid() && manifest.Some?
      modifies this
      ensures isPlaying == !old(isPlaying) && currentIndex == old(currentIndex)
      ensures manifest == old(manifest) && preloaded == old(preloaded) && requested == old(requested)
      ensures Valid()
    {
      isPlaying := !isPlaying;
    }

    /** "Go to start". */
    method GoToStart()
      requires Valid() && manifest.Some?
      modifies this
      ensures currentIndex == 0 && isPlaying == old(isPlaying)
      ensures manifest == old(manifest) && preloaded == old(preloaded) && requested == old(requested)
      ensures Valid()
    {
      currentIndex := 0;
    }

    /** "Go to end"; the button exists only when there is a frame. */
    method GoToEnd()
      requires Valid() && manifest.Some? && Total() >= 1
      modifies this
      ensures currentIndex == Total() - 1 && isPlaying == old(isPlaying)
      ensures manifest == old(manifest) && preloaded == old(preloaded) && requested == old(requested)
      ensures Valid()
    {
      currentIndex := Total() - 1;
    }

    /** The scrubber slider, whose positions run from 0 to the last frame, sets the cursor. */
    method Seek(i: nat)
      requires Valid() && manifest.Some? && i < Total()
      modifies this
      ensures currentIndex == i && isPlaying == old(isPlaying)
      ensures manifest == old(manifest) && preloaded == old(preloaded) && requested == old(requested)
      ensures Valid()
    {
      currentIndex := i;
    }

    /** One firing of the playback interval, which runs only while playing with a manifest. */
    method Tick()
      requires Valid() && manifest.Some? && isPlaying
      modifies this
      ensures (currentIndex, isPlaying) == TickIndex(old(currentIndex), Total())
      ensures manifest == old(manifest) && preloaded == old(preloaded) && requested == old(requested)
      ensures Valid()
    {
      if currentIndex >= Total() - 1 {
        isPlaying := false;
      } else {
        currentIndex := currentIndex + 1;
      }
    }

    /** Starts loading the frames `[currentIndex, min(currentIndex + 5, total))` not loaded before. */
    method Preload()
      requires Valid()
      modifies this
      ensures Valid()
      ensures manifest.None? ==> requested == old(requested)
      ensures manifest.Some? ==>
        var end := if currentIndex + PreloadAhead < Total() then currentIndex + PreloadAhead else Total();
        currentIndex <= end
        && requested == old(requested) + NewUrls(manifest.value, currentIndex, end, old(preloaded))
        && preloaded == old(preloaded) + WindowUrls(manifest.value, currentIndex, end)
      ensures manifest == old(manifest) && currentIndex == old(currentIndex) && isPlaying == old(isPlaying)
    {
      if manifest.None? {
        return;
      }
      var frames := manifest.value;
      var end := if currentIndex + PreloadAhead < |frames| then currentIndex + PreloadAhead else |frames|;
      var req, pre := PreloadWindow(frames, currentIndex, end, requested, preloaded);
      requested, preloaded := req, pre;
    }
  }
}
